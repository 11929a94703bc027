/**
 Staging does not get stuck: where the loop has room and the tasks do not race, no action of any schedule fails unless
 the operating system refuses it.
 */
module StagingProgress {
  import opened Filesystem
  import opened Inodes
  import opened Staging

  /**
   * Every source is a file, every target can become one, and no target is above another.  Hard links also need targets
   * that are not taken, each for one task.
   */
  ghost predicate HasRoom(how: MoveMethod, t0: Tree, jobs: seq<Job>) {
    && (forall i :: 0 <= i < |jobs| ==> FitsAlone(t0, jobs[i]))
    && (forall i, k :: 0 <= i < |jobs| && 0 <= k < |jobs| ==> !Above(jobs[k].target, jobs[i].target))
    && (how == ByHardLink ==> DistinctTargets(jobs) && forall i :: 0 <= i < |jobs| ==> jobs[i].target !in t0)
  }

  ghost predicate FitsAlone(t0: Tree, job: Job) {
    && job.target != [] && IsFile(t0, job.source) && !IsDir(t0, job.target)
    && forall j :: j in t0 && Above(j, job.target) ==> IsDir(t0, j)
  }

  /** The next action of a task is possible. */
  predicate CanAct(how: MoveMethod, job: Job, t: Tree, phase: Phase)
    requires WellPhased(job, phase)
  {
    match phase
    case MakingParents(made) =>
      var k := job.target[..made];
      IsDir(t, k) || (k != [] && k !in t && IsDir(t, Up(k)))
    case Transferring =>
      (match how
       case ByCopy => CanCopy(t, job.source, job.target)
       case ByHardLink => CanLink(t, job.source, job.target)
       case ByHardLinkWithCopyFallback => true)
    case FallingBack => CanCopy(t, job.source, job.target)
    case Filling => IsFile(t, job.source) && IsFile(t, job.target)
    case _ => true
  }

  ghost predicate NoneFailed(phases: seq<Phase>) {
    forall i :: 0 <= i < |phases| ==> !phases[i].Failed?
  }

  lemma SourceStays(how: MoveMethod, t0: Tree, jobs: seq<Job>, t: Tree, phases: seq<Phase>, i: nat)
    requires HasRoom(how, t0, jobs) && RaceFree(how, jobs) && Accounted(how, t0, jobs, t, phases) && i < |jobs|
    ensures IsFile(t, jobs[i].source)
  {
    assert FitsAlone(t0, jobs[i]) && jobs[i] in JobSet(jobs);
    assert jobs[i].source !in LandedKeys(jobs, phases);
  }

  /** What is above a target, as far as it exists, is a directory. */
  lemma LevelIsDir(how: MoveMethod, t0: Tree, jobs: seq<Job>, t: Tree, phases: seq<Phase>, i: nat, j: Key)
    requires HasRoom(how, t0, jobs) && Accounted(how, t0, jobs, t, phases)
    requires i < |jobs| && Above(j, jobs[i].target) && j in t
    ensures IsDir(t, j)
  {
    assert FitsAlone(t0, jobs[i]);
    assert j !in LandedKeys(jobs, phases);
  }

  lemma MadeLevel(jobs: seq<Job>, phases: seq<Phase>, i: nat, n: nat)
    requires WellFormedPhases(jobs, phases) && i < |jobs| && n < Depth(jobs[i], phases[i])
    ensures jobs[i].target[..n] in MadeKeys(jobs, phases)
  {
    assert jobs[i].target[..n] in LevelsAbove(jobs[i], phases[i]);
  }

  lemma TargetIsNoDir(how: MoveMethod, t0: Tree, jobs: seq<Job>, t: Tree, phases: seq<Phase>, i: nat)
    requires HasRoom(how, t0, jobs) && Accounted(how, t0, jobs, t, phases) && i < |jobs|
    ensures !IsDir(t, jobs[i].target)
    ensures jobs[i].target in t ==> jobs[i].target in t0 || jobs[i].target in LandedKeys(jobs, phases)
  {
    var target := jobs[i].target;
    assert FitsAlone(t0, jobs[i]);
    assert target !in MadeKeys(jobs, phases);
  }

  lemma CanTransfer(how: MoveMethod, t0: Tree, jobs: seq<Job>, t: Tree, phases: seq<Phase>, i: nat)
    requires HasRoom(how, t0, jobs) && RaceFree(how, jobs) && Accounted(how, t0, jobs, t, phases)
    requires i < |jobs| && (phases[i].Transferring? || phases[i].FallingBack?)
    ensures CanCopy(t, jobs[i].source, jobs[i].target)
    ensures how == ByHardLink && phases[i].Transferring? ==> jobs[i].target !in t
  {
    var target := jobs[i].target;
    SourceStays(how, t0, jobs, t, phases, i);
    TargetIsNoDir(how, t0, jobs, t, phases, i);
    MadeLevel(jobs, phases, i, |target| - 1);
    assert Up(target) == target[..|target| - 1];
    if how == ByHardLink && target in LandedKeys(jobs, phases) {
      var k :| 0 <= k < |jobs| && Touched(phases[k]) && jobs[k].target == target;
      assert k == i;
    }
  }

  lemma CanMakeLevel(how: MoveMethod, t0: Tree, jobs: seq<Job>, t: Tree, phases: seq<Phase>, i: nat)
    requires HasRoom(how, t0, jobs) && Accounted(how, t0, jobs, t, phases) && IsDir(t, [])
    requires i < |jobs| && phases[i].MakingParents?
    ensures CanAct(how, jobs[i], t, phases[i])
  {
    var target, made := jobs[i].target, phases[i].made;
    assert WellPhased(jobs[i], phases[i]);
    if target[..made] in t {
      LevelIsDir(how, t0, jobs, t, phases, i, target[..made]);
    } else if made > 0 {
      LevelAbove(how, t0, jobs, t, phases, i);
    } else {
      assert target[..0] == [];
    }
  }

  /** The level before the one a task is about to make is there. */
  lemma LevelAbove(how: MoveMethod, t0: Tree, jobs: seq<Job>, t: Tree, phases: seq<Phase>, i: nat)
    requires Accounted(how, t0, jobs, t, phases) && i < |jobs| && phases[i].MakingParents? && phases[i].made > 0
    requires phases[i].made < |jobs[i].target|
    ensures var k := jobs[i].target[..phases[i].made]; k != [] && IsDir(t, Up(k))
  {
    var target, made := jobs[i].target, phases[i].made;
    assert Up(target[..made]) == target[..made - 1];
    MadeLevel(jobs, phases, i, made - 1);
  }

  lemma CanFill(how: MoveMethod, t0: Tree, jobs: seq<Job>, t: Tree, phases: seq<Phase>, i: nat)
    requires HasRoom(how, t0, jobs) && RaceFree(how, jobs) && Accounted(how, t0, jobs, t, phases)
    requires i < |jobs| && phases[i].Filling?
    ensures IsFile(t, jobs[i].source) && IsFile(t, jobs[i].target)
  {
    SourceStays(how, t0, jobs, t, phases, i);
    assert jobs[i].target in LandedKeys(jobs, phases);
  }

  /** In every state of every schedule every task can take its next action. */
  lemma TasksCanAct(how: MoveMethod, t0: Tree, jobs: seq<Job>, d: Disk, phases: seq<Phase>, i: nat)
    requires HasRoom(how, t0, jobs) && RaceFree(how, jobs) && Accounted(how, t0, jobs, d.tree, phases)
    requires i < |jobs| && Running(phases[i])
    ensures CanAct(how, jobs[i], d.tree, phases[i])
  {
    if phases[i].MakingParents? {
      CanMakeLevel(how, t0, jobs, d.tree, phases, i);
    } else if phases[i].Filling? {
      CanFill(how, t0, jobs, d.tree, phases, i);
    } else {
      CanTransfer(how, t0, jobs, d.tree, phases, i);
    }
  }

  /** Fewer tasks have room where all of them have. */
  lemma PrefixHasRoom(how: MoveMethod, t0: Tree, jobs: seq<Job>, n: nat)
    requires n <= |jobs|
    ensures HasRoom(how, t0, jobs) ==> HasRoom(how, t0, jobs[..n])
    ensures RaceFree(how, jobs) ==> RaceFree(how, jobs[..n])
  {
    assert JobSet(jobs[..n]) <= JobSet(jobs);
  }
}
