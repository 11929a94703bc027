/**
 Moving resources into a jail: one blocking task per resource, all running at once.  A task creates the missing parent
 directories of its target one level at a time and then links its source, or opens its target and fills it; between any
 two of these actions every other task may run.  The main result is that all interleavings that succeed end in the tree
 of the loop that stages one resource after the other.
 */
module Staging {
  import opened Wrappers
  import opened Filesystem
  import opened Inodes

  datatype MoveMethod = ByCopy | ByHardLink | ByHardLinkWithCopyFallback

  datatype Job = Job(source: Key, target: Key)

  datatype Phase =
    | MakingParents(made: nat)   // the first `made` levels above the target exist
    | Transferring
    | FallingBack                // the hard link was refused, the copy has not begun yet
    | Filling                    // the copy has opened its target, which is still empty
    | Finished
    | Failed(made: nat, begun: bool)

  datatype State = State(disk: Disk, phases: seq<Phase>)

  predicate WellPhased(job: Job, phase: Phase) {
    && job.target != []
    && (phase.MakingParents? ==> phase.made < |job.target|)
    && (phase.Failed? ==> phase.made <= |job.target|)
  }

  /** How many levels above the target the task has made sure of. */
  function Depth(job: Job, phase: Phase): nat {
    match phase
    case MakingParents(made) => made
    case Failed(made, _) => made
    case _ => |job.target|
  }

  predicate Running(phase: Phase) {
    !phase.Finished? && !phase.Failed?
  }

  /** The task has written at its target. */
  predicate Touched(phase: Phase) {
    phase.Finished? || Unfinished(phase)
  }

  /** The task has opened its target and has not filled it, or only in part. */
  predicate Unfinished(phase: Phase) {
    phase.Filling? || (phase.Failed? && phase.begun)
  }

  function NextLevel(job: Job, made: nat): Phase {
    if made + 1 == |job.target| then Transferring else MakingParents(made + 1)
  }

  // ---------------------------------------------------------------- actions

  predicate MakesDir(t: Tree, k: Key, t': Tree) {
    || (IsDir(t, k) && t' == t)
    || (k != [] && k !in t && IsDir(t, Up(k)) && t' == t[k := Dir])
  }

  predicate MakesLevel(d: Disk, k: Key, d': Disk) {
    || (IsDir(d.tree, k) && d' == d)
    || (k != [] && k !in d.tree && IsDir(d.tree, Up(k)) && d' == AddDir(d, k))
  }

  predicate Links(job: Job, d: Disk, d': Disk, phase': Phase) {
    CanLink(d.tree, job.source, job.target) && d' == AddName(d, job.source, job.target) && phase' == Finished
  }

  predicate Opens(job: Job, d: Disk, d': Disk, phase': Phase) {
    CanCopy(d.tree, job.source, job.target) && d' == Open(d, job.target) && phase' == Filling
  }

  predicate Fills(job: Job, d: Disk, d': Disk, phase': Phase) {
    && IsFile(d.tree, job.source) && IsFile(d.tree, job.target)
    && d' == Write(d, job.target, d.tree[job.source].content)
    && phase' == Finished
  }

  /** Some content has been written at the target. */
  predicate WritesPart(job: Job, d: Disk, d': Disk) {
    && IsFile(d.tree, job.target) && IsFile(d'.tree, job.target)
    && d' == Write(d, job.target, d'.tree[job.target].content)
  }

  /** Any action may fail instead, which ends the task; a failing copy may leave a part behind. */
  predicate Fails(job: Job, d: Disk, phase: Phase, d': Disk, phase': Phase) {
    && Running(phase)
    && phase' == Failed(Depth(job, phase), phase.Filling?)
    && (d' == d || (phase.Filling? && WritesPart(job, d, d')))
  }

  predicate Transfers(how: MoveMethod, job: Job, d: Disk, d': Disk, phase': Phase) {
    match how
    case ByCopy => Opens(job, d, d', phase')
    case ByHardLink => Links(job, d, d', phase')
    case ByHardLinkWithCopyFallback => Links(job, d, d', phase') || (d' == d && phase' == FallingBack)
  }

  /** One action of one task. */
  predicate Advances(how: MoveMethod, job: Job, d: Disk, phase: Phase, d': Disk, phase': Phase)
    requires WellPhased(job, phase)
  {
    || Fails(job, d, phase, d', phase')
    || match phase
       case MakingParents(made) => MakesLevel(d, job.target[..made], d') && phase' == NextLevel(job, made)
       case Transferring => Transfers(how, job, d, d', phase')
       case FallingBack => Opens(job, d, d', phase')
       case Filling => Fills(job, d, d', phase')
       case Finished => false
       case Failed(_, _) => false
  }

  predicate WellFormedPhases(jobs: seq<Job>, phases: seq<Phase>) {
    && |phases| == |jobs|
    && forall i :: 0 <= i < |jobs| ==> WellPhased(jobs[i], phases[i])
  }

  predicate TaskStep(how: MoveMethod, jobs: seq<Job>, s: State, i: nat, s': State)
    requires WellFormedPhases(jobs, s.phases)
  {
    && i < |jobs|
    && |s'.phases| == |s.phases|
    && s'.phases == s.phases[i := s'.phases[i]]
    && Advances(how, jobs[i], s.disk, s.phases[i], s'.disk, s'.phases[i])
  }

  ghost predicate SomeStep(how: MoveMethod, jobs: seq<Job>, s: State, s': State) {
    WellFormedPhases(jobs, s.phases) && exists i: nat :: TaskStep(how, jobs, s, i, s')
  }

  /** A schedule: any number of steps, each of any task. */
  ghost predicate Run(how: MoveMethod, jobs: seq<Job>, trace: seq<State>) {
    && trace != []
    && forall k :: 0 <= k < |trace| - 1 ==> SomeStep(how, jobs, trace[k], trace[k + 1])
  }

  predicate Spawned(jobs: seq<Job>, phases: seq<Phase>) {
    && |phases| == |jobs|
    && forall i :: 0 <= i < |jobs| ==> phases[i] == MakingParents(0)
  }

  predicate AllFinished(phases: seq<Phase>) {
    forall i :: 0 <= i < |phases| ==> phases[i].Finished?
  }

  // ---------------------------------------------------------------- races

  function JobSet(jobs: seq<Job>): set<Job> {
    set job | job in jobs
  }

  /** No task writes where another one reads. */
  predicate SourcesApart(jobs: set<Job>) {
    forall a, b :: a in jobs && b in jobs ==> a.target != b.source
  }

  /** Besides, tasks with a common target have a common source. */
  predicate Independent(jobs: set<Job>) {
    forall a, b :: a in jobs && b in jobs ==> a.target != b.source && (a.target == b.target ==> a.source == b.source)
  }

  predicate DistinctTargets(jobs: seq<Job>) {
    forall i, j :: 0 <= i < j < |jobs| ==> jobs[i].target != jobs[j].target
  }

  /**
   * When tasks do not race depends on the move method.  Copies of one source to one target do not disturb each other.
   * Of two links to one target the second one fails.  But a copy that follows a refused link to the same target goes
   * through the first link into the source.
   */
  predicate RaceFree(how: MoveMethod, jobs: seq<Job>) {
    && SourcesApart(JobSet(jobs))
    && match how
       case ByCopy => Independent(JobSet(jobs))
       case ByHardLink => true
       case ByHardLinkWithCopyFallback => DistinctTargets(jobs)
  }

  /** The files at the targets, where there are any, have no other names. */
  ghost predicate TargetsOwned(d: Disk, jobs: seq<Job>) {
    forall i :: 0 <= i < |jobs| ==> HasOneName(d, jobs[i].target)
  }

  // ---------------------------------------------------------------- the names of every schedule

  predicate Fits(how: MoveMethod, phase: Phase) {
    && (phase.FallingBack? ==> how == ByHardLinkWithCopyFallback)
    && (Unfinished(phase) ==> how != ByHardLink)
  }

  function SourceInodes(d0: Disk, jobs: seq<Job>): set<nat> {
    set job | job in JobSet(jobs) && job.source in d0.inodes :: d0.inodes[job.source]
  }

  ghost predicate IsTarget(jobs: set<Job>, j: Key) {
    exists job :: job in jobs && job.target == j
  }

  function FinishedKeys(jobs: seq<Job>, phases: seq<Phase>): set<Key>
    requires |phases| == |jobs|
  {
    set i | 0 <= i < |jobs| && phases[i].Finished? :: jobs[i].target
  }

  /** A name that was there, a file that a copy has created, or one more name of a source. */
  ghost predicate NameAccounted(how: MoveMethod, d0: Disk, jobs: seq<Job>, s: State, k: Key)
    requires |s.phases| == |jobs| && k in s.disk.inodes
  {
    || k in d0.inodes
    || (IsTarget(JobSet(jobs), k) && how != ByHardLink && d0.next <= s.disk.inodes[k] && HasOneName(s.disk, k))
    || (k in FinishedKeys(jobs, s.phases) && how != ByCopy && s.disk.inodes[k] in SourceInodes(d0, jobs))
  }

  ghost predicate NamesAccounted(how: MoveMethod, d0: Disk, jobs: seq<Job>, s: State) {
    && |s.phases| == |jobs|
    && (forall i :: 0 <= i < |jobs| ==> Fits(how, s.phases[i]))
    && d0.next <= s.disk.next
    && (forall k :: k in d0.inodes ==> k in s.disk.inodes && s.disk.inodes[k] == d0.inodes[k])
    && (forall k :: k in s.disk.inodes ==> NameAccounted(how, d0, jobs, s, k))
  }

  lemma SpawnedNames(how: MoveMethod, d0: Disk, jobs: seq<Job>, s: State)
    requires Spawned(jobs, s.phases) && s.disk == d0
    ensures NamesAccounted(how, d0, jobs, s)
  {
  }

  lemma FinishedKeysGrow(jobs: seq<Job>, phases: seq<Phase>, i: nat, phase': Phase)
    requires |phases| == |jobs| && i < |jobs| && Running(phases[i])
    ensures FinishedKeys(jobs, phases) <= FinishedKeys(jobs, phases[i := phase'])
    ensures phase'.Finished? ==> jobs[i].target in FinishedKeys(jobs, phases[i := phase'])
  {
    var after := phases[i := phase'];
    forall j | j in FinishedKeys(jobs, phases)
      ensures j in FinishedKeys(jobs, after)
    {
      var k :| 0 <= k < |jobs| && phases[k].Finished? && jobs[k].target == j;
      assert after[k].Finished?;
    }
    if phase'.Finished? {
      assert after[i].Finished?;
    }
  }

  /** An action that gives no file a name. */
  lemma SameNamesKeep(how: MoveMethod, d0: Disk, jobs: seq<Job>, s: State, i: nat, d': Disk, phase': Phase)
    requires NamesAccounted(how, d0, jobs, s) && i < |jobs| && Running(s.phases[i]) && Fits(how, phase')
    requires d'.inodes == s.disk.inodes && d'.next == s.disk.next
    ensures NamesAccounted(how, d0, jobs, State(d', s.phases[i := phase']))
  {
    FinishedKeysGrow(jobs, s.phases, i, phase');
    forall k | k in d'.inodes
      ensures NameAccounted(how, d0, jobs, State(d', s.phases[i := phase']), k)
    {
      assert NameAccounted(how, d0, jobs, s, k);
      assert HasOneName(s.disk, k) ==> HasOneName(d', k) by {
        assert forall j :: SameFile(d', j, k) <==> SameFile(s.disk, j, k);
      }
    }
  }

  lemma NewFileKeepsNames(how: MoveMethod, d0: Disk, jobs: seq<Job>, s: State, i: nat)
    requires NamesAccounted(how, d0, jobs, s) && i < |jobs| && Running(s.phases[i]) && how != ByHardLink
    requires jobs[i].target !in s.disk.tree && CanCreate(s.disk.tree, jobs[i].target)
    ensures NamesAccounted(how, d0, jobs, State(Open(s.disk, jobs[i].target), s.phases[i := Filling]))
  {
    var target, d' := jobs[i].target, Open(s.disk, jobs[i].target);
    FinishedKeysGrow(jobs, s.phases, i, Filling);
    assert jobs[i] in JobSet(jobs);
    forall k | k in d'.inodes
      ensures NameAccounted(how, d0, jobs, State(d', s.phases[i := Filling]), k)
    {
      OpenNewKeepsSole(s.disk, target, k);
      if k != target {
        assert NameAccounted(how, d0, jobs, s, k);
      }
    }
  }

  /** A source is a name that was there, or with links only, one more name of a source. */
  lemma SourceInode(how: MoveMethod, d0: Disk, jobs: seq<Job>, s: State, i: nat)
    requires NamesAccounted(how, d0, jobs, s) && i < |jobs| && jobs[i].source in s.disk.inodes && how != ByCopy
    requires how == ByHardLinkWithCopyFallback ==> SourcesApart(JobSet(jobs))
    ensures s.disk.inodes[jobs[i].source] in SourceInodes(d0, jobs)
  {
    var source := jobs[i].source;
    assert jobs[i] in JobSet(jobs);
    assert NameAccounted(how, d0, jobs, s, source);
    assert how == ByHardLinkWithCopyFallback ==> !IsTarget(JobSet(jobs), source);
  }

  /** The state after a task has linked its source. */
  function Linked(jobs: seq<Job>, s: State, i: nat): State
    requires i < |jobs| && i < |s.phases| && CanLink(s.disk.tree, jobs[i].source, jobs[i].target)
  {
    State(AddName(s.disk, jobs[i].source, jobs[i].target), s.phases[i := Finished])
  }

  lemma NewNameKeepsNames(how: MoveMethod, d0: Disk, jobs: seq<Job>, s: State, i: nat)
    requires NamesAccounted(how, d0, jobs, s) && i < |jobs| && Running(s.phases[i]) && how != ByCopy
    requires how == ByHardLinkWithCopyFallback ==> SourcesApart(JobSet(jobs))
    requires CanLink(s.disk.tree, jobs[i].source, jobs[i].target)
    ensures NamesAccounted(how, d0, jobs, Linked(jobs, s, i))
  {
    SourceInode(how, d0, jobs, s, i);
    forall k | k in Linked(jobs, s, i).disk.inodes
      ensures NameAccounted(how, d0, jobs, Linked(jobs, s, i), k)
    {
      NameAfterLink(how, d0, jobs, s, i, k);
    }
  }

  lemma NameAfterLink(how: MoveMethod, d0: Disk, jobs: seq<Job>, s: State, i: nat, k: Key)
    requires |s.phases| == |jobs| && i < |jobs| && Running(s.phases[i]) && how != ByCopy
    requires CanLink(s.disk.tree, jobs[i].source, jobs[i].target)
    requires s.disk.inodes[jobs[i].source] in SourceInodes(d0, jobs)
    requires k in s.disk.inodes ==> NameAccounted(how, d0, jobs, s, k)
    requires k in Linked(jobs, s, i).disk.inodes
    ensures NameAccounted(how, d0, jobs, Linked(jobs, s, i), k)
  {
    if k == jobs[i].target {
      LinkedNameIsAccounted(how, d0, jobs, s, i);
    } else {
      OtherNameKeeps(how, d0, jobs, s, i, k);
    }
  }

  lemma LinkedNameIsAccounted(how: MoveMethod, d0: Disk, jobs: seq<Job>, s: State, i: nat)
    requires |s.phases| == |jobs| && i < |jobs| && Running(s.phases[i]) && how != ByCopy
    requires CanLink(s.disk.tree, jobs[i].source, jobs[i].target)
    requires s.disk.inodes[jobs[i].source] in SourceInodes(d0, jobs)
    ensures NameAccounted(how, d0, jobs, Linked(jobs, s, i), jobs[i].target)
  {
    FinishedKeysGrow(jobs, s.phases, i, Finished);
  }

  lemma OtherNameKeeps(how: MoveMethod, d0: Disk, jobs: seq<Job>, s: State, i: nat, k: Key)
    requires |s.phases| == |jobs| && i < |jobs| && Running(s.phases[i])
    requires CanLink(s.disk.tree, jobs[i].source, jobs[i].target) && k in s.disk.inodes && k != jobs[i].target
    requires s.disk.inodes[jobs[i].source] in SourceInodes(d0, jobs) && NameAccounted(how, d0, jobs, s, k)
    ensures NameAccounted(how, d0, jobs, Linked(jobs, s, i), k)
  {
    FinishedKeysGrow(jobs, s.phases, i, Finished);
    SourceInodesAreOld(d0, jobs);
    if HasOneName(s.disk, k) && d0.next <= s.disk.inodes[k] {
      AddNameKeepsSole(s.disk, jobs[i].source, jobs[i].target, k);
    }
  }

  lemma SourceInodesAreOld(d0: Disk, jobs: seq<Job>)
    ensures forall n :: n in SourceInodes(d0, jobs) ==> n < d0.next
  {
  }

  lemma StepKeepsNames(how: MoveMethod, d0: Disk, jobs: seq<Job>, s: State, i: nat, s': State)
    requires WellFormedPhases(jobs, s.phases) && TaskStep(how, jobs, s, i, s') && NamesAccounted(how, d0, jobs, s)
    requires how == ByHardLinkWithCopyFallback ==> SourcesApart(JobSet(jobs))
    ensures NamesAccounted(how, d0, jobs, s')
  {
    var phase' := s'.phases[i];
    assert s' == State(s'.disk, s.phases[i := phase']);
    assert Fits(how, s.phases[i]);
    if s.phases[i].Transferring? && phase'.Finished? {
      NewNameKeepsNames(how, d0, jobs, s, i);
    } else if phase'.Filling? && jobs[i].target !in s.disk.tree {
      NewFileKeepsNames(how, d0, jobs, s, i);
    } else {
      SameNamesKeep(how, d0, jobs, s, i, s'.disk, phase');
    }
  }

  lemma SpawnKeepsNames(how: MoveMethod, d0: Disk, jobs: seq<Job>, s: State, job: Job)
    requires NamesAccounted(how, d0, jobs, s)
    ensures NamesAccounted(how, d0, jobs + [job], State(s.disk, s.phases + [MakingParents(0)]))
  {
    var more, after := jobs + [job], State(s.disk, s.phases + [MakingParents(0)]);
    assert JobSet(jobs) <= JobSet(more);
    forall k | k in s.disk.inodes
      ensures NameAccounted(how, d0, more, after, k)
    {
      assert NameAccounted(how, d0, jobs, s, k);
      if k in FinishedKeys(jobs, s.phases) {
        var n :| 0 <= n < |jobs| && s.phases[n].Finished? && jobs[n].target == k;
        assert after.phases[n].Finished? && more[n].target == k;
      }
    }
  }

  /** A copy writes a file that has no name but its target. */
  lemma WrittenIsSole(how: MoveMethod, d0: Disk, jobs: seq<Job>, s: State, i: nat)
    requires NamesAccounted(how, d0, jobs, s) && TargetsOwned(d0, jobs) && i < |jobs| && Running(s.phases[i])
    requires how == ByCopy || (how == ByHardLinkWithCopyFallback && RaceFree(how, jobs))
    ensures HasOneName(s.disk, jobs[i].target)
  {
    var target := jobs[i].target;
    assert jobs[i] in JobSet(jobs);
    forall j | j in s.disk.inodes && j != target
      ensures !SameFile(s.disk, j, target)
    {
      if target in s.disk.inodes {
        assert NameAccounted(how, d0, jobs, s, j) && NameAccounted(how, d0, jobs, s, target);
        NotFinishedByOthers(how, jobs, s.phases, i);
        TargetIsNoSource(how, d0, jobs, i);
        assert HasOneName(d0, target);
      }
    }
  }

  lemma NotFinishedByOthers(how: MoveMethod, jobs: seq<Job>, phases: seq<Phase>, i: nat)
    requires |phases| == |jobs| && i < |jobs| && Running(phases[i])
    ensures how == ByHardLinkWithCopyFallback && RaceFree(how, jobs) ==> jobs[i].target !in FinishedKeys(jobs, phases)
  {
  }

  lemma TargetIsNoSource(how: MoveMethod, d0: Disk, jobs: seq<Job>, i: nat)
    requires TargetsOwned(d0, jobs) && i < |jobs|
    ensures SourcesApart(JobSet(jobs)) && jobs[i].target in d0.inodes ==>
              d0.inodes[jobs[i].target] !in SourceInodes(d0, jobs)
  {
    assert jobs[i] in JobSet(jobs) && HasOneName(d0, jobs[i].target);
  }

  // ---------------------------------------------------------------- the nodes of every schedule

  /** The targets written so far. */
  function LandedKeys(jobs: seq<Job>, phases: seq<Phase>): set<Key>
    requires |phases| == |jobs|
  {
    set i | 0 <= i < |jobs| && Touched(phases[i]) :: jobs[i].target
  }

  /** The targets whose content is not there yet. */
  function PendingKeys(jobs: seq<Job>, phases: seq<Phase>): set<Key>
    requires |phases| == |jobs|
  {
    set i | 0 <= i < |jobs| && Unfinished(phases[i]) :: jobs[i].target
  }

  /** The levels above one target that its task has made sure of. */
  function LevelsAbove(job: Job, phase: Phase): (r: set<Key>)
    requires WellPhased(job, phase)
    ensures forall j :: j in r <==> j <= job.target && |j| < Depth(job, phase)
  {
    var r := set n | 0 <= n < Depth(job, phase) :: job.target[..n];
    assert forall j :: j <= job.target && |j| < Depth(job, phase) ==> j == job.target[..|j|];
    r
  }

  function MadeKeys(jobs: seq<Job>, phases: seq<Phase>): set<Key>
    requires WellFormedPhases(jobs, phases)
  {
    set i, j | 0 <= i < |jobs| && j in LevelsAbove(jobs[i], phases[i]) :: j
  }

  /** Which nodes a tree has that grew from `t0` by writing files at `landed` and making directories at `made`. */
  ghost predicate Accounts(t0: Tree, landed: set<Key>, made: set<Key>, t: Tree) {
    && t.Keys == t0.Keys + landed + made
    && (forall j :: j in t && j !in landed ==> t[j] == if j in t0 then t0[j] else Dir)
    && (forall j :: j in made ==> IsDir(t, j))
    && (forall j :: j in landed ==> IsFile(t, j) && !IsDir(t0, j))
  }

  /** The job's target holds what its source held in the beginning. */
  predicate Delivered(t0: Tree, job: Job, t: Tree) {
    && IsFile(t0, job.source)
    && !IsDir(t0, job.target)
    && job.target in t
    && t[job.target] == t0[job.source]
  }

  ghost predicate AllDelivered(t0: Tree, jobs: seq<Job>, t: Tree, phases: seq<Phase>)
    requires |phases| == |jobs|
  {
    forall i :: 0 <= i < |jobs| && phases[i].Finished? && jobs[i].target !in PendingKeys(jobs, phases) ==>
      Delivered(t0, jobs[i], t)
  }

  /** Of two links to one target at most one has succeeded. */
  ghost predicate LinkedApart(how: MoveMethod, jobs: seq<Job>, phases: seq<Phase>)
    requires |phases| == |jobs|
  {
    how == ByHardLink ==>
      forall i, j :: 0 <= i < j < |jobs| && phases[i].Finished? && phases[j].Finished? ==>
        jobs[i].target != jobs[j].target
  }

  ghost predicate Accounted(how: MoveMethod, t0: Tree, jobs: seq<Job>, t: Tree, phases: seq<Phase>) {
    && WellFormedPhases(jobs, phases)
    && Accounts(t0, LandedKeys(jobs, phases), MadeKeys(jobs, phases), t)
    && AllDelivered(t0, jobs, t, phases)
    && LinkedApart(how, jobs, phases)
  }

  lemma LevelAccounts(t0: Tree, landed: set<Key>, made: set<Key>, t: Tree, k: Key, t': Tree)
    requires Accounts(t0, landed, made, t) && MakesDir(t, k, t')
    ensures Accounts(t0, landed, made + {k}, t')
  {
  }

  lemma TransferAccounts(t0: Tree, landed: set<Key>, made: set<Key>, t: Tree, target: Key, node: Node)
    requires Accounts(t0, landed, made, t) && !IsDir(t, target) && node.File?
    ensures Accounts(t0, landed + {target}, made, t[target := node])
  {
  }

  lemma MadeKeysOfChange(jobs: seq<Job>, phases: seq<Phase>, i: nat, phase: Phase, d: set<Key>)
    requires WellFormedPhases(jobs, phases) && i < |jobs| && WellPhased(jobs[i], phase)
    requires LevelsAbove(jobs[i], phase) == LevelsAbove(jobs[i], phases[i]) + d
    ensures MadeKeys(jobs, phases[i := phase]) == MadeKeys(jobs, phases) + d
  {
    var after := phases[i := phase];
    forall j | j in MadeKeys(jobs, after)
      ensures j in MadeKeys(jobs, phases) + d
    {
      var k :| 0 <= k < |jobs| && j in LevelsAbove(jobs[k], after[k]);
      assert k != i ==> after[k] == phases[k];
    }
    forall j | j in MadeKeys(jobs, phases)
      ensures j in MadeKeys(jobs, after)
    {
      var k :| 0 <= k < |jobs| && j in LevelsAbove(jobs[k], phases[k]);
      assert j in LevelsAbove(jobs[k], after[k]);
    }
    forall j | j in d
      ensures j in MadeKeys(jobs, after)
    {
      assert after[i] == phase && j in LevelsAbove(jobs[i], phase);
    }
  }

  lemma LandedKeysOfChange(jobs: seq<Job>, phases: seq<Phase>, i: nat, phase: Phase)
    requires |phases| == |jobs| && i < |jobs| && (Touched(phases[i]) ==> Touched(phase))
    ensures LandedKeys(jobs, phases[i := phase])
            == LandedKeys(jobs, phases) + if Touched(phase) then {jobs[i].target} else {}
  {
    var after := phases[i := phase];
    assert after[i] == phase;
    forall j | j in LandedKeys(jobs, phases)
      ensures j in LandedKeys(jobs, after)
    {
      var k :| 0 <= k < |jobs| && Touched(phases[k]) && jobs[k].target == j;
      assert Touched(after[k]);
    }
    forall j | j in LandedKeys(jobs, after)
      ensures j in LandedKeys(jobs, phases) + if Touched(phase) then {jobs[i].target} else {}
    {
      var k :| 0 <= k < |jobs| && Touched(after[k]) && jobs[k].target == j;
      assert k != i ==> Touched(phases[k]);
    }
  }

  /** A target stays pending, unless it is that of the task that changes; and it becomes so only by that task. */
  lemma PendingKeysOfChange(jobs: seq<Job>, phases: seq<Phase>, i: nat, phase: Phase, k: Key)
    requires |phases| == |jobs| && i < |jobs|
    ensures k != jobs[i].target ==> (k in PendingKeys(jobs, phases[i := phase]) <==> k in PendingKeys(jobs, phases))
    ensures Unfinished(phase) ==> jobs[i].target in PendingKeys(jobs, phases[i := phase])
    ensures !Unfinished(phases[i]) && k in PendingKeys(jobs, phases) ==> k in PendingKeys(jobs, phases[i := phase])
  {
    var after := phases[i := phase];
    assert after[i] == phase;
    if k in PendingKeys(jobs, phases) {
      var n :| 0 <= n < |jobs| && Unfinished(phases[n]) && jobs[n].target == k;
      assert n != i ==> after[n] == phases[n];
    }
    if k in PendingKeys(jobs, after) {
      var n :| 0 <= n < |jobs| && Unfinished(after[n]) && jobs[n].target == k;
      assert n != i ==> after[n] == phases[n];
    }
  }

  lemma SpawnedIsAccounted(how: MoveMethod, t0: Tree, jobs: seq<Job>, t: Tree, phases: seq<Phase>)
    requires Spawned(jobs, phases) && t == t0
    requires forall i :: 0 <= i < |jobs| ==> jobs[i].target != []
    ensures Accounted(how, t0, jobs, t, phases)
  {
    assert LandedKeys(jobs, phases) == {};
    assert MadeKeys(jobs, phases) == {};
  }

  /** A task that has been spawned and has not moved changes no account. */
  lemma SpawnKeepsAccounts(how: MoveMethod, t0: Tree, jobs: seq<Job>, t: Tree, phases: seq<Phase>, job: Job)
    requires Accounted(how, t0, jobs, t, phases) && job.target != []
    ensures Accounted(how, t0, jobs + [job], t, phases + [MakingParents(0)])
  {
    var more, after := jobs + [job], phases + [MakingParents(0)];
    KeysOfSpawn(jobs, phases, job);
    assert forall i :: 0 <= i < |more| && after[i].Finished? ==>
             i < |jobs| && more[i] == jobs[i] && after[i] == phases[i];
    forall i | 0 <= i < |more| && after[i].Finished? && more[i].target !in PendingKeys(more, after)
      ensures Delivered(t0, more[i], t)
    {
      assert phases[i].Finished? && jobs[i].target !in PendingKeys(jobs, phases);
    }
  }

  lemma KeysOfSpawn(jobs: seq<Job>, phases: seq<Phase>, job: Job)
    requires WellFormedPhases(jobs, phases) && job.target != []
    ensures WellFormedPhases(jobs + [job], phases + [MakingParents(0)])
    ensures LandedKeys(jobs + [job], phases + [MakingParents(0)]) == LandedKeys(jobs, phases)
    ensures PendingKeys(jobs + [job], phases + [MakingParents(0)]) == PendingKeys(jobs, phases)
    ensures MadeKeys(jobs + [job], phases + [MakingParents(0)]) == MadeKeys(jobs, phases)
  {
    var more, after := jobs + [job], phases + [MakingParents(0)];
    assert forall k :: 0 <= k < |jobs| ==> more[k] == jobs[k] && after[k] == phases[k];
    forall j | j in MadeKeys(more, after)
      ensures j in MadeKeys(jobs, phases)
    {
      var k :| 0 <= k < |more| && j in LevelsAbove(more[k], after[k]);
      assert k < |jobs| && more[k] == jobs[k] && after[k] == phases[k];
    }
    forall j | j in MadeKeys(jobs, phases)
      ensures j in MadeKeys(more, after)
    {
      var k :| 0 <= k < |jobs| && j in LevelsAbove(jobs[k], phases[k]);
      assert more[k] == jobs[k] && after[k] == phases[k];
    }
    TouchedOfSpawn(jobs, phases, job);
  }

  lemma TouchedOfSpawn(jobs: seq<Job>, phases: seq<Phase>, job: Job)
    requires |phases| == |jobs|
    ensures LandedKeys(jobs + [job], phases + [MakingParents(0)]) == LandedKeys(jobs, phases)
    ensures PendingKeys(jobs + [job], phases + [MakingParents(0)]) == PendingKeys(jobs, phases)
  {
    var more, after := jobs + [job], phases + [MakingParents(0)];
    forall j | j in LandedKeys(jobs, phases)
      ensures j in LandedKeys(more, after)
    {
      var k :| 0 <= k < |jobs| && Touched(phases[k]) && jobs[k].target == j;
      assert more[k] == jobs[k] && after[k] == phases[k];
    }
    forall j | j in PendingKeys(jobs, phases)
      ensures j in PendingKeys(more, after)
    {
      var k :| 0 <= k < |jobs| && Unfinished(phases[k]) && jobs[k].target == j;
      assert more[k] == jobs[k] && after[k] == phases[k];
    }
  }

  lemma OneLevelMore(job: Job, made: nat, phase': Phase)
    requires WellPhased(job, MakingParents(made)) && WellPhased(job, phase') && Depth(job, phase') == made + 1
    ensures LevelsAbove(job, phase') == LevelsAbove(job, MakingParents(made)) + {job.target[..made]}
  {
    forall j | j in LevelsAbove(job, phase')
      ensures j in LevelsAbove(job, MakingParents(made)) + {job.target[..made]}
    {
      assert |j| == made ==> j == job.target[..made];
    }
  }

  /** An action that leaves the files alone and finishes nothing keeps what has been delivered. */
  lemma QuietKeepsDeliveries(t0: Tree, jobs: seq<Job>, t: Tree, phases: seq<Phase>, i: nat, t': Tree, phase': Phase)
    requires |phases| == |jobs| && AllDelivered(t0, jobs, t, phases) && i < |jobs|
    requires !Unfinished(phases[i]) && !phase'.Finished?
    requires forall k :: IsFile(t, k) ==> k in t' && t'[k] == t[k]
    ensures AllDelivered(t0, jobs, t', phases[i := phase'])
  {
    forall n | 0 <= n < |jobs| && phases[i := phase'][n].Finished?
               && jobs[n].target !in PendingKeys(jobs, phases[i := phase'])
      ensures Delivered(t0, jobs[n], t')
    {
      PendingKeysOfChange(jobs, phases, i, phase', jobs[n].target);
      assert n != i && Delivered(t0, jobs[n], t);
    }
  }

  lemma ChangeIsWellFormed(how: MoveMethod, jobs: seq<Job>, phases: seq<Phase>, i: nat, phase': Phase)
    requires WellFormedPhases(jobs, phases) && i < |jobs| && WellPhased(jobs[i], phase')
    ensures WellFormedPhases(jobs, phases[i := phase'])
    ensures LinkedApart(how, jobs, phases) && !phase'.Finished? ==> LinkedApart(how, jobs, phases[i := phase'])
  {
  }

  predicate LevelStep(jobs: seq<Job>, t: Tree, phases: seq<Phase>, i: nat, t': Tree, phase': Phase) {
    && WellFormedPhases(jobs, phases) && i < |jobs| && phases[i].MakingParents?
    && MakesDir(t, jobs[i].target[..phases[i].made], t')
    && phase' == NextLevel(jobs[i], phases[i].made)
  }

  lemma LevelKeepsNodes(t0: Tree, jobs: seq<Job>, t: Tree, phases: seq<Phase>, i: nat, t': Tree, phase': Phase)
    requires LevelStep(jobs, t, phases, i, t', phase')
    requires Accounts(t0, LandedKeys(jobs, phases), MadeKeys(jobs, phases), t)
    ensures WellFormedPhases(jobs, phases[i := phase'])
    ensures Accounts(t0, LandedKeys(jobs, phases[i := phase']), MadeKeys(jobs, phases[i := phase']), t')
  {
    var k := jobs[i].target[..phases[i].made];
    KeysOfLevel(jobs, phases, i, phase');
    LevelAccounts(t0, LandedKeys(jobs, phases), MadeKeys(jobs, phases), t, k, t');
  }

  lemma LevelKeepsRest(how: MoveMethod, t0: Tree, jobs: seq<Job>, t: Tree, phases: seq<Phase>, i: nat, t': Tree,
                       phase': Phase)
    requires LevelStep(jobs, t, phases, i, t', phase')
    requires AllDelivered(t0, jobs, t, phases) && LinkedApart(how, jobs, phases)
    ensures AllDelivered(t0, jobs, t', phases[i := phase'])
    ensures LinkedApart(how, jobs, phases[i := phase'])
  {
    QuietKeepsDeliveries(t0, jobs, t, phases, i, t', phase');
  }

  lemma KeysOfLevel(jobs: seq<Job>, phases: seq<Phase>, i: nat, phase': Phase)
    requires WellFormedPhases(jobs, phases) && i < |jobs| && phases[i].MakingParents?
    requires phase' == NextLevel(jobs[i], phases[i].made)
    ensures WellFormedPhases(jobs, phases[i := phase'])
    ensures MadeKeys(jobs, phases[i := phase']) == MadeKeys(jobs, phases) + {jobs[i].target[..phases[i].made]}
    ensures LandedKeys(jobs, phases[i := phase']) == LandedKeys(jobs, phases)
  {
    OneLevelMore(jobs[i], phases[i].made, phase');
    MadeKeysOfChange(jobs, phases, i, phase', {jobs[i].target[..phases[i].made]});
    NothingLands(jobs, phases, i, phase');
  }

  lemma NothingLands(jobs: seq<Job>, phases: seq<Phase>, i: nat, phase': Phase)
    requires |phases| == |jobs| && i < |jobs| && !Touched(phases[i]) && !Touched(phase')
    ensures LandedKeys(jobs, phases[i := phase']) == LandedKeys(jobs, phases)
  {
    LandedKeysOfChange(jobs, phases, i, phase');
  }

  lemma LevelKeepsAccounts(how: MoveMethod, t0: Tree, jobs: seq<Job>, t: Tree, phases: seq<Phase>, i: nat, t': Tree,
                           phase': Phase)
    requires Accounted(how, t0, jobs, t, phases) && LevelStep(jobs, t, phases, i, t', phase')
    ensures Accounted(how, t0, jobs, t', phases[i := phase'])
  {
    LevelKeepsNodes(t0, jobs, t, phases, i, t', phase');
    LevelKeepsRest(how, t0, jobs, t, phases, i, t', phase');
  }

  /** A step to another phase of the same depth, with nothing written. */
  lemma PauseKeepsAccounts(how: MoveMethod, t0: Tree, jobs: seq<Job>, t: Tree, phases: seq<Phase>, i: nat,
                           phase': Phase)
    requires Accounted(how, t0, jobs, t, phases) && i < |jobs|
    requires Running(phases[i]) && !Touched(phases[i]) && !Touched(phase') && WellPhased(jobs[i], phase')
    requires Depth(jobs[i], phase') == Depth(jobs[i], phases[i])
    ensures Accounted(how, t0, jobs, t, phases[i := phase'])
  {
    ChangeIsWellFormed(how, jobs, phases, i, phase');
    assert LevelsAbove(jobs[i], phase') == LevelsAbove(jobs[i], phases[i]) + {};
    MadeKeysOfChange(jobs, phases, i, phase', {});
    LandedKeysOfChange(jobs, phases, i, phase');
    assert LandedKeys(jobs, phases) + {} == LandedKeys(jobs, phases);
    assert MadeKeys(jobs, phases) + {} == MadeKeys(jobs, phases);
    QuietKeepsDeliveries(t0, jobs, t, phases, i, t, phase');
  }

  /** No source is a target, so a source still holds in a reachable tree what it held in the beginning. */
  lemma SourceIsOriginal(how: MoveMethod, t0: Tree, jobs: seq<Job>, t: Tree, phases: seq<Phase>, i: nat)
    requires Accounted(how, t0, jobs, t, phases) && SourcesApart(JobSet(jobs)) && i < |jobs|
    requires IsFile(t, jobs[i].source)
    ensures IsFile(t0, jobs[i].source) && t[jobs[i].source] == t0[jobs[i].source]
  {
    var source := jobs[i].source;
    assert jobs[i] in JobSet(jobs);
    assert forall k :: 0 <= k < |jobs| ==> jobs[k] in JobSet(jobs) && jobs[k].target != source;
    assert source !in LandedKeys(jobs, phases);
  }

  /** What any writing at a target does to the accounts, as long as nothing else changes. */
  lemma WriteKeepsKeys(how: MoveMethod, t0: Tree, jobs: seq<Job>, t: Tree, phases: seq<Phase>, i: nat, node: Node,
                       phase': Phase)
    requires Accounted(how, t0, jobs, t, phases) && i < |jobs| && Running(phases[i]) && !phases[i].MakingParents?
    requires !IsDir(t, jobs[i].target) && node.File?
    requires Touched(phase') && WellPhased(jobs[i], phase') && Depth(jobs[i], phase') == |jobs[i].target|
    ensures WellFormedPhases(jobs, phases[i := phase'])
    ensures Accounts(t0, LandedKeys(jobs, phases[i := phase']), MadeKeys(jobs, phases[i := phase']),
                     t[jobs[i].target := node])
    ensures !IsDir(t0, jobs[i].target)
  {
    ChangeIsWellFormed(how, jobs, phases, i, phase');
    assert LevelsAbove(jobs[i], phase') == LevelsAbove(jobs[i], phases[i]) + {};
    MadeKeysOfChange(jobs, phases, i, phase', {});
    LandedKeysOfChange(jobs, phases, i, phase');
    assert MadeKeys(jobs, phases) + {} == MadeKeys(jobs, phases);
    TransferAccounts(t0, LandedKeys(jobs, phases), MadeKeys(jobs, phases), t, jobs[i].target, node);
    assert jobs[i].target in LandedKeys(jobs, phases[i := phase']);
  }

  /** A copy that has opened its target, or has written a part of it, leaves the target pending. */
  lemma PartKeepsAccounts(how: MoveMethod, t0: Tree, jobs: seq<Job>, t: Tree, phases: seq<Phase>, i: nat, t': Tree,
                          phase': Phase)
    requires Accounted(how, t0, jobs, t, phases) && i < |jobs| && Running(phases[i]) && !phases[i].MakingParents?
    requires !IsDir(t, jobs[i].target) && jobs[i].target in t' && t'[jobs[i].target].File?
    requires t' == t[jobs[i].target := t'[jobs[i].target]]
    requires Unfinished(phase') && WellPhased(jobs[i], phase') && Depth(jobs[i], phase') == |jobs[i].target|
    ensures Accounted(how, t0, jobs, t', phases[i := phase'])
  {
    WriteKeepsKeys(how, t0, jobs, t, phases, i, t'[jobs[i].target], phase');
    ChangeIsWellFormed(how, jobs, phases, i, phase');
    forall n | 0 <= n < |jobs| && phases[i := phase'][n].Finished?
               && jobs[n].target !in PendingKeys(jobs, phases[i := phase'])
      ensures Delivered(t0, jobs[n], t')
    {
      PendingKeysOfChange(jobs, phases, i, phase', jobs[n].target);
      assert jobs[n].target != jobs[i].target && Delivered(t0, jobs[n], t);
    }
  }

  /** Tasks that have finished with the same target have delivered the same. */
  ghost predicate SharersAgree(jobs: seq<Job>, phases: seq<Phase>, i: nat)
    requires |phases| == |jobs| && i < |jobs|
  {
    forall n :: 0 <= n < |jobs| && phases[n].Finished? && jobs[n].target == jobs[i].target ==>
      jobs[n].source == jobs[i].source
  }

  lemma DeliveryKeepsDeliveries(t0: Tree, jobs: seq<Job>, t: Tree, phases: seq<Phase>, i: nat)
    requires |phases| == |jobs| && AllDelivered(t0, jobs, t, phases) && i < |jobs|
    requires SharersAgree(jobs, phases, i) && IsFile(t0, jobs[i].source) && !IsDir(t0, jobs[i].target)
    ensures AllDelivered(t0, jobs, t[jobs[i].target := t0[jobs[i].source]], phases[i := Finished])
  {
    var t' := t[jobs[i].target := t0[jobs[i].source]];
    forall n | 0 <= n < |jobs| && phases[i := Finished][n].Finished?
               && jobs[n].target !in PendingKeys(jobs, phases[i := Finished])
      ensures Delivered(t0, jobs[n], t')
    {
      PendingKeysOfChange(jobs, phases, i, Finished, jobs[n].target);
      if jobs[n].target != jobs[i].target {
        assert n != i && Delivered(t0, jobs[n], t);
      } else {
        assert n != i ==> phases[n].Finished?;
      }
    }
  }

  /** The content of the source arrives at the target. */
  lemma DeliveryKeepsAccounts(how: MoveMethod, t0: Tree, jobs: seq<Job>, t: Tree, phases: seq<Phase>, i: nat, t': Tree)
    requires Accounted(how, t0, jobs, t, phases) && SourcesApart(JobSet(jobs)) && i < |jobs|
    requires Running(phases[i]) && !phases[i].MakingParents? && SharersAgree(jobs, phases, i)
    requires IsFile(t, jobs[i].source) && !IsDir(t, jobs[i].target)
    requires t' == t[jobs[i].target := t[jobs[i].source]]
    requires LinkedApart(how, jobs, phases[i := Finished])
    ensures Accounted(how, t0, jobs, t', phases[i := Finished])
  {
    SourceIsOriginal(how, t0, jobs, t, phases, i);
    WriteKeepsKeys(how, t0, jobs, t, phases, i, t[jobs[i].source], Finished);
    DeliveryKeepsDeliveries(t0, jobs, t, phases, i);
  }

  /** A file at the target of a link would have stopped it. */
  lemma LinkIsFirst(how: MoveMethod, t0: Tree, jobs: seq<Job>, t: Tree, phases: seq<Phase>, i: nat)
    requires Accounted(how, t0, jobs, t, phases) && i < |jobs| && jobs[i].target !in t
    ensures SharersAgree(jobs, phases, i) && LinkedApart(how, jobs, phases[i := Finished])
  {
    forall n | 0 <= n < |jobs| && phases[n].Finished?
      ensures jobs[n].target != jobs[i].target
    {
      assert jobs[n].target in LandedKeys(jobs, phases);
    }
  }

  lemma CopiersAgree(how: MoveMethod, jobs: seq<Job>, phases: seq<Phase>, i: nat)
    requires |phases| == |jobs| && i < |jobs| && Running(phases[i]) && RaceFree(how, jobs) && how != ByHardLink
    ensures SharersAgree(jobs, phases, i) && LinkedApart(how, jobs, phases[i := Finished])
  {
    forall n | 0 <= n < |jobs| && phases[n].Finished? && jobs[n].target == jobs[i].target
      ensures jobs[n].source == jobs[i].source
    {
      assert jobs[n] in JobSet(jobs) && jobs[i] in JobSet(jobs);
    }
  }

  predicate CopyStep(job: Job, d: Disk, d': Disk, phase': Phase) {
    || Opens(job, d, d', phase') || Fills(job, d, d', phase')
    || (phase' == Failed(|job.target|, true) && WritesPart(job, d, d'))
  }

  lemma CopyWritesTarget(how: MoveMethod, d0: Disk, jobs: seq<Job>, s: State, i: nat, d': Disk, phase': Phase)
    requires NamesAccounted(how, d0, jobs, s) && TargetsOwned(d0, jobs) && i < |jobs| && Running(s.phases[i])
    requires how == ByCopy || (how == ByHardLinkWithCopyFallback && RaceFree(how, jobs))
    requires CopyStep(jobs[i], s.disk, d', phase')
    ensures !IsDir(s.disk.tree, jobs[i].target) && IsFile(d'.tree, jobs[i].target)
    ensures d'.tree == s.disk.tree[jobs[i].target := d'.tree[jobs[i].target]]
    ensures phase'.Finished? ==>
              IsFile(s.disk.tree, jobs[i].source) && d'.tree[jobs[i].target] == s.disk.tree[jobs[i].source]
  {
    var target := jobs[i].target;
    WrittenIsSole(how, d0, jobs, s, i);
    if Opens(jobs[i], s.disk, d', phase') {
      OpenSole(s.disk, target);
    } else {
      WriteToSole(s.disk, target, d'.tree[target].content);
    }
  }

  lemma CopyStepKeepsAccounts(how: MoveMethod, d0: Disk, jobs: seq<Job>, s: State, i: nat, d': Disk, phase': Phase)
    requires Accounted(how, d0.tree, jobs, s.disk.tree, s.phases)
    requires NamesAccounted(how, d0, jobs, s) && TargetsOwned(d0, jobs)
    requires RaceFree(how, jobs) && how != ByHardLink && i < |jobs| && Running(s.phases[i])
    requires !s.phases[i].MakingParents? && WellPhased(jobs[i], phase')
    requires CopyStep(jobs[i], s.disk, d', phase')
    ensures Accounted(how, d0.tree, jobs, d'.tree, s.phases[i := phase'])
  {
    CopyWritesTarget(how, d0, jobs, s, i, d', phase');
    if phase'.Finished? {
      CopiersAgree(how, jobs, s.phases, i);
      DeliveryKeepsAccounts(how, d0.tree, jobs, s.disk.tree, s.phases, i, d'.tree);
    } else {
      PartKeepsAccounts(how, d0.tree, jobs, s.disk.tree, s.phases, i, d'.tree, phase');
    }
  }

  /** The actions up to the transfer, and failures that write nothing. */
  lemma EarlyStepKeepsAccounts(how: MoveMethod, t0: Tree, jobs: seq<Job>, s: State, i: nat, s': State)
    requires Accounted(how, t0, jobs, s.disk.tree, s.phases) && TaskStep(how, jobs, s, i, s')
    requires !Touched(s.phases[i]) && !Touched(s'.phases[i])
    ensures Accounted(how, t0, jobs, s'.disk.tree, s'.phases)
  {
    var phase' := s'.phases[i];
    EarlyStep(how, jobs, s, i, s');
    if phase'.Failed? || phase'.FallingBack? {
      PauseKeepsAccounts(how, t0, jobs, s.disk.tree, s.phases, i, phase');
    } else {
      LevelKeepsAccounts(how, t0, jobs, s.disk.tree, s.phases, i, s'.disk.tree, phase');
    }
  }

  lemma EarlyStep(how: MoveMethod, jobs: seq<Job>, s: State, i: nat, s': State)
    requires WellFormedPhases(jobs, s.phases) && TaskStep(how, jobs, s, i, s')
    requires !Touched(s.phases[i]) && !Touched(s'.phases[i])
    ensures Running(s.phases[i]) && WellPhased(jobs[i], s'.phases[i])
    ensures if s'.phases[i].Failed? || s'.phases[i].FallingBack? then
              s'.disk == s.disk && Depth(jobs[i], s'.phases[i]) == Depth(jobs[i], s.phases[i])
            else LevelStep(jobs, s.disk.tree, s.phases, i, s'.disk.tree, s'.phases[i])
  {
  }

  lemma LinkStepKeepsAccounts(how: MoveMethod, t0: Tree, jobs: seq<Job>, s: State, i: nat, d': Disk)
    requires Accounted(how, t0, jobs, s.disk.tree, s.phases) && SourcesApart(JobSet(jobs)) && i < |jobs|
    requires s.phases[i].Transferring? && Links(jobs[i], s.disk, d', Finished)
    ensures Accounted(how, t0, jobs, d'.tree, s.phases[i := Finished])
  {
    LinkIsFirst(how, t0, jobs, s.disk.tree, s.phases, i);
    DeliveryKeepsAccounts(how, t0, jobs, s.disk.tree, s.phases, i, d'.tree);
  }

  lemma FailedFillKeepsAccounts(how: MoveMethod, t0: Tree, jobs: seq<Job>, t: Tree, phases: seq<Phase>, i: nat,
                                phase': Phase)
    requires Accounted(how, t0, jobs, t, phases) && i < |jobs| && phases[i].Filling?
    requires phase' == Failed(|jobs[i].target|, true)
    ensures Accounted(how, t0, jobs, t, phases[i := phase'])
  {
    assert jobs[i].target in LandedKeys(jobs, phases);
    PartKeepsAccounts(how, t0, jobs, t, phases, i, t, phase');
  }

  lemma StepKeepsAccounts(how: MoveMethod, d0: Disk, jobs: seq<Job>, s: State, i: nat, s': State)
    requires Accounted(how, d0.tree, jobs, s.disk.tree, s.phases)
    requires NamesAccounted(how, d0, jobs, s) && TargetsOwned(d0, jobs)
    requires RaceFree(how, jobs) && TaskStep(how, jobs, s, i, s')
    ensures Accounted(how, d0.tree, jobs, s'.disk.tree, s'.phases)
  {
    var phase, phase' := s.phases[i], s'.phases[i];
    assert s' == State(s'.disk, s.phases[i := phase']) && Fits(how, phase);
    if !Touched(phase) && !Touched(phase') {
      EarlyStepKeepsAccounts(how, d0.tree, jobs, s, i, s');
    } else if phase.Transferring? && phase'.Finished? {
      LinkStepKeepsAccounts(how, d0.tree, jobs, s, i, s'.disk);
    } else if phase'.Failed? && s'.disk == s.disk {
      FailedFillKeepsAccounts(how, d0.tree, jobs, s.disk.tree, s.phases, i, phase');
    } else {
      CopyStepKeepsAccounts(how, d0, jobs, s, i, s'.disk, phase');
    }
  }

  lemma ShorterRun(how: MoveMethod, jobs: seq<Job>, trace: seq<State>)
    requires Run(how, jobs, trace) && |trace| > 1
    ensures Run(how, jobs, trace[..|trace| - 1])
    ensures SomeStep(how, jobs, trace[|trace| - 2], trace[|trace| - 1])
  {
    var shorter := trace[..|trace| - 1];
    forall k | 0 <= k < |shorter| - 1
      ensures SomeStep(how, jobs, shorter[k], shorter[k + 1])
    {
      assert SomeStep(how, jobs, trace[k], trace[k + 1]);
    }
    var last := |trace| - 2;
    assert SomeStep(how, jobs, trace[last], trace[last + 1]);
  }

  lemma {:induction false} RunIsAccounted(how: MoveMethod, d0: Disk, jobs: seq<Job>, trace: seq<State>)
    requires Run(how, jobs, trace) && RaceFree(how, jobs) && TargetsOwned(d0, jobs)
    requires Accounted(how, d0.tree, jobs, trace[0].disk.tree, trace[0].phases)
    requires NamesAccounted(how, d0, jobs, trace[0])
    ensures Accounted(how, d0.tree, jobs, trace[|trace| - 1].disk.tree, trace[|trace| - 1].phases)
    ensures NamesAccounted(how, d0, jobs, trace[|trace| - 1])
  {
    if |trace| == 1 {
    } else {
      ShorterRun(how, jobs, trace);
      RunIsAccounted(how, d0, jobs, trace[..|trace| - 1]);
      var s, s' := trace[|trace| - 2], trace[|trace| - 1];
      var i: nat :| TaskStep(how, jobs, s, i, s');
      StepKeepsNames(how, d0, jobs, s, i, s');
      StepKeepsAccounts(how, d0, jobs, s, i, s');
    }
  }

  // ---------------------------------------------------------------- the sequential loop

  predicate CanStageOne(t: Tree, job: Job) {
    && job.target != []
    && CanMkdirAll(t, Up(job.target))
    && CanCopy(MkdirAll(t, Up(job.target)), job.source, job.target)
  }

  function StageOne(t: Tree, job: Job): Tree
    requires CanStageOne(t, job)
  {
    Copy(MkdirAll(t, Up(job.target)), job.source, job.target)
  }

  /** One resource after the other, by copying; nothing when one of them cannot be staged. */
  function StageAll(t: Tree, jobs: seq<Job>): Option<Tree> {
    if jobs == [] then Some(t)
    else
      var n := |jobs| - 1;
      match StageAll(t, jobs[..n])
      case None => None
      case Some(u) => if CanStageOne(u, jobs[n]) then Some(StageOne(u, jobs[n])) else None
  }

  // ---------------------------------------------------------------- all schedules agree with the loop

  predicate Above(j: Key, k: Key) {
    j <= k && j != k
  }

  ghost predicate AboveSomeTarget(jobs: set<Job>, j: Key) {
    exists job :: job in jobs && Above(j, job.target)
  }

  /**
   * The outcome of staging: every target holds what its source held, the levels above the targets are directories,
   * and nothing else has changed.
   */
  ghost predicate Staged(t0: Tree, jobs: set<Job>, t: Tree) {
    && (forall job :: job in jobs ==> Delivered(t0, job, t))
    && (forall job, j :: job in jobs && Above(j, job.target) ==> IsDir(t, j))
    && (forall j :: j in t0 ==> j in t)
    && (forall j :: j in t && !IsTarget(jobs, j) ==>
          if j in t0 then t[j] == t0[j] else t[j].Dir? && AboveSomeTarget(jobs, j))
  }

  lemma FinishedIsStaged(how: MoveMethod, t0: Tree, jobs: seq<Job>, t: Tree, phases: seq<Phase>)
    requires Accounted(how, t0, jobs, t, phases) && AllFinished(phases)
    ensures Staged(t0, JobSet(jobs), t)
  {
    assert PendingKeys(jobs, phases) == {};
    forall job | job in JobSet(jobs)
      ensures Delivered(t0, job, t)
    {
      var i :| 0 <= i < |jobs| && jobs[i] == job;
      assert phases[i].Finished?;
    }
    forall job, j | job in JobSet(jobs) && Above(j, job.target)
      ensures IsDir(t, j)
    {
      var i :| 0 <= i < |jobs| && jobs[i] == job;
      assert j in LevelsAbove(jobs[i], phases[i]);
    }
    forall j | j in t && !IsTarget(JobSet(jobs), j)
      ensures j !in LandedKeys(jobs, phases)
      ensures j in MadeKeys(jobs, phases) ==> AboveSomeTarget(JobSet(jobs), j)
    {
      OtherNodes(jobs, phases, j);
    }
  }

  lemma OtherNodes(jobs: seq<Job>, phases: seq<Phase>, j: Key)
    requires WellFormedPhases(jobs, phases) && AllFinished(phases) && !IsTarget(JobSet(jobs), j)
    ensures j !in LandedKeys(jobs, phases)
    ensures j in MadeKeys(jobs, phases) ==> AboveSomeTarget(JobSet(jobs), j)
  {
    assert forall k :: 0 <= k < |jobs| ==> jobs[k] in JobSet(jobs);
    if j in MadeKeys(jobs, phases) {
      var k :| 0 <= k < |jobs| && j in LevelsAbove(jobs[k], phases[k]);
      assert jobs[k] in JobSet(jobs) && Above(j, jobs[k].target);
    }
  }

  /** The outcome is a function of the starting tree and the jobs. */
  lemma StagedIsUnique(t0: Tree, jobs: set<Job>, t: Tree, u: Tree)
    requires Staged(t0, jobs, t) && Staged(t0, jobs, u)
    ensures t == u
  {
    StagedIsIncluded(t0, jobs, t, u);
    StagedIsIncluded(t0, jobs, u, t);
  }

  lemma StagedIsIncluded(t0: Tree, jobs: set<Job>, t: Tree, u: Tree)
    requires Staged(t0, jobs, t) && Staged(t0, jobs, u)
    ensures forall j :: j in t ==> j in u && u[j] == t[j]
  {
    forall j | j in t
      ensures j in u && u[j] == t[j]
    {
      if IsTarget(jobs, j) {
        var job :| job in jobs && job.target == j;
        assert Delivered(t0, job, t) && Delivered(t0, job, u);
      } else if j !in t0 {
        var job :| job in jobs && Above(j, job.target);
        assert IsDir(u, j);
      }
    }
  }

  lemma TargetBehindSchedule(t0: Tree, jobs: set<Job>, t: Tree, done: set<Job>, u: Tree, j: Key)
    requires Staged(t0, jobs, t) && Staged(t0, done, u) && done <= jobs && IsTarget(done, j)
    ensures j in t && j in u && u[j].File? && t[j].File?
  {
    var job :| job in done && job.target == j;
    assert Delivered(t0, job, u) && Delivered(t0, job, t);
  }

  lemma NewDirBehindSchedule(t0: Tree, jobs: set<Job>, t: Tree, done: set<Job>, u: Tree, j: Key)
    requires Staged(t0, jobs, t) && Staged(t0, done, u) && done <= jobs
    requires j in u && j !in t0 && !IsTarget(done, j)
    ensures IsDir(u, j) && IsDir(t, j)
  {
    var job :| job in done && Above(j, job.target);
    assert job in jobs && Above(j, job.target);
  }

  lemma OldNodeBehindSchedule(t0: Tree, jobs: set<Job>, t: Tree, j: Key)
    requires Staged(t0, jobs, t) && j in t0
    ensures j in t && (t0[j].Dir? <==> t[j].Dir?)
  {
    if IsTarget(jobs, j) {
      var job :| job in jobs && job.target == j;
      assert Delivered(t0, job, t);
    }
  }

  /** A node the loop has made so far is of the kind the whole schedule leaves there. */
  lemma LoopBehindSchedule(t0: Tree, jobs: set<Job>, t: Tree, done: set<Job>, u: Tree, j: Key)
    requires Staged(t0, jobs, t) && Staged(t0, done, u) && done <= jobs && j in u
    ensures j in t && (u[j].Dir? <==> t[j].Dir?)
  {
    if IsTarget(done, j) {
      TargetBehindSchedule(t0, jobs, t, done, u, j);
    } else if j !in t0 {
      NewDirBehindSchedule(t0, jobs, t, done, u, j);
    } else {
      OldNodeBehindSchedule(t0, jobs, t, j);
    }
  }

  lemma SourceUntouched(t0: Tree, jobs: set<Job>, done: set<Job>, u: Tree, job: Job)
    requires Independent(jobs) && done <= jobs && job in jobs
    requires Staged(t0, done, u) && IsFile(t0, job.source)
    ensures IsFile(u, job.source) && u[job.source] == t0[job.source]
  {
    assert !IsTarget(done, job.source);
  }

  lemma LoopFindsRoom(t0: Tree, jobs: set<Job>, t: Tree, done: set<Job>, u: Tree, job: Job)
    requires Staged(t0, jobs, t) && done <= jobs && job in jobs && Staged(t0, done, u) && job.target != []
    ensures CanMkdirAll(u, Up(job.target)) && !IsDir(u, job.target)
  {
    forall j | j in u && j <= Up(job.target)
      ensures u[j].Dir?
    {
      assert Above(j, job.target) && IsDir(t, j);
      LoopBehindSchedule(t0, jobs, t, done, u, j);
    }
    assert Delivered(t0, job, t);
    if job.target in u {
      LoopBehindSchedule(t0, jobs, t, done, u, job.target);
    }
  }

  lemma StageOneWrites(t0: Tree, u: Tree, job: Job)
    requires job.target != [] && CanMkdirAll(u, Up(job.target)) && !IsDir(u, job.target)
    requires IsFile(t0, job.source) && IsFile(u, job.source) && u[job.source] == t0[job.source]
    requires job.source != job.target
    ensures CanStageOne(u, job)
    ensures StageOne(u, job) == MkdirAll(u, Up(job.target))[job.target := t0[job.source]]
  {
    assert !(job.target <= Up(job.target));
  }

  /** With some resources staged by the loop and some schedule known to succeed, the next one can be staged. */
  lemma LoopCanContinue(t0: Tree, jobs: set<Job>, t: Tree, done: set<Job>, u: Tree, job: Job)
    requires Staged(t0, jobs, t) && Independent(jobs) && done <= jobs && job in jobs
    requires Staged(t0, done, u) && job.target != []
    ensures IsFile(t0, job.source) && CanStageOne(u, job)
    ensures StageOne(u, job) == MkdirAll(u, Up(job.target))[job.target := t0[job.source]]
  {
    assert Delivered(t0, job, t);
    LoopFindsRoom(t0, jobs, t, done, u, job);
    SourceUntouched(t0, jobs, done, u, job);
    StageOneWrites(t0, u, job);
  }

  lemma LoopDelivers(t0: Tree, jobs: set<Job>, t: Tree, done: set<Job>, u: Tree, job: Job, a: Job)
    requires Staged(t0, jobs, t) && Independent(jobs) && done + {job} <= jobs
    requires Staged(t0, done, u) && job.target != [] && a in done + {job}
    ensures CanStageOne(u, job) && Delivered(t0, a, StageOne(u, job))
  {
    LoopCanContinue(t0, jobs, t, done, u, job);
    assert Delivered(t0, a, t) && Delivered(t0, job, t);
    if a.target != job.target {
      assert Delivered(t0, a, u);
    }
  }

  lemma LoopKeepsDirs(t0: Tree, jobs: set<Job>, t: Tree, done: set<Job>, u: Tree, job: Job, a: Job, j: Key)
    requires Staged(t0, jobs, t) && Independent(jobs) && done + {job} <= jobs
    requires Staged(t0, done, u) && job.target != [] && a in done + {job} && Above(j, a.target)
    ensures CanStageOne(u, job) && IsDir(StageOne(u, job), j)
  {
    LoopCanContinue(t0, jobs, t, done, u, job);
    if a in done {
      DirIsNoTarget(t0, jobs, t, job, a, j);
      assert IsDir(u, j);
    } else {
      assert j <= Up(job.target);
    }
  }

  lemma DirIsNoTarget(t0: Tree, jobs: set<Job>, t: Tree, job: Job, a: Job, j: Key)
    requires Staged(t0, jobs, t) && job in jobs && a in jobs && Above(j, a.target)
    ensures j != job.target
  {
    assert IsDir(t, j) && Delivered(t0, job, t);
  }

  lemma LoopStagesOneMore(t0: Tree, jobs: set<Job>, t: Tree, done: set<Job>, u: Tree, job: Job)
    requires Staged(t0, jobs, t) && Independent(jobs) && done + {job} <= jobs
    requires Staged(t0, done, u) && job.target != []
    ensures CanStageOne(u, job) && Staged(t0, done + {job}, StageOne(u, job))
  {
    LoopCanContinue(t0, jobs, t, done, u, job);
    var v := StageOne(u, job);
    forall a | a in done + {job}
      ensures Delivered(t0, a, v)
    {
      LoopDelivers(t0, jobs, t, done, u, job, a);
    }
    forall a, j | a in done + {job} && Above(j, a.target)
      ensures IsDir(v, j)
    {
      LoopKeepsDirs(t0, jobs, t, done, u, job, a, j);
    }
    forall j | j in v && !IsTarget(done + {job}, j)
      ensures if j in t0 then v[j] == t0[j] else v[j].Dir? && AboveSomeTarget(done + {job}, j)
    {
      OtherTargets(done, job, j);
    }
  }

  lemma OtherTargets(done: set<Job>, job: Job, j: Key)
    requires !IsTarget(done + {job}, j)
    ensures !IsTarget(done, j) && j != job.target
    ensures AboveSomeTarget(done, j) ==> AboveSomeTarget(done + {job}, j)
    ensures job.target != [] && j <= Up(job.target) ==> AboveSomeTarget(done + {job}, j)
  {
    assert job in done + {job};
    assert forall a :: a in done ==> a in done + {job};
    if job.target != [] && j <= Up(job.target) {
      assert Above(j, job.target);
    }
  }

  lemma StageAllOfPrefix(t0: Tree, jobs: seq<Job>, m: nat)
    requires 0 < m <= |jobs| && StageAll(t0, jobs[..m - 1]).Some?
    requires CanStageOne(StageAll(t0, jobs[..m - 1]).value, jobs[m - 1])
    ensures StageAll(t0, jobs[..m]) == Some(StageOne(StageAll(t0, jobs[..m - 1]).value, jobs[m - 1]))
  {
    assert jobs[..m][..m - 1] == jobs[..m - 1];
  }

  lemma PrefixJobs(jobs: seq<Job>, m: nat)
    requires 0 < m <= |jobs|
    ensures JobSet(jobs[..m]) == JobSet(jobs[..m - 1]) + {jobs[m - 1]} <= JobSet(jobs)
  {
    assert jobs[..m] == jobs[..m - 1] + [jobs[m - 1]];
    assert forall job :: job in jobs[..m] ==> job in jobs;
  }

  lemma {:induction false} LoopReachesOutcome(t0: Tree, jobs: seq<Job>, t: Tree, m: nat) returns (u: Tree)
    requires Staged(t0, JobSet(jobs), t) && Independent(JobSet(jobs)) && m <= |jobs|
    requires forall i :: 0 <= i < |jobs| ==> jobs[i].target != []
    ensures StageAll(t0, jobs[..m]) == Some(u) && Staged(t0, JobSet(jobs[..m]), u)
  {
    if m == 0 {
      NothingStaged(t0, jobs[..0]);
      u := t0;
    } else {
      var before := LoopReachesOutcome(t0, jobs, t, m - 1);
      u := LoopGoesOn(t0, jobs, t, m, before);
    }
  }

  lemma LoopGoesOn(t0: Tree, jobs: seq<Job>, t: Tree, m: nat, before: Tree) returns (u: Tree)
    requires Staged(t0, JobSet(jobs), t) && Independent(JobSet(jobs)) && 0 < m <= |jobs| && jobs[m - 1].target != []
    requires StageAll(t0, jobs[..m - 1]) == Some(before) && Staged(t0, JobSet(jobs[..m - 1]), before)
    ensures StageAll(t0, jobs[..m]) == Some(u) && Staged(t0, JobSet(jobs[..m]), u)
  {
    PrefixJobs(jobs, m);
    LoopStagesOneMore(t0, JobSet(jobs), t, JobSet(jobs[..m - 1]), before, jobs[m - 1]);
    StageAllOfPrefix(t0, jobs, m);
    u := StageOne(before, jobs[m - 1]);
  }

  lemma NothingStaged(t0: Tree, jobs: seq<Job>)
    requires jobs == []
    ensures StageAll(t0, jobs) == Some(t0) && Staged(t0, JobSet(jobs), t0)
  {
  }

  /** When all tasks have finished, none of them has disturbed another. */
  lemma FinishedAreIndependent(how: MoveMethod, t0: Tree, jobs: seq<Job>, t: Tree, phases: seq<Phase>)
    requires Accounted(how, t0, jobs, t, phases) && RaceFree(how, jobs) && AllFinished(phases)
    ensures Independent(JobSet(jobs))
  {
    if how == ByHardLink {
      LinkedAreDistinct(how, jobs, phases);
    }
    if how != ByCopy {
      DistinctAreIndependent(jobs);
    }
  }

  lemma LinkedAreDistinct(how: MoveMethod, jobs: seq<Job>, phases: seq<Phase>)
    requires |phases| == |jobs| && LinkedApart(how, jobs, phases) && AllFinished(phases) && how == ByHardLink
    ensures DistinctTargets(jobs)
  {
    forall i, j | 0 <= i < j < |jobs|
      ensures jobs[i].target != jobs[j].target
    {
      assert phases[i].Finished? && phases[j].Finished?;
    }
  }

  lemma DistinctAreIndependent(jobs: seq<Job>)
    requires DistinctTargets(jobs) && SourcesApart(JobSet(jobs))
    ensures Independent(JobSet(jobs))
  {
    forall a, b | a in JobSet(jobs) && b in JobSet(jobs) && a.target == b.target
      ensures a.source == b.source
    {
      var i :| 0 <= i < |jobs| && jobs[i] == a;
      var j :| 0 <= j < |jobs| && jobs[j] == b;
      assert i == j;
    }
  }

  lemma FinishedIsLoop(how: MoveMethod, t0: Tree, jobs: seq<Job>, t: Tree, phases: seq<Phase>)
    requires Accounted(how, t0, jobs, t, phases) && RaceFree(how, jobs) && AllFinished(phases)
    ensures StageAll(t0, jobs) == Some(t) && Staged(t0, JobSet(jobs), t)
  {
    FinishedIsStaged(how, t0, jobs, t, phases);
    FinishedAreIndependent(how, t0, jobs, t, phases);
    assert forall i :: 0 <= i < |jobs| ==> WellPhased(jobs[i], phases[i]);
    var u := LoopReachesOutcome(t0, jobs, t, |jobs|);
    assert jobs[..|jobs|] == jobs;
    StagedIsUnique(t0, JobSet(jobs), t, u);
  }

  /**
   * Whatever the order of the tasks and the links that were refused: a schedule of tasks that do not race, in which
   * every task finishes, leaves exactly the tree of the sequential copying loop, which then succeeds too.
   */
  lemma EverySuccessfulScheduleIsTheLoop(how: MoveMethod, d0: Disk, jobs: seq<Job>, trace: seq<State>)
    requires RaceFree(how, jobs) && TargetsOwned(d0, jobs)
    requires forall i :: 0 <= i < |jobs| ==> jobs[i].target != []
    requires Run(how, jobs, trace) && Spawned(jobs, trace[0].phases) && trace[0].disk == d0
    requires AllFinished(trace[|trace| - 1].phases)
    ensures StageAll(d0.tree, jobs) == Some(trace[|trace| - 1].disk.tree)
    ensures Staged(d0.tree, JobSet(jobs), trace[|trace| - 1].disk.tree)
  {
    SpawnedIsAccounted(how, d0.tree, jobs, trace[0].disk.tree, trace[0].phases);
    SpawnedNames(how, d0, jobs, trace[0]);
    RunIsAccounted(how, d0, jobs, trace);
    FinishedIsLoop(how, d0.tree, jobs, trace[|trace| - 1].disk.tree, trace[|trace| - 1].phases);
  }

  // ---------------------------------------------------------------- work left

  function Rank(job: Job, phase: Phase): nat
    requires WellPhased(job, phase)
  {
    match phase
    case MakingParents(made) => |job.target| - made + 3
    case Transferring => 3
    case FallingBack => 2
    case Filling => 1
    case Finished => 0
    case Failed(_, _) => 0
  }

  /** How many actions the tasks can still take. */
  function Work(jobs: seq<Job>, phases: seq<Phase>): nat
    requires WellFormedPhases(jobs, phases)
  {
    if jobs == [] then 0 else Rank(jobs[0], phases[0]) + Work(jobs[1..], phases[1..])
  }

  lemma {:induction false} WorkDecreases(jobs: seq<Job>, phases: seq<Phase>, i: nat, phase': Phase)
    requires WellFormedPhases(jobs, phases) && i < |jobs| && WellPhased(jobs[i], phase')
    requires Rank(jobs[i], phase') < Rank(jobs[i], phases[i])
    ensures Work(jobs, phases[i := phase']) < Work(jobs, phases)
  {
    var after := phases[i := phase'];
    if i == 0 {
      assert after[1..] == phases[1..];
    } else {
      assert after[1..] == phases[1..][i - 1 := phase'];
      WorkDecreases(jobs[1..], phases[1..], i - 1, phase');
    }
  }

  lemma ActionsUseUpWork(how: MoveMethod, job: Job, d: Disk, phase: Phase, d': Disk, phase': Phase)
    requires WellPhased(job, phase) && Advances(how, job, d, phase, d', phase')
    ensures WellPhased(job, phase') && Rank(job, phase') < Rank(job, phase)
  {
  }

  // ---------------------------------------------------------------- what no schedule touches

  /** The tree has every level down to `root` as a directory, and outside `root` it is the tree `t0`. */
  ghost predicate Framed(t0: Tree, root: Key, t: Tree) {
    && (forall j :: j <= root ==> IsDir(t, j))
    && (forall k :: !(root <= k) ==> SameAt(t0, t, k))
  }

  /** Copies alone and links alone stay where they belong; a copy that may follow a link has to be free of races. */
  predicate StaysBelow(how: MoveMethod, jobs: seq<Job>) {
    how == ByHardLinkWithCopyFallback ==> RaceFree(how, jobs)
  }

  lemma StepWrites(how: MoveMethod, d0: Disk, jobs: seq<Job>, s: State, i: nat, s': State)
    returns (written: Key, node: Node)
    requires WellFormedPhases(jobs, s.phases) && TaskStep(how, jobs, s, i, s') && StaysBelow(how, jobs)
    requires NamesAccounted(how, d0, jobs, s) && TargetsOwned(d0, jobs) && s'.disk != s.disk
    ensures written <= jobs[i].target && s'.disk.tree == s.disk.tree[written := node]
    ensures !IsDir(s.disk.tree, written) && written != []
  {
    var phase := s.phases[i];
    assert Fits(how, phase);
    written := if phase.MakingParents? then jobs[i].target[..phase.made] else jobs[i].target;
    node := if phase.MakingParents? then Dir else s'.disk.tree[jobs[i].target];
    if phase.Filling? || s'.phases[i].Filling? {
      CopyWritesTarget(how, d0, jobs, s, i, s'.disk, s'.phases[i]);
    }
  }

  /** A task whose target is below `root` changes nothing outside `root`. */
  lemma ActionsStayBelow(how: MoveMethod, d0: Disk, jobs: seq<Job>, s: State, i: nat, s': State, t0: Tree, root: Key)
    requires WellFormedPhases(jobs, s.phases) && TaskStep(how, jobs, s, i, s') && StaysBelow(how, jobs)
    requires NamesAccounted(how, d0, jobs, s) && TargetsOwned(d0, jobs)
    requires root <= jobs[i].target && Framed(t0, root, s.disk.tree)
    ensures Framed(t0, root, s'.disk.tree)
  {
    if s'.disk != s.disk {
      var written, node := StepWrites(how, d0, jobs, s, i, s');
      PrefixesCompare(root, written, jobs[i].target);
      assert written <= root ==> IsDir(s.disk.tree, written);
      WriteBelow(t0, root, s.disk.tree, written, node);
    }
  }

  lemma PrefixesCompare(a: Key, b: Key, c: Key)
    requires a <= c && b <= c
    ensures a <= b || b <= a
  {
    assert a == c[..|a|] && b == c[..|b|];
    assert if |a| <= |b| then a == b[..|a|] else b == a[..|b|];
  }

  lemma WriteBelow(t0: Tree, root: Key, t: Tree, written: Key, node: Node)
    requires Framed(t0, root, t) && root <= written && written != root
    ensures Framed(t0, root, t[written := node])
  {
    var u := t[written := node];
    forall j | j <= root
      ensures IsDir(u, j)
    {
      assert IsDir(t, j);
    }
    forall k | !(root <= k)
      ensures SameAt(t0, u, k)
    {
      assert SameAt(t0, t, k);
    }
  }
}
