/**
 The conditions under which staging is free of races are exact: when they fail, some schedule from some tree succeeds
 and ends differently from the loop, and copies that follow links write outside the jail.
 */
module StagingRaces {
  import opened Wrappers
  import opened Filesystem
  import opened Inodes
  import opened Staging

  /** There is room for everything: no source is a target, and none of them lies above another. */
  predicate Stageable(jobs: seq<Job>) {
    forall i, j :: 0 <= i < |jobs| && 0 <= j < |jobs| ==>
      && jobs[i].target != [] && jobs[i].source != []
      && !(jobs[i].source <= jobs[j].target) && !(jobs[j].target <= jobs[i].source)
      && !Above(jobs[i].target, jobs[j].target) && !Above(jobs[i].source, jobs[j].source)
  }

  /** A start in which nothing is unusual: a tree whose files at the targets, if any, have no other names. */
  ghost predicate CleanStart(d0: Disk, jobs: seq<Job>) {
    TargetsOwned(d0, jobs)
  }

  ghost predicate RunFrom(how: MoveMethod, d0: Disk, jobs: seq<Job>, trace: seq<State>) {
    Run(how, jobs, trace) && Spawned(jobs, trace[0].phases) && trace[0].disk == d0
  }

  /** From every clean start, every schedule in which all tasks finish ends in the tree of the loop. */
  ghost predicate AlwaysTheLoop(how: MoveMethod, jobs: seq<Job>) {
    forall d0: Disk, trace: seq<State> ::
      CleanStart(d0, jobs) && RunFrom(how, d0, jobs, trace) && AllFinished(trace[|trace| - 1].phases) ==>
        StageAll(d0.tree, jobs) == Some(trace[|trace| - 1].disk.tree)
  }

  /** From every clean start with the jail at `root`, no schedule changes anything outside of it. */
  ghost predicate AlwaysFramed(how: MoveMethod, jobs: seq<Job>, root: Key) {
    forall d0: Disk, trace: seq<State> ::
      CleanStart(d0, jobs) && Framed(d0.tree, root, d0.tree) && RunFrom(how, d0, jobs, trace) ==>
        Framed(d0.tree, root, trace[|trace| - 1].disk.tree)
  }

  // ---------------------------------------------------------------- reachable states

  ghost predicate Reaches(how: MoveMethod, jobs: seq<Job>, s: State, s': State) {
    exists trace :: Run(how, jobs, trace) && trace[0] == s && trace[|trace| - 1] == s'
  }

  lemma ReachesSelf(how: MoveMethod, jobs: seq<Job>, s: State)
    ensures Reaches(how, jobs, s, s)
  {
    assert Run(how, jobs, [s]);
  }

  lemma ReachesOnward(how: MoveMethod, jobs: seq<Job>, s: State, middle: State, s': State)
    requires Reaches(how, jobs, s, middle) && SomeStep(how, jobs, middle, s')
    ensures Reaches(how, jobs, s, s')
  {
    var trace :| Run(how, jobs, trace) && trace[0] == s && trace[|trace| - 1] == middle;
    var longer := trace + [s'];
    forall k | 0 <= k < |longer| - 1
      ensures SomeStep(how, jobs, longer[k], longer[k + 1])
    {
      if k < |trace| - 1 {
        assert SomeStep(how, jobs, trace[k], trace[k + 1]);
      }
    }
    assert Run(how, jobs, longer) && longer[0] == s && longer[|longer| - 1] == s';
  }

  lemma StepIsSome(how: MoveMethod, jobs: seq<Job>, s: State, i: nat, s': State)
    requires WellFormedPhases(jobs, s.phases) && TaskStep(how, jobs, s, i, s')
    ensures SomeStep(how, jobs, s, s')
  {
  }

  // ---------------------------------------------------------------- finishing one task

  /** Every task can be carried through: its levels are there, its source is a file and its target can be one. */
  ghost predicate Ready(jobs: seq<Job>, t: Tree) {
    && (forall i, j :: 0 <= i < |jobs| && Above(j, jobs[i].target) ==> IsDir(t, j))
    && (forall i :: 0 <= i < |jobs| ==> IsFile(t, jobs[i].source) && !IsDir(t, jobs[i].target))
  }

  lemma {:induction false} MakesItsLevels(how: MoveMethod, jobs: seq<Job>, begin: State, s: State, i: nat, made: nat)
    requires WellFormedPhases(jobs, s.phases) && i < |jobs| && s.phases[i] == MakingParents(made)
    requires Ready(jobs, s.disk.tree) && Reaches(how, jobs, begin, s)
    ensures Reaches(how, jobs, begin, State(s.disk, s.phases[i := Transferring]))
    decreases |jobs[i].target| - made
  {
    var phase' := NextLevel(jobs[i], made);
    var s' := State(s.disk, s.phases[i := phase']);
    assert Above(jobs[i].target[..made], jobs[i].target);
    StepIsSome(how, jobs, s, i, s');
    ReachesOnward(how, jobs, begin, s, s');
    if phase'.MakingParents? {
      MakesItsLevels(how, jobs, begin, s', i, made + 1);
      assert s'.phases[i := Transferring] == s.phases[i := Transferring];
    }
  }

  /** What a finished copy leaves: the content of the source, or nothing if the target is the source. */
  function Copied(d: Disk, source: Key, target: Key): Disk
    requires CanCopy(d.tree, source, target)
  {
    var opened' := Open(d, target);
    Write(opened', target, opened'.tree[source].content)
  }

  /** The disk after the task has run to its end without interruption, linking where it can. */
  function Done(how: MoveMethod, d: Disk, job: Job): Disk
    requires CanCopy(d.tree, job.source, job.target)
  {
    if how != ByCopy && job.target !in d.tree then AddName(d, job.source, job.target)
    else Copied(d, job.source, job.target)
  }

  lemma RoomForCopy(jobs: seq<Job>, d: Disk, i: nat)
    requires Ready(jobs, d.tree) && i < |jobs| && jobs[i].target != []
    ensures CanCopy(d.tree, jobs[i].source, jobs[i].target)
  {
    assert Above(Up(jobs[i].target), jobs[i].target);
  }

  lemma CopyFinishes(how: MoveMethod, jobs: seq<Job>, begin: State, s: State, i: nat)
    requires WellFormedPhases(jobs, s.phases) && i < |jobs| && CanCopy(s.disk.tree, jobs[i].source, jobs[i].target)
    requires (how == ByCopy && s.phases[i].Transferring?) || s.phases[i].FallingBack?
    requires Reaches(how, jobs, begin, s)
    ensures Reaches(how, jobs, begin,
                    State(Copied(s.disk, jobs[i].source, jobs[i].target), s.phases[i := Finished]))
  {
    var middle := State(Open(s.disk, jobs[i].target), s.phases[i := Filling]);
    var end := State(Copied(s.disk, jobs[i].source, jobs[i].target), s.phases[i := Finished]);
    StepIsSome(how, jobs, s, i, middle);
    ReachesOnward(how, jobs, begin, s, middle);
    assert end.phases == middle.phases[i := Finished];
    StepIsSome(how, jobs, middle, i, end);
    ReachesOnward(how, jobs, begin, middle, end);
  }

  lemma TransferFinishes(how: MoveMethod, jobs: seq<Job>, begin: State, s: State, i: nat)
    requires WellFormedPhases(jobs, s.phases) && i < |jobs| && CanCopy(s.disk.tree, jobs[i].source, jobs[i].target)
    requires s.phases[i].Transferring? && how != ByHardLink && Reaches(how, jobs, begin, s)
    ensures Reaches(how, jobs, begin, State(Done(how, s.disk, jobs[i]), s.phases[i := Finished]))
  {
    if how == ByCopy {
      CopyFinishes(how, jobs, begin, s, i);
    } else if jobs[i].target !in s.disk.tree {
      var end := State(Done(how, s.disk, jobs[i]), s.phases[i := Finished]);
      StepIsSome(how, jobs, s, i, end);
      ReachesOnward(how, jobs, begin, s, end);
    } else {
      var middle := State(s.disk, s.phases[i := FallingBack]);
      StepIsSome(how, jobs, s, i, middle);
      ReachesOnward(how, jobs, begin, s, middle);
      CopyFinishes(how, jobs, begin, middle, i);
      assert middle.phases[i := Finished] == s.phases[i := Finished];
    }
  }

  /** A spawned task can run to its end before any other moves. */
  lemma TaskFinishes(how: MoveMethod, jobs: seq<Job>, begin: State, s: State, i: nat) returns (s': State)
    requires WellFormedPhases(jobs, s.phases) && i < |jobs| && s.phases[i] == MakingParents(0)
    requires Ready(jobs, s.disk.tree) && how != ByHardLink && Reaches(how, jobs, begin, s)
    ensures CanCopy(s.disk.tree, jobs[i].source, jobs[i].target)
    ensures s' == State(Done(how, s.disk, jobs[i]), s.phases[i := Finished]) && Reaches(how, jobs, begin, s')
    ensures WellFormedPhases(jobs, s'.phases)
  {
    assert WellPhased(jobs[i], s.phases[i]);
    RoomForCopy(jobs, s.disk, i);
    MakesItsLevels(how, jobs, begin, s, i, 0);
    var middle := State(s.disk, s.phases[i := Transferring]);
    TransferFinishes(how, jobs, begin, middle, i);
    s' := State(Done(how, s.disk, jobs[i]), s.phases[i := Finished]);
    assert middle.phases[i := Finished] == s.phases[i := Finished];
  }

  /** Names are only added, and files stay files. */
  ghost predicate Extends(d: Disk, d': Disk) {
    && (forall k :: k in d.inodes ==> k in d'.inodes && d'.inodes[k] == d.inodes[k])
    && (forall k :: IsDir(d.tree, k) ==> IsDir(d'.tree, k))
  }

  lemma LinkExtends(d: Disk, from: Key, to: Key)
    requires CanLink(d.tree, from, to)
    ensures Extends(d, AddName(d, from, to)) && to in AddName(d, from, to).inodes
    ensures forall k :: IsDir(AddName(d, from, to).tree, k) ==> IsDir(d.tree, k)
  {
  }

  lemma OpenExtends(d: Disk, k: Key)
    requires CanCreate(d.tree, k)
    ensures Extends(d, Open(d, k)) && k in Open(d, k).inodes
    ensures forall j :: IsDir(Open(d, k).tree, j) ==> IsDir(d.tree, j)
  {
  }

  lemma DoneExtends(how: MoveMethod, d: Disk, job: Job)
    requires CanCopy(d.tree, job.source, job.target)
    ensures Extends(d, Done(how, d, job)) && job.target in Done(how, d, job).inodes
    ensures forall k :: IsDir(Done(how, d, job).tree, k) ==> IsDir(d.tree, k)
  {
    if how != ByCopy && job.target !in d.tree {
      LinkExtends(d, job.source, job.target);
    } else {
      OpenExtends(d, job.target);
    }
  }

  lemma ReadyStays(jobs: seq<Job>, d: Disk, d': Disk)
    requires Ready(jobs, d.tree) && Extends(d, d') && forall k :: IsDir(d'.tree, k) ==> IsDir(d.tree, k)
    ensures Ready(jobs, d'.tree)
  {
    assert forall i :: 0 <= i < |jobs| ==> jobs[i].source in d.inodes;
  }

  // ---------------------------------------------------------------- all tasks but one, then that one

  /** What is known while tasks run to their ends one after the other. */
  ghost predicate Underway(how: MoveMethod, jobs: seq<Job>, begin: State, s: State) {
    && WellFormedPhases(jobs, s.phases)
    && (forall i :: 0 <= i < |jobs| ==> s.phases[i] == MakingParents(0) || s.phases[i].Finished?)
    && Ready(jobs, s.disk.tree)
    && Reaches(how, jobs, begin, s)
    && Extends(begin.disk, s.disk)
    && (forall i :: 0 <= i < |jobs| && s.phases[i].Finished? ==> jobs[i].target in s.disk.inodes)
  }

  lemma OneMoreFinishes(how: MoveMethod, jobs: seq<Job>, begin: State, s: State, i: nat) returns (s': State)
    requires Underway(how, jobs, begin, s) && i < |jobs| && s.phases[i] == MakingParents(0) && how != ByHardLink
    ensures Underway(how, jobs, begin, s') && s'.phases == s.phases[i := Finished]
    ensures CanCopy(s.disk.tree, jobs[i].source, jobs[i].target) && s'.disk == Done(how, s.disk, jobs[i])
    ensures Extends(s.disk, s'.disk)
  {
    s' := TaskFinishes(how, jobs, begin, s, i);
    DoneExtends(how, s.disk, jobs[i]);
    ReadyStays(jobs, s.disk, s'.disk);
  }

  /** Besides those that had finished, the tasks before `n` have finished, except for `last`. */
  ghost predicate FinishedUpTo(before: seq<Phase>, after: seq<Phase>, last: nat, n: nat) {
    && |after| == |before| && last < |after| && after[last] == MakingParents(0)
    && forall i :: 0 <= i < |after| && i != last && (i < n || before[i].Finished?) ==> after[i].Finished?
  }

  /** The tasks before `n` run to their ends, except for the one that is to be the last. */
  lemma {:induction false} OthersFinish(how: MoveMethod, jobs: seq<Job>, begin: State, s: State, last: nat, n: nat)
    returns (s': State)
    requires Underway(how, jobs, begin, s) && last < |jobs| && n <= |jobs| && how != ByHardLink
    requires s.phases[last] == MakingParents(0)
    ensures Underway(how, jobs, begin, s') && Extends(s.disk, s'.disk)
    ensures FinishedUpTo(s.phases, s'.phases, last, n)
  {
    if n == 0 {
      s' := s;
    } else {
      var before := OthersFinish(how, jobs, begin, s, last, n - 1);
      s' := NextFinishes(how, jobs, begin, before, last, n - 1);
    }
  }

  lemma NextFinishes(how: MoveMethod, jobs: seq<Job>, begin: State, s: State, last: nat, n: nat) returns (s': State)
    requires Underway(how, jobs, begin, s) && last < |jobs| && n < |jobs| && how != ByHardLink
    ensures Underway(how, jobs, begin, s') && Extends(s.disk, s'.disk)
    ensures s'.phases == if n == last || s.phases[n].Finished? then s.phases else s.phases[n := Finished]
  {
    if n == last || s.phases[n].Finished? {
      s' := s;
    } else {
      s' := OneMoreFinishes(how, jobs, begin, s, n);
    }
  }

  // ---------------------------------------------------------------- a start with room for everything

  function SourceKeys(jobs: seq<Job>): set<Key> {
    set job | job in jobs :: job.source
  }

  function LevelKeys(keys: set<Key>): (r: set<Key>)
    ensures forall j :: j in r <==> exists k :: k in keys && Above(j, k)
  {
    var r := set k, n | k in keys && 0 <= n < |k| :: k[..n];
    assert forall j, k :: k in keys && Above(j, k) ==> j == k[..|j|];
    r
  }

  /** The position of the first task with this source: a number for every source, and a different one for each. */
  function Position(jobs: seq<Job>, source: Key): (n: nat)
    requires source in SourceKeys(jobs)
    ensures n < |jobs| && jobs[n].source == source
  {
    if jobs[0].source == source then 0
    else
      assert forall job :: job in jobs ==> job == jobs[0] || job in jobs[1..];
      1 + Position(jobs[1..], source)
  }

  function Levels(jobs: seq<Job>): set<Key> {
    LevelKeys(SourceKeys(jobs) + set job | job in jobs :: job.target) + {[]}
  }

  lemma LevelsAreNoSources(jobs: seq<Job>)
    requires Stageable(jobs)
    ensures Levels(jobs) !! SourceKeys(jobs)
    ensures forall i :: 0 <= i < |jobs| ==> jobs[i].target !in Levels(jobs) && jobs[i].target !in SourceKeys(jobs)
  {
    forall i | 0 <= i < |jobs|
      ensures jobs[i].target !in Levels(jobs) && jobs[i].target !in SourceKeys(jobs) && jobs[i].source !in Levels(jobs)
    {
    }
  }

  /** Directories above everything, and a file at every source: one content for `first`, another one for the rest. */
  function StartTree(jobs: seq<Job>, first: Key): Tree {
    map k | k in Levels(jobs) + SourceKeys(jobs) ::
      if k in SourceKeys(jobs) then File(if k == first then "a" else "b") else Dir
  }

  lemma StartTreeIsWellFormed(jobs: seq<Job>, first: Key)
    requires Stageable(jobs)
    ensures WellFormed(StartTree(jobs, first))
  {
    var t := StartTree(jobs, first);
    LevelsAreNoSources(jobs);
    forall k | k in t && k != []
      ensures IsDir(t, Up(k))
    {
      var all := SourceKeys(jobs) + set job | job in jobs :: job.target;
      if k in SourceKeys(jobs) {
        assert Above(Up(k), k);
      } else {
        var j :| j in all && Above(k, j);
        assert Above(Up(k), j);
      }
    }
  }

  function RawStart(jobs: seq<Job>, first: Key): RawDisk {
    RawDisk(StartTree(jobs, first), map k | k in SourceKeys(jobs) :: Position(jobs, k), |jobs|)
  }

  lemma StartNames(jobs: seq<Job>, first: Key)
    ensures forall j, k :: j in SourceKeys(jobs) && k in SourceKeys(jobs) && SameFile(RawStart(jobs, first), j, k) ==>
              j == k
  {
    forall j, k | j in SourceKeys(jobs) && k in SourceKeys(jobs) && Position(jobs, j) == Position(jobs, k)
      ensures j == k
    {
    }
  }

  lemma StartFiles(jobs: seq<Job>, first: Key, k: Key)
    requires Levels(jobs) !! SourceKeys(jobs)
    ensures IsFile(StartTree(jobs, first), k) <==> k in SourceKeys(jobs)
  {
  }

  /** Files with one name each are a sound disk. */
  lemma OneNameEach(d: RawDisk)
    requires WellFormed(d.tree) && forall k :: k in d.inodes <==> IsFile(d.tree, k)
    requires forall k :: k in d.inodes ==> d.inodes[k] < d.next
    requires forall j, k :: j in d.inodes && k in d.inodes && SameFile(d, j, k) ==> j == k
    ensures Sound(d)
  {
    forall j, k | j in d.inodes && k in d.inodes && d.inodes[j] == d.inodes[k]
      ensures d.tree[j] == d.tree[k]
    {
      assert SameFile(d, j, k);
    }
  }

  lemma StartIsSound(jobs: seq<Job>, first: Key)
    requires Stageable(jobs)
    ensures Sound(RawStart(jobs, first))
  {
    var d := RawStart(jobs, first);
    LevelsAreNoSources(jobs);
    forall k
      ensures k in d.inodes <==> IsFile(d.tree, k)
    {
      StartFiles(jobs, first, k);
    }
    StartNames(jobs, first);
    StartTreeIsWellFormed(jobs, first);
    OneNameEach(d);
  }

  function Start(jobs: seq<Job>, first: Key): (d: Disk)
    requires Stageable(jobs)
    ensures d == RawStart(jobs, first)
  {
    StartIsSound(jobs, first);
    RawStart(jobs, first)
  }

  lemma StartIsReady(jobs: seq<Job>, first: Key)
    requires Stageable(jobs)
    ensures Ready(jobs, Start(jobs, first).tree)
  {
    var t := StartTree(jobs, first);
    LevelsAreNoSources(jobs);
    forall i, j | 0 <= i < |jobs| && Above(j, jobs[i].target)
      ensures IsDir(t, j)
    {
      assert jobs[i].target in set job | job in jobs :: job.target;
      assert j in Levels(jobs);
    }
  }

  lemma StartIsClean(jobs: seq<Job>, first: Key)
    requires Stageable(jobs)
    ensures CleanStart(Start(jobs, first), jobs)
  {
    LevelsAreNoSources(jobs);
    forall i | 0 <= i < |jobs|
      ensures HasOneName(Start(jobs, first), jobs[i].target)
    {
    }
  }

  lemma FreshIsUnderway(how: MoveMethod, jobs: seq<Job>, begin: State)
    requires Spawned(jobs, begin.phases) && Ready(jobs, begin.disk.tree)
    requires forall i :: 0 <= i < |jobs| ==> jobs[i].target != []
    ensures Underway(how, jobs, begin, begin)
  {
    ReachesSelf(how, jobs, begin);
  }

  /** All tasks have been spawned and none has moved. */
  function Fresh(jobs: seq<Job>, first: Key): (s: State)
    requires Stageable(jobs)
    ensures s.disk == Start(jobs, first) && Spawned(jobs, s.phases)
  {
    State(Start(jobs, first), seq(|jobs|, i => MakingParents(0)))
  }

  lemma Begins(how: MoveMethod, jobs: seq<Job>, first: Key) returns (begin: State)
    requires Stageable(jobs)
    ensures begin == Fresh(jobs, first) && Underway(how, jobs, begin, begin)
  {
    begin := Fresh(jobs, first);
    StartIsReady(jobs, first);
    FreshIsUnderway(how, jobs, begin);
  }

  // ---------------------------------------------------------------- a copy that goes through a link

  /** Copying onto a name of several changes them all. */
  lemma CopyOver(d: Disk, source: Key, target: Key, k: Key)
    requires CanCopy(d.tree, source, target) && target in d.inodes && k in d.inodes
    ensures k in Copied(d, source, target).tree
    ensures !SameFile(d, k, target) ==> Copied(d, source, target).tree[k] == d.tree[k]
    ensures SameFile(d, k, target) ==>
              Copied(d, source, target).tree[k]
              == if SameFile(d, source, target) then File("") else d.tree[source]
  {
  }

  ghost predicate Original(d0: Disk, d: Disk, k: Key) {
    k in d0.tree && k in d.tree && d.tree[k] == d0.tree[k]
  }

  lemma StartContents(jobs: seq<Job>, first: Key, k: nat)
    requires Stageable(jobs) && k < |jobs|
    ensures var d0 := Start(jobs, first); var source := jobs[k].source;
            && source in d0.inodes && d0.tree[source] == File(if source == first then "a" else "b")
            && (first in SourceKeys(jobs) && source != first ==> first in d0.inodes && !SameFile(d0, source, first))
  {
    StartNames(jobs, first);
    assert jobs[k].source in SourceKeys(jobs);
  }

  lemma OtherSourceUntouched(d0: Disk, d: Disk, source: Key, first: Key, target: Key, k: Key)
    requires Extends(d0, d) && SameFile(d, first, target) && CanCopy(d.tree, source, target)
    requires k in d0.inodes && first in d0.inodes && !SameFile(d0, k, first)
    ensures k in Copied(d, source, target).tree && Copied(d, source, target).tree[k] == d.tree[k]
  {
    CopyOver(d, source, target, k);
  }

  /**
   * The last of two tasks with one target falls back to copying through the link of the first: the source of the first
   * is overwritten, or another source has been before.
   */
  lemma LastCopyHits(jobs: seq<Job>, d0: Disk, d: Disk, i: nat, j: nat) returns (hit: nat)
    requires Stageable(jobs) && i < |jobs| && j < |jobs| && jobs[i].target == jobs[j].target
    requires d0 == Start(jobs, jobs[i].source) && Extends(d0, d)
    requires SameFile(d, jobs[i].source, jobs[j].target) && CanCopy(d.tree, jobs[j].source, jobs[j].target)
    ensures hit < |jobs| && !Original(d0, Copied(d, jobs[j].source, jobs[j].target), jobs[hit].source)
  {
    var first, target := jobs[i].source, jobs[j].target;
    assert first in SourceKeys(jobs);
    StartContents(jobs, first, i);
    if k :| 0 <= k < |jobs| && jobs[k].source != first && !Original(d0, d, jobs[k].source) {
      hit := k;
      StartContents(jobs, first, k);
      OtherSourceUntouched(d0, d, jobs[j].source, first, target, jobs[k].source);
    } else {
      hit := i;
      StartContents(jobs, first, j);
      CopyOver(d, jobs[j].source, target, first);
    }
  }

  lemma FirstLinks(jobs: seq<Job>, i: nat) returns (begin: State, linked: State)
    requires Stageable(jobs) && i < |jobs|
    ensures begin.disk == Start(jobs, jobs[i].source) && Spawned(jobs, begin.phases)
    ensures Underway(ByHardLinkWithCopyFallback, jobs, begin, linked) && linked.phases == begin.phases[i := Finished]
    ensures CanLink(begin.disk.tree, jobs[i].source, jobs[i].target)
    ensures linked.disk == AddName(begin.disk, jobs[i].source, jobs[i].target)
  {
    begin := Begins(ByHardLinkWithCopyFallback, jobs, jobs[i].source);
    LevelsAreNoSources(jobs);
    linked := OneMoreFinishes(ByHardLinkWithCopyFallback, jobs, begin, begin, i);
  }

  /** A task whose target is already a name of another source copies through it. */
  lemma LastFallsBack(jobs: seq<Job>, begin: State, s: State, i: nat, j: nat) returns (end: State, hit: nat)
    requires Stageable(jobs) && i < |jobs| && j < |jobs| && jobs[i].target == jobs[j].target
    requires Underway(ByHardLinkWithCopyFallback, jobs, begin, s) && begin.disk == Start(jobs, jobs[i].source)
    requires s.phases[j] == MakingParents(0) && SameFile(s.disk, jobs[i].source, jobs[j].target)
    ensures Underway(ByHardLinkWithCopyFallback, jobs, begin, end) && end.phases == s.phases[j := Finished]
    ensures CanCopy(s.disk.tree, jobs[j].source, jobs[j].target)
    ensures end.disk == Copied(s.disk, jobs[j].source, jobs[j].target)
    ensures hit < |jobs| && !Original(begin.disk, end.disk, jobs[hit].source)
  {
    end := OneMoreFinishes(ByHardLinkWithCopyFallback, jobs, begin, s, j);
    hit := LastCopyHits(jobs, begin.disk, s.disk, i, j);
  }

  /** Two tasks with one target, the links of which may fall back to copies: some source does not survive. */
  lemma FallbackHitsSource(jobs: seq<Job>, i: nat, j: nat) returns (begin: State, end: State, hit: nat)
    requires Stageable(jobs) && i < |jobs| && j < |jobs| && i != j && jobs[i].target == jobs[j].target
    ensures begin.disk == Start(jobs, jobs[i].source) && Spawned(jobs, begin.phases)
    ensures Reaches(ByHardLinkWithCopyFallback, jobs, begin, end) && AllFinished(end.phases)
    ensures hit < |jobs| && !Original(begin.disk, end.disk, jobs[hit].source)
  {
    var linked;
    begin, linked := FirstLinks(jobs, i);
    var others := OthersFinish(ByHardLinkWithCopyFallback, jobs, begin, linked, j, |jobs|);
    end, hit := LastFallsBack(jobs, begin, others, i, j);
    AllButLastFinished(jobs, linked.phases, others.phases, j);
  }

  lemma AllButLastFinished(jobs: seq<Job>, before: seq<Phase>, phases: seq<Phase>, last: nat)
    requires |phases| == |jobs| && FinishedUpTo(before, phases, last, |jobs|)
    ensures AllFinished(phases[last := Finished])
  {
  }

  lemma PairRuns(jobs: seq<Job>) returns (begin: State, end: State)
    requires Stageable(jobs) && |jobs| == 2 && jobs[0].target == jobs[1].target
    ensures begin.disk == Start(jobs, jobs[0].source) && Spawned(jobs, begin.phases)
    ensures Reaches(ByHardLinkWithCopyFallback, jobs, begin, end) && AllFinished(end.phases)
    ensures CanLink(begin.disk.tree, jobs[0].source, jobs[0].target)
    ensures CanCopy(AddName(begin.disk, jobs[0].source, jobs[0].target).tree, jobs[1].source, jobs[0].target)
    ensures end.disk
            == Copied(AddName(begin.disk, jobs[0].source, jobs[0].target), jobs[1].source, jobs[0].target)
  {
    var linked, hit;
    begin, linked := FirstLinks(jobs, 0);
    end, hit := LastFallsBack(jobs, begin, linked, 0, 1);
    BothFinished(begin.phases);
  }

  lemma BothFinished(phases: seq<Phase>)
    requires |phases| == 2
    ensures AllFinished(phases[0 := Finished][1 := Finished])
  {
  }

  /**
   * The two forms of this for two tasks: a file staged under two spellings of its path ends up empty, in the jail and
   * on the host; of two files staged to one place the first is overwritten on the host with the second.
   */
  lemma PairHitsSource(jobs: seq<Job>) returns (begin: State, end: State)
    requires Stageable(jobs) && |jobs| == 2 && jobs[0].target == jobs[1].target
    ensures CleanStart(begin.disk, jobs) && Spawned(jobs, begin.phases)
    ensures Reaches(ByHardLinkWithCopyFallback, jobs, begin, end) && AllFinished(end.phases)
    ensures var source, target, t := jobs[0].source, jobs[0].target, end.disk.tree;
            && source in begin.disk.tree && begin.disk.tree[source] == File("a")
            && source in t && target in t
            && t[source] == t[target] == File(if jobs[1].source == source then "" else "b")
  {
    begin, end := PairRuns(jobs);
    StartIsClean(jobs, jobs[0].source);
    StartContents(jobs, jobs[0].source, 0);
    StartContents(jobs, jobs[0].source, 1);
    assert jobs[0].source in SourceKeys(jobs);
    CopyThroughLink(begin.disk, jobs[0].source, jobs[1].source, jobs[0].target);
  }

  lemma CopyThroughLink(d: Disk, first: Key, source: Key, target: Key)
    requires CanLink(d.tree, first, target) && CanCopy(AddName(d, first, target).tree, source, target)
    requires source in d.inodes && (source == first || !SameFile(d, source, first))
    ensures var end := Copied(AddName(d, first, target), source, target).tree;
            && first in end && target in end
            && end[first] == end[target] == if source == first then File("") else d.tree[source]
  {
    var linked := AddName(d, first, target);
    CopyOver(linked, source, target, first);
    CopyOver(linked, source, target, target);
  }

  // ---------------------------------------------------------------- what the loop leaves

  /** The loop writes at its targets only. */
  lemma {:induction false} LoopKeeps(t0: Tree, jobs: seq<Job>, k: Key)
    requires StageAll(t0, jobs).Some? && k in t0 && forall i :: 0 <= i < |jobs| ==> jobs[i].target != k
    ensures k in StageAll(t0, jobs).value && StageAll(t0, jobs).value[k] == t0[k]
  {
    if jobs == [] {
    } else {
      LoopKeeps(t0, jobs[..|jobs| - 1], k);
    }
  }

  /** The last task with a target decides what is there. */
  lemma {:induction false} LoopLastWriter(t0: Tree, jobs: seq<Job>, last: nat)
    requires StageAll(t0, jobs).Some? && last < |jobs| && jobs[last].source in t0
    requires forall i :: 0 <= i < |jobs| ==> jobs[i].target != jobs[last].source
    requires forall i :: last < i < |jobs| ==> jobs[i].target != jobs[last].target
    ensures jobs[last].target in StageAll(t0, jobs).value
    ensures StageAll(t0, jobs).value[jobs[last].target] == t0[jobs[last].source]
  {
    var shorter := jobs[..|jobs| - 1];
    if last == |jobs| - 1 {
      LoopKeeps(t0, shorter, jobs[last].source);
    } else {
      LoopLastWriter(t0, shorter, last);
    }
  }

  // ---------------------------------------------------------------- a copy that comes too late

  lemma {:induction false} CopiesKeepSources(d0: Disk, jobs: seq<Job>, trace: seq<State>, k: Key)
    requires Run(ByCopy, jobs, trace) && NamesAccounted(ByCopy, d0, jobs, trace[0]) && TargetsOwned(d0, jobs)
    requires k in trace[0].disk.tree && forall i :: 0 <= i < |jobs| ==> !(k <= jobs[i].target)
    ensures NamesAccounted(ByCopy, d0, jobs, trace[|trace| - 1])
    ensures k in trace[|trace| - 1].disk.tree && trace[|trace| - 1].disk.tree[k] == trace[0].disk.tree[k]
  {
    if |trace| == 1 {
    } else {
      ShorterRun(ByCopy, jobs, trace);
      CopiesKeepSources(d0, jobs, trace[..|trace| - 1], k);
      CopyStepKeepsSource(d0, jobs, trace[|trace| - 2], trace[|trace| - 1], k);
    }
  }

  lemma CopyStepKeepsSource(d0: Disk, jobs: seq<Job>, s: State, s': State, k: Key)
    requires SomeStep(ByCopy, jobs, s, s') && NamesAccounted(ByCopy, d0, jobs, s) && TargetsOwned(d0, jobs)
    requires k in s.disk.tree && forall i :: 0 <= i < |jobs| ==> !(k <= jobs[i].target)
    ensures NamesAccounted(ByCopy, d0, jobs, s')
    ensures k in s'.disk.tree && s'.disk.tree[k] == s.disk.tree[k]
  {
    var i: nat :| TaskStep(ByCopy, jobs, s, i, s');
    StepKeepsNames(ByCopy, d0, jobs, s, i, s');
    if s'.disk != s.disk {
      var written, node := StepWrites(ByCopy, d0, jobs, s, i, s');
    }
  }

  lemma TwiceIsStageable(job: Job)
    requires job.target != [] && job.source != [] && !(job.source <= job.target) && !(job.target <= job.source)
    ensures Stageable([job, job])
  {
    var jobs := [job, job];
    assert forall i :: 0 <= i < |jobs| ==> jobs[i] == job;
  }

  /** With copies alone, a task that runs last puts the content of its source at its target. */
  lemma LastCopyLands(jobs: seq<Job>, first: Key, s: State, i: nat)
    requires Stageable(jobs) && i < |jobs| && Underway(ByCopy, jobs, Fresh(jobs, first), s)
    requires s.phases[i] == MakingParents(0) && CanCopy(s.disk.tree, jobs[i].source, jobs[i].target)
    ensures jobs[i].target in Done(ByCopy, s.disk, jobs[i]).tree
    ensures Done(ByCopy, s.disk, jobs[i]).tree[jobs[i].target] == File(if jobs[i].source == first then "a" else "b")
  {
    var source, target, begin := jobs[i].source, jobs[i].target, Fresh(jobs, first);
    var trace :| Run(ByCopy, jobs, trace) && trace[0] == begin && trace[|trace| - 1] == s;
    StartIsClean(jobs, first);
    StartContents(jobs, first, i);
    SpawnedNames(ByCopy, begin.disk, jobs, begin);
    CopiesKeepSources(begin.disk, jobs, trace, source);
    WrittenIsSole(ByCopy, begin.disk, jobs, s, i);
    CopyLands(s.disk, source, target);
  }

  lemma CopyLands(d: Disk, source: Key, target: Key)
    requires CanCopy(d.tree, source, target) && source != target && HasOneName(d, target)
    ensures target in Copied(d, source, target).tree && Copied(d, source, target).tree[target] == d.tree[source]
  {
    assert !SameFile(d, source, target);
  }

  /** The last of the tasks with the target of task `i`. */
  lemma LastSharer(jobs: seq<Job>, i: nat) returns (last: nat)
    requires i < |jobs|
    ensures i <= last < |jobs| && jobs[last].target == jobs[i].target
    ensures forall k :: last < k < |jobs| ==> jobs[k].target != jobs[i].target
  {
    last := i;
    var n := i + 1;
    while n < |jobs|
      invariant i <= last < n <= |jobs| && jobs[last].target == jobs[i].target
      invariant forall k :: last < k < n ==> jobs[k].target != jobs[i].target
    {
      if jobs[n].target == jobs[i].target {
        last := n;
      }
      n := n + 1;
    }
  }

  /** Any task can be the last one: then its copy decides what is at its target. */
  lemma LateCopyLands(jobs: seq<Job>, first: Key, i: nat) returns (end: State)
    requires Stageable(jobs) && i < |jobs|
    ensures Reaches(ByCopy, jobs, Fresh(jobs, first), end) && AllFinished(end.phases)
    ensures jobs[i].target in end.disk.tree
    ensures end.disk.tree[jobs[i].target] == File(if jobs[i].source == first then "a" else "b")
  {
    var begin := Begins(ByCopy, jobs, first);
    var others := OthersFinish(ByCopy, jobs, begin, begin, i, |jobs|);
    end := OneMoreFinishes(ByCopy, jobs, begin, others, i);
    LastCopyLands(jobs, first, others, i);
    AllButLastFinished(jobs, begin.phases, others.phases, i);
  }

  // ---------------------------------------------------------------- the exact conditions

  lemma ReachedIsRun(how: MoveMethod, jobs: seq<Job>, begin: State, end: State)
    requires AlwaysTheLoop(how, jobs) && CleanStart(begin.disk, jobs) && Spawned(jobs, begin.phases)
    requires Reaches(how, jobs, begin, end) && AllFinished(end.phases)
    ensures StageAll(begin.disk.tree, jobs) == Some(end.disk.tree)
  {
    var trace :| Run(how, jobs, trace) && trace[0] == begin && trace[|trace| - 1] == end;
    assert RunFrom(how, begin.disk, jobs, trace);
  }

  lemma SharedTargetsDisagree(jobs: seq<Job>)
    requires Stageable(jobs) && !DistinctTargets(jobs)
    ensures !AlwaysTheLoop(ByHardLinkWithCopyFallback, jobs)
  {
    var i, j :| 0 <= i < j < |jobs| && jobs[i].target == jobs[j].target;
    var begin, end, hit := FallbackHitsSource(jobs, i, j);
    StartIsClean(jobs, jobs[i].source);
    StartContents(jobs, jobs[i].source, hit);
    if AlwaysTheLoop(ByHardLinkWithCopyFallback, jobs) {
      ReachedIsRun(ByHardLinkWithCopyFallback, jobs, begin, end);
      LoopKeeps(begin.disk.tree, jobs, jobs[hit].source);
    }
  }

  lemma DifferentSourcesDisagree(jobs: seq<Job>)
    requires Stageable(jobs) && !Independent(JobSet(jobs))
    ensures !AlwaysTheLoop(ByCopy, jobs)
  {
    var i, last := DifferentFromLast(jobs);
    var begin := Fresh(jobs, jobs[i].source);
    var end := LateCopyLands(jobs, jobs[i].source, i);
    StartIsClean(jobs, jobs[i].source);
    StartContents(jobs, jobs[i].source, last);
    if AlwaysTheLoop(ByCopy, jobs) {
      ReachedIsRun(ByCopy, jobs, begin, end);
      LoopLastWriter(begin.disk.tree, jobs, last);
    }
  }

  lemma DifferentFromLast(jobs: seq<Job>) returns (i: nat, last: nat)
    requires Stageable(jobs) && !Independent(JobSet(jobs))
    ensures i < |jobs| && last < |jobs| && jobs[i].target == jobs[last].target && jobs[i].source != jobs[last].source
    ensures forall k :: last < k < |jobs| ==> jobs[k].target != jobs[last].target
  {
    StageableIsApart(jobs);
    var a, b :| a in JobSet(jobs) && b in JobSet(jobs) && a.target == b.target && a.source != b.source;
    var m: nat :| m < |jobs| && jobs[m] == a;
    var n: nat :| n < |jobs| && jobs[n] == b;
    last := LastSharer(jobs, m);
    i := if a.source != jobs[last].source then m else n;
  }

  lemma StageableIsApart(jobs: seq<Job>)
    requires Stageable(jobs)
    ensures SourcesApart(JobSet(jobs)) && forall i :: 0 <= i < |jobs| ==> jobs[i].target != []
  {
    forall a, b | a in JobSet(jobs) && b in JobSet(jobs)
      ensures a.target != b.source
    {
      var i :| 0 <= i < |jobs| && jobs[i] == a;
      var j :| 0 <= j < |jobs| && jobs[j] == b;
    }
  }

  /**
   * The condition is exact, for every move method and all tasks there is room for: all schedules that succeed agree
   * with the loop if and only if the tasks are free of races.
   */
  lemma AlwaysTheLoopIff(how: MoveMethod, jobs: seq<Job>)
    requires Stageable(jobs)
    ensures AlwaysTheLoop(how, jobs) <==> RaceFree(how, jobs)
  {
    StageableIsApart(jobs);
    if RaceFree(how, jobs) {
      forall d0: Disk, trace: seq<State> | CleanStart(d0, jobs) && RunFrom(how, d0, jobs, trace)
                                           && AllFinished(trace[|trace| - 1].phases)
        ensures StageAll(d0.tree, jobs) == Some(trace[|trace| - 1].disk.tree)
      {
        EverySuccessfulScheduleIsTheLoop(how, d0, jobs, trace);
      }
    } else if how == ByCopy {
      DifferentSourcesDisagree(jobs);
    } else {
      SharedTargetsDisagree(jobs);
    }
  }

  lemma {:induction false} RunStaysBelow(how: MoveMethod, d0: Disk, jobs: seq<Job>, trace: seq<State>, root: Key)
    requires Run(how, jobs, trace) && StaysBelow(how, jobs) && TargetsOwned(d0, jobs)
    requires NamesAccounted(how, d0, jobs, trace[0]) && Framed(d0.tree, root, trace[0].disk.tree)
    requires forall i :: 0 <= i < |jobs| ==> root <= jobs[i].target
    ensures NamesAccounted(how, d0, jobs, trace[|trace| - 1])
    ensures Framed(d0.tree, root, trace[|trace| - 1].disk.tree)
  {
    if |trace| == 1 {
    } else {
      ShorterRun(how, jobs, trace);
      RunStaysBelow(how, d0, jobs, trace[..|trace| - 1], root);
      var s, s' := trace[|trace| - 2], trace[|trace| - 1];
      var i: nat :| TaskStep(how, jobs, s, i, s');
      StepKeepsNames(how, d0, jobs, s, i, s');
      ActionsStayBelow(how, d0, jobs, s, i, s', d0.tree, root);
    }
  }

  lemma SharedTargetsEscape(jobs: seq<Job>, root: Key)
    requires Stageable(jobs) && !DistinctTargets(jobs)
    requires forall i :: 0 <= i < |jobs| ==> Above(root, jobs[i].target) && !(root <= jobs[i].source)
    ensures !AlwaysFramed(ByHardLinkWithCopyFallback, jobs, root)
  {
    var i, j :| 0 <= i < j < |jobs| && jobs[i].target == jobs[j].target;
    var begin, end, hit := FallbackHitsSource(jobs, i, j);
    StartIsClean(jobs, jobs[i].source);
    StartContents(jobs, jobs[i].source, hit);
    StartIsFramed(jobs, jobs[i].source, root, i);
    assert !SameAt(begin.disk.tree, end.disk.tree, jobs[hit].source);
    if AlwaysFramed(ByHardLinkWithCopyFallback, jobs, root) {
      var trace :| Run(ByHardLinkWithCopyFallback, jobs, trace) && trace[0] == begin && trace[|trace| - 1] == end;
      assert RunFrom(ByHardLinkWithCopyFallback, begin.disk, jobs, trace);
    }
  }

  lemma StartIsFramed(jobs: seq<Job>, first: Key, root: Key, i: nat)
    requires Stageable(jobs) && i < |jobs| && Above(root, jobs[i].target)
    ensures Framed(Start(jobs, first).tree, root, Start(jobs, first).tree)
  {
    StartIsReady(jobs, first);
    forall j | j <= root
      ensures IsDir(Start(jobs, first).tree, j)
    {
      assert Above(j, jobs[i].target);
    }
  }

  /**
   * And so is the condition under which nothing outside the jail is touched: copies alone and links alone never do,
   * and links that may fall back to copies do not if and only if no two tasks share a target.
   */
  lemma AlwaysFramedIff(how: MoveMethod, jobs: seq<Job>, root: Key)
    requires Stageable(jobs)
    requires forall i :: 0 <= i < |jobs| ==> Above(root, jobs[i].target) && !(root <= jobs[i].source)
    ensures AlwaysFramed(how, jobs, root) <==> (how == ByHardLinkWithCopyFallback ==> DistinctTargets(jobs))
  {
    StageableIsApart(jobs);
    if how == ByHardLinkWithCopyFallback && !DistinctTargets(jobs) {
      SharedTargetsEscape(jobs, root);
    } else {
      forall d0: Disk, trace: seq<State> | CleanStart(d0, jobs) && Framed(d0.tree, root, d0.tree)
                                           && RunFrom(how, d0, jobs, trace)
        ensures Framed(d0.tree, root, trace[|trace| - 1].disk.tree)
      {
        SpawnedNames(how, d0, jobs, trace[0]);
        RunStaysBelow(how, d0, jobs, trace, root);
      }
    }
  }
}
