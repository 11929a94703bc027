/**
 The files of a snapshot after it was taken: copying, moving and removing them, and when a step, or a whole history of
 steps, keeps their contents.
 */
module Snapshots {
  import opened Wrappers
  import opened Paths
  import opened Filesystem
  import opened Inodes
  import opened HostMachine
  import opened FilePairs
  import opened Configuration
  import opened VmMachine

  // ---------------------------------------------------------------- the object

  /** `SnapshotData`: `copy` and `move_out` change files first and then the paths. */
  class Snapshot {
    var data: SnapshotData

    constructor (data: SnapshotData)
      ensures this.data == data
    {
      this.data := data;
    }

    /** `copy`. */
    method CopyTo(host: Host, newSnapshot: PathBuf, newMemFile: PathBuf) returns (ok: bool)
      modifies this, host
      ensures StepHappens(host.cwd,
                          if ok then CopyStep(newSnapshot, newMemFile) else FailedCopy(newSnapshot, newMemFile),
                          Stage(old(host.disk), old(data)), Stage(host.disk, data))
      ensures var p := PairOf(host.cwd, Stage(old(host.disk), old(data)), newSnapshot, newMemFile);
              host.obliging && CanBothCopy(old(host.disk), p) ==> ok
    {
      ok := CopyBoth(host, data.snapshotPath, newSnapshot, data.memFilePath, newMemFile);
      if ok {
        data := data.(snapshotPath := newSnapshot);
        data := data.(memFilePath := newMemFile);
      }
    }

    /** `move_out`. */
    method MoveOut(host: Host, newSnapshot: PathBuf, newMemFile: PathBuf) returns (ok: bool)
      modifies this, host
      ensures StepHappens(host.cwd,
                          if ok then MoveStep(newSnapshot, newMemFile) else FailedMove(newSnapshot, newMemFile),
                          Stage(old(host.disk), old(data)), Stage(host.disk, data))
      ensures var p := PairOf(host.cwd, Stage(old(host.disk), old(data)), newSnapshot, newMemFile);
              host.obliging && CanBothRename(old(host.disk), p) ==> ok
    {
      ok := RenameBoth(host, data.snapshotPath, newSnapshot, data.memFilePath, newMemFile);
      if ok {
        data := data.(snapshotPath := newSnapshot);
        data := data.(memFilePath := newMemFile);
      }
    }

    /** `remove`: both files, or an error and at most one of them. */
    method Remove(host: Host) returns (ok: bool)
      modifies host
      ensures var s1, s2 := host.At(data.snapshotPath), host.At(data.memFilePath);
              if ok then IsFile(old(host.disk).tree, s1) && IsFile(old(host.disk).tree, s2) && s1 != s2
                         && host.disk.tree == old(host.disk).tree - {s1, s2}
              else exists gone :: gone <= {s1, s2} && host.disk.tree == old(host.disk).tree - gone
      ensures var s1, s2 := host.At(data.snapshotPath), host.At(data.memFilePath);
              host.obliging && s1 != s2 && IsFile(old(host.disk).tree, s1) && IsFile(old(host.disk).tree, s2) ==> ok
    {
      var swapped: bool := *;
      var first := if swapped then data.memFilePath else data.snapshotPath;
      var second := if swapped then data.snapshotPath else data.memFilePath;
      ok := host.RemoveFile(first);
      ghost var gone := if ok then {host.At(first)} else {};
      assert host.disk.tree == old(host.disk).tree - gone;
      var alsoRuns: bool := *;
      if ok || alsoRuns {
        var removed := host.RemoveFile(second);
        gone := if removed then gone + {host.At(second)} else gone;
        ok := ok && removed;
      }
      assert host.disk.tree == old(host.disk).tree - gone;
    }

    /** `into_configuration`. */
    method IntoConfiguration(resume: Option<bool>, diff: Option<bool>) returns (c: VmConfiguration)
      ensures c == AsConfiguration(data, resume, diff)
    {
      var load := LoadSnapshot(None, FileBackend, data.memFilePath, data.snapshotPath, None);
      if resume.Some? {
        load := load.(resumeVm := Some(resume.value));
      }
      if diff.Some? {
        load := load.(enableDiffSnapshots := Some(diff.value));
      }
      c := RestoredFromSnapshot(load, data.configurationData);
    }
  }

  function AsConfiguration(s: SnapshotData, resume: Option<bool>, diff: Option<bool>): VmConfiguration {
    RestoredFromSnapshot(LoadSnapshot(diff, FileBackend, s.memFilePath, s.snapshotPath, resume), s.configurationData)
  }

  // ---------------------------------------------------------------- steps

  /** The filesystem and what the program holds of a snapshot. */
  datatype Stage = Stage(disk: Disk, data: SnapshotData)

  datatype SnapshotStep =
    | CopyStep(p: PathBuf, q: PathBuf)
    | FailedCopy(p: PathBuf, q: PathBuf)
    | MoveStep(p: PathBuf, q: PathBuf)
    | FailedMove(p: PathBuf, q: PathBuf)
    | Elsewhere   // anything that leaves the two current files alone

  function At1(cwd: Key, s: SnapshotData): Key {
    Resolve(cwd, s.snapshotPath)
  }

  function At2(cwd: Key, s: SnapshotData): Key {
    Resolve(cwd, s.memFilePath)
  }

  function Readdressed(s: SnapshotData, p: PathBuf, q: PathBuf): SnapshotData {
    s.(snapshotPath := p, memFilePath := q)
  }

  /** The current files and where a step takes them. */
  function PairOf(cwd: Key, a: Stage, p: PathBuf, q: PathBuf): Pair {
    Pair(At1(cwd, a.data), Resolve(cwd, p), At2(cwd, a.data), Resolve(cwd, q))
  }

  /** What a step does to the files and to the paths that are held. */
  ghost predicate StepHappens(cwd: Key, step: SnapshotStep, a: Stage, b: Stage) {
    match step
    case Elsewhere =>
      && b.data == a.data
      && SameAt(a.disk.tree, b.disk.tree, At1(cwd, a.data)) && SameAt(a.disk.tree, b.disk.tree, At2(cwd, a.data))
    case CopyStep(p, q) => b.data == Readdressed(a.data, p, q) && BothCopied(PairOf(cwd, a, p, q), a.disk, b.disk)
    case FailedCopy(p, q) => b.data == a.data && CopyingFailed(PairOf(cwd, a, p, q), a.disk, b.disk)
    case MoveStep(p, q) => b.data == Readdressed(a.data, p, q) && BothRenamed(PairOf(cwd, a, p, q), a.disk, b.disk)
    case FailedMove(p, q) => b.data == a.data && RenamingFailed(PairOf(cwd, a, p, q), a.disk, b.disk)
  }

  /** The snapshot's current files hold these contents. */
  predicate Holds(cwd: Key, a: Stage, snapshot: string, memory: string) {
    HeldAt(a.disk.tree, At1(cwd, a.data), At2(cwd, a.data), snapshot, memory)
  }

  // ---------------------------------------------------------------- when a step keeps the contents

  function ContentAt(t: Tree, k: Key): string {
    if IsFile(t, k) then t[k].content else ""
  }

  predicate HasRoom(d: Disk, p: Pair) {
    CanCreate(d.tree, p.d1) && CanCreate(d.tree, p.d2)
  }

  predicate SafeCopy(d: Disk, p: Pair) {
    HasRoom(d, p) ==> CopyingKeeps(d, p, ContentAt(d.tree, p.s1), ContentAt(d.tree, p.s2))
  }

  predicate SafeMove(d: Disk, p: Pair) {
    HasRoom(d, p) ==> RenamingKeeps(d, p, ContentAt(d.tree, p.s1), ContentAt(d.tree, p.s2))
  }

  /** What can be checked before the step: whatever its interleaving and wherever it fails, it will lose nothing. */
  predicate Safe(cwd: Key, step: SnapshotStep, a: Stage) {
    match step
    case Elsewhere => true
    case CopyStep(p, q) => SafeCopy(a.disk, PairOf(cwd, a, p, q))
    case FailedCopy(p, q) => FailureSpares(a.disk, PairOf(cwd, a, p, q))
    case MoveStep(p, q) => SafeMove(a.disk, PairOf(cwd, a, p, q))
    case FailedMove(p, q) =>
      && !MovesAway(a.disk, At1(cwd, a.data), Resolve(cwd, p))
      && !MovesAway(a.disk, At2(cwd, a.data), Resolve(cwd, q))
  }

  /** No way for the step to happen makes the current files, wherever they are then, hold anything else. */
  ghost predicate SureToKeep(cwd: Key, step: SnapshotStep, a: Stage, snapshot: string, memory: string) {
    forall b :: StepHappens(cwd, step, a, b) ==> Holds(cwd, b, snapshot, memory)
  }

  /**
   * Copies that succeed are sure to keep both contents if and only if there is no room for them, or both contents are
   * empty, or the targets are related to the sources and to each other as `CopyingKeeps` says.
   */
  lemma SuccessfulCopyKeepsIff(cwd: Key, p: PathBuf, q: PathBuf, a: Stage, snapshot: string, memory: string)
    requires Holds(cwd, a, snapshot, memory)
    ensures SureToKeep(cwd, CopyStep(p, q), a, snapshot, memory) <==> SafeCopy(a.disk, PairOf(cwd, a, p, q))
  {
    var pair := PairOf(cwd, a, p, q);
    CopyingLosesIff(pair, a.disk, snapshot, memory);
    if MayLose(pair, a.disk, snapshot, memory) {
      var d :| BothCopied(pair, a.disk, d) && !HeldAt(d.tree, pair.d1, pair.d2, snapshot, memory);
      assert StepHappens(cwd, CopyStep(p, q), a, Stage(d, Readdressed(a.data, p, q)));
    }
  }

  /** Copies of which one fails are sure to keep them if and only if no source is in the file at a possible target. */
  lemma FailedCopyKeepsIff(cwd: Key, p: PathBuf, q: PathBuf, a: Stage, snapshot: string, memory: string)
    requires Holds(cwd, a, snapshot, memory)
    ensures SureToKeep(cwd, FailedCopy(p, q), a, snapshot, memory) <==> FailureSpares(a.disk, PairOf(cwd, a, p, q))
  {
    var pair := PairOf(cwd, a, p, q);
    FailingLosesIff(pair, a.disk, snapshot, memory);
    if MayBreak(pair, a.disk, snapshot, memory) {
      var d :| CopyingFailed(pair, a.disk, d) && !HeldAt(d.tree, pair.s1, pair.s2, snapshot, memory);
      assert StepHappens(cwd, FailedCopy(p, q), a, Stage(d, a.data));
    }
  }

  /** Moves that succeed: if and only if there is no room for them, or both orders keep what they ask for. */
  lemma SuccessfulMoveKeepsIff(cwd: Key, p: PathBuf, q: PathBuf, a: Stage, snapshot: string, memory: string)
    requires Holds(cwd, a, snapshot, memory)
    ensures SureToKeep(cwd, MoveStep(p, q), a, snapshot, memory) <==> SafeMove(a.disk, PairOf(cwd, a, p, q))
  {
    var pair := PairOf(cwd, a, p, q);
    RenamingLosesIff(pair, a.disk, snapshot, memory);
    if MayMisplace(pair, a.disk, snapshot, memory) {
      var d :| BothRenamed(pair, a.disk, d) && !HeldAt(d.tree, pair.d1, pair.d2, snapshot, memory);
      assert StepHappens(cwd, MoveStep(p, q), a, Stage(d, Readdressed(a.data, p, q)));
    }
  }

  /**
   * A move that fails is sure to leave the snapshot usable if and only if neither file could have been renamed, or a
   * renaming would have changed nothing.  Otherwise half of the move may have happened, and a held path dangles.
   */
  lemma FailedMoveKeepsIff(cwd: Key, p: PathBuf, q: PathBuf, a: Stage, snapshot: string, memory: string)
    requires Holds(cwd, a, snapshot, memory)
    ensures SureToKeep(cwd, FailedMove(p, q), a, snapshot, memory)
            <==> !MovesAway(a.disk, At1(cwd, a.data), Resolve(cwd, p))
                 && !MovesAway(a.disk, At2(cwd, a.data), Resolve(cwd, q))
  {
    var s1, d1, s2, d2 := At1(cwd, a.data), Resolve(cwd, p), At2(cwd, a.data), Resolve(cwd, q);
    if MovesAway(a.disk, s1, d1) {
      var b := Stage(Move(a.disk, s1, d1), a.data);
      assert StepHappens(cwd, FailedMove(p, q), a, b) && s1 !in b.disk.tree;
    }
    if MovesAway(a.disk, s2, d2) {
      var b := Stage(Move(a.disk, s2, d2), a.data);
      assert StepHappens(cwd, FailedMove(p, q), a, b) && s2 !in b.disk.tree;
    }
  }

  /** For steps of every kind: the check that can be made before is exact. */
  lemma StepKeepsIff(cwd: Key, step: SnapshotStep, a: Stage, snapshot: string, memory: string)
    requires Holds(cwd, a, snapshot, memory)
    ensures SureToKeep(cwd, step, a, snapshot, memory) <==> Safe(cwd, step, a)
  {
    match step
    case Elsewhere =>
    case CopyStep(p, q) => SuccessfulCopyKeepsIff(cwd, p, q, a, snapshot, memory);
    case FailedCopy(p, q) => FailedCopyKeepsIff(cwd, p, q, a, snapshot, memory);
    case MoveStep(p, q) => SuccessfulMoveKeepsIff(cwd, p, q, a, snapshot, memory);
    case FailedMove(p, q) => FailedMoveKeepsIff(cwd, p, q, a, snapshot, memory);
  }

  /** The two are different files, and no target is another name of either. */
  predicate TwoFiles(d: Disk, p: Pair) {
    && p.s1 != p.s2 && !SameFile(d, p.s1, p.s2)
    && (SameFile(d, p.s1, p.d1) ==> p.s1 == p.d1) && (SameFile(d, p.s1, p.d2) ==> p.s1 == p.d2)
    && (SameFile(d, p.s2, p.d1) ==> p.s2 == p.d1) && (SameFile(d, p.s2, p.d2) ==> p.s2 == p.d2)
  }

  /**
   * The usual case, two different files without other names and room for both: a move that succeeds is sure to keep
   * the contents if and only if neither target is the other file, or both targets are one place and the contents are
   * the same.  When a target is the other file it depends on which of the two renames comes first.
   */
  lemma MoveOfTwoFilesKeepsIff(cwd: Key, p: PathBuf, q: PathBuf, a: Stage, snapshot: string, memory: string)
    requires Holds(cwd, a, snapshot, memory)
    requires TwoFiles(a.disk, PairOf(cwd, a, p, q)) && HasRoom(a.disk, PairOf(cwd, a, p, q))
    ensures SureToKeep(cwd, MoveStep(p, q), a, snapshot, memory)
            <==> if Resolve(cwd, p) == Resolve(cwd, q) then snapshot == memory
                 else Resolve(cwd, p) != At2(cwd, a.data) && Resolve(cwd, q) != At1(cwd, a.data)
  {
    SuccessfulMoveKeepsIff(cwd, p, q, a, snapshot, memory);
  }

  /** Moving both files to one place succeeds and loses one of them. */
  lemma MovingToOnePlaceLoses(cwd: Key, a: Stage, p: PathBuf, d: Disk, snapshot: string, memory: string)
    requires Holds(cwd, a, snapshot, memory) && snapshot != memory
    requires BothRenamed(PairOf(cwd, a, p, p), a.disk, d)
    ensures !Holds(cwd, Stage(d, Readdressed(a.data, p, p)), snapshot, memory)
  {
  }

  // ---------------------------------------------------------------- histories of a snapshot

  /** A history: the stages between its steps, of which each was safe when it came. */
  ghost predicate History(cwd: Key, steps: seq<SnapshotStep>, stages: seq<Stage>) {
    && |stages| == |steps| + 1
    && forall i :: 0 <= i < |steps| ==>
         StepHappens(cwd, steps[i], stages[i], stages[i + 1]) && Safe(cwd, steps[i], stages[i])
  }

  lemma LastStep(cwd: Key, steps: seq<SnapshotStep>, stages: seq<Stage>, snapshot: string, memory: string)
    requires History(cwd, steps, stages) && steps != [] && Holds(cwd, stages[|steps| - 1], snapshot, memory)
    ensures Holds(cwd, stages[|steps|], snapshot, memory)
    ensures stages[|steps|].data.configurationData == stages[|steps| - 1].data.configurationData
  {
    var n := |steps| - 1;
    StepKeepsIff(cwd, steps[n], stages[n], snapshot, memory);
    assert StepHappens(cwd, steps[n], stages[n], stages[n + 1]);
  }

  /** Whatever is copied and moved, with success or not, in safe steps: the current files hold the original contents. */
  lemma {:induction false} HistoryKeepsContents(cwd: Key, steps: seq<SnapshotStep>, stages: seq<Stage>,
                                                snapshot: string, memory: string)
    requires History(cwd, steps, stages) && Holds(cwd, stages[0], snapshot, memory)
    ensures Holds(cwd, stages[|steps|], snapshot, memory)
    ensures stages[|steps|].data.configurationData == stages[0].data.configurationData
    decreases |steps|
  {
    if steps == [] {
    } else {
      var n := |steps| - 1;
      HistoryKeepsContents(cwd, steps[..n], stages[..n + 1], snapshot, memory);
      LastStep(cwd, steps, stages, snapshot, memory);
    }
  }
}
