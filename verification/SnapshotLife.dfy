/**
 The life of a snapshot across VMs: taken by one, copied and moved, surviving the cleanup of its source, and the start
 of another.
 */
module SnapshotLife {
  import opened Wrappers
  import opened Filesystem
  import opened Inodes
  import opened HostMachine
  import opened ExecutorTypes
  import opened Executors
  import opened Configuration
  import opened PathRewriting
  import opened VmTypes
  import opened VmPrepare
  import opened VmMachine
  import opened VmRuns
  import opened SnapshotTraces
  import opened Snapshots
  import V = VmCleanup
  import J = Jailed
  import U = Unrestricted

  /** In step `i` of the run the VM returned this snapshot. */
  predicate TookSnapshot(x: Context, o: Origin, run: seq<Event>, i: nat, s: SnapshotData)
    requires i < |run|
  {
    match run[i]
    case TakeSnapshot(m, r, snapshot, memFile) =>
      CreateSnapshot(x, AfterRun(x, Begin(o), run[..i]), m, r, snapshot, memFile).1 == Ok(s)
    case _ => false
  }

  /** The files of every snapshot of a run are on record, and its data is what the VM was configured with. */
  lemma {:induction false} SnapshotIsOnRecord(x: Context, o: Origin, run: seq<Event>, i: nat, s: SnapshotData)
    requires i < |run| && TookSnapshot(x, o, run, i, s)
    ensures s.snapshotPath in FilesOfRun(x, Begin(o), run) && s.memFilePath in FilesOfRun(x, Begin(o), run)
    ensures s.configurationData == o.data
  {
    var shorter := run[..|run| - 1];
    if i < |shorter| {
      assert shorter[..i] == run[..i];
      SnapshotIsOnRecord(x, o, shorter, i, s);
    } else {
      RunKeepsSound(x, o.configuration, Begin(o), shorter);
      var e := run[i];
      SnapshotDescribes(x, AfterRun(x, Begin(o), shorter), e.m, e.r, e.snapshot, e.memFile);
      assert [s.snapshotPath, s.memFilePath] == FilesOf(x, AfterRun(x, Begin(o), shorter), e);
      assert s.snapshotPath == FilesOf(x, AfterRun(x, Begin(o), shorter), e)[0];
      assert s.memFilePath == FilesOf(x, AfterRun(x, Begin(o), shorter), e)[1];
    }
  }

  // ---------------------------------------------------------------- surviving the cleanup of the source

  /** All locations that a cleanup after the run removes, if there are files. */
  function RemovedByCleanup(x: Context, e: U.UnrestrictedExecutor, o: Origin, run: seq<Event>, cwd: Key, t: Tree):
    set<Key>
  {
    U.SocketKey(cwd, e) + U.FlaggedKeys(cwd, e) + V.FileKeys(t, cwd, V.LeftByRun(x, o, run))
  }

  /**
   * Without a jail: after any history of copies and moves, the snapshot survives the cleanup of its source VM with its
   * original contents exactly when neither current file is one that the cleanup removes.
   */
  lemma SurvivesCleanupIff(x: Context, e: U.UnrestrictedExecutor, o: Origin, run: seq<Event>, host: Host,
                           steps: seq<SnapshotStep>, stages: seq<Stage>, snapshot: string, memory: string, t: Disk)
    requires History(host.cwd, steps, stages) && Holds(host.cwd, stages[0], snapshot, memory)
    requires var vm := AfterRun(x, Begin(o), run).vm;
             V.CleanedTree(UnrestrictedKind(e), host, x.installation, vm, stages[|steps|].disk.tree, t.tree)
    requires !o.traceless && !WasCleaned(x, Begin(o), run)
    requires V.FileKeys(stages[|steps|].disk.tree, host.cwd, V.LeftByRun(x, o, run)) <= host.deletable
    ensures var end := stages[|steps|]; var removed := RemovedByCleanup(x, e, o, run, host.cwd, end.disk.tree);
            Holds(host.cwd, Stage(t, end.data), snapshot, memory)
            <==> At1(host.cwd, end.data) !in removed && At2(host.cwd, end.data) !in removed
  {
    HistoryKeepsContents(host.cwd, steps, stages, snapshot, memory);
    V.CleanupAfterRunIsExact(x, e, o, run, host, stages[|steps|].disk.tree, t.tree);
  }

  /** A snapshot that stays where the VM wrote it is lost with the VM. */
  lemma UnmovedIsLost(x: Context, e: U.UnrestrictedExecutor, o: Origin, run: seq<Event>, i: nat, s: SnapshotData,
                      host: Host, t0: Tree, t: Disk, snapshot: string, memory: string)
    requires i < |run| && TookSnapshot(x, o, run, i, s) && !o.traceless && !WasCleaned(x, Begin(o), run)
    requires V.CleanedTree(UnrestrictedKind(e), host, x.installation, AfterRun(x, Begin(o), run).vm, t0, t.tree)
    requires V.FileKeys(t0, host.cwd, V.LeftByRun(x, o, run)) <= host.deletable
    ensures !Holds(host.cwd, Stage(t, s), snapshot, memory)
  {
    SnapshotIsOnRecord(x, o, run, i, s);
    V.CleanupAfterRunIsExact(x, e, o, run, host, t0, t.tree);
    assert s.snapshotPath in V.LeftByRun(x, o, run);
    assert IsFile(t0, At1(host.cwd, s)) ==> At1(host.cwd, s) in V.FileKeys(t0, host.cwd, V.LeftByRun(x, o, run));
  }

  /** With a jail: exactly when neither current file lies under the directory of the VM's identifier. */
  lemma SurvivesJailIff(e: J.JailedExecutor, installation: VmmInstallation, host: Host, vm: Vm,
                        steps: seq<SnapshotStep>, stages: seq<Stage>, snapshot: string, memory: string, t: Disk)
    requires History(host.cwd, steps, stages) && Holds(host.cwd, stages[0], snapshot, memory) && vm.traceless
    requires V.CleanedTree(JailedKind(e), host, installation, vm, stages[|steps|].disk.tree, t.tree)
    ensures var end, jail := stages[|steps|], Resolve(host.cwd, e.JailPath(installation));
            && jail != []
            && (Holds(host.cwd, Stage(t, end.data), snapshot, memory)
                <==> !(Up(jail) <= At1(host.cwd, end.data)) && !(Up(jail) <= At2(host.cwd, end.data)))
  {
    HistoryKeepsContents(host.cwd, steps, stages, snapshot, memory);
    var jail := Resolve(host.cwd, e.JailPath(installation));
    assert t.tree == RemoveTree(stages[|steps|].disk.tree, Up(jail));
  }

  /** Every snapshot that a jailed VM takes is under that directory until it is copied or moved out. */
  lemma JailedSnapshotStartsInside(e: J.JailedExecutor, x: Context, o: Origin, run: seq<Event>, i: nat,
                                   s: SnapshotData, cwd: Key)
    requires x.executor == JailedKind(e) && i < |run| && TookSnapshot(x, o, run, i, s)
    ensures var jail := Resolve(cwd, e.JailPath(x.installation));
            jail != [] && Up(jail) <= At1(cwd, s) && Up(jail) <= At2(cwd, s)
  {
    var c := run[i];
    var jail := Resolve(cwd, e.JailPath(x.installation));
    SnapshotDescribes(x, AfterRun(x, Begin(o), run[..i]), c.m, c.r, c.snapshot, c.memFile);
    J.JailPathShape(e, x.installation);
    J.ResolveJailJoin(cwd, e.JailPath(x.installation), c.snapshot);
    J.ResolveJailJoin(cwd, e.JailPath(x.installation), c.memFile);
  }

  // ---------------------------------------------------------------- the next VM

  /** The two places where a restored VM finds its snapshot and its memory. */
  function SnapshotPlace(ex: Executor, cwd: Key, installation: VmmInstallation, c: VmConfiguration): Key
    requires c.RestoredFromSnapshot?
  {
    Resolve(cwd, ex.InnerToOuter(installation, c.loadSnapshot.snapshotPath))
  }

  function MemoryPlace(ex: Executor, cwd: Key, installation: VmmInstallation, c: VmConfiguration): Key
    requires c.RestoredFromSnapshot?
  {
    Resolve(cwd, ex.InnerToOuter(installation, c.loadSnapshot.backendPath))
  }

  lemma PathsOfRestored(c: VmConfiguration)
    requires c.RestoredFromSnapshot?
    ensures var paths := ResourcePaths(c);
            && |paths| >= 2
            && paths[|paths| - 2] == c.loadSnapshot.snapshotPath && paths[|paths| - 1] == c.loadSnapshot.backendPath
  {
  }

  /** Unless a device file has been created over them, both places hold these contents. */
  ghost predicate SeenBy(ex: Executor, cwd: Key, installation: VmmInstallation, d: VmConfiguration, t: Disk,
                         files: set<Key>, snapshot: string, memory: string)
    requires d.RestoredFromSnapshot?
  {
    var k1, k2 := SnapshotPlace(ex, cwd, installation, d), MemoryPlace(ex, cwd, installation, d);
    && k1 in t.tree && t.tree[k1] == File(if Names(t, files, k1) then "" else snapshot)
    && k2 in t.tree && t.tree[k2] == File(if Names(t, files, k2) then "" else memory)
  }

  /**
   * From snapshot to restored VM: a VM prepared from the configuration of a snapshot that still holds its contents
   * finds them at its rewritten paths, and starts from the data its source was configured with, before any rewriting.
   */
  lemma RestoredVmSeesTheSnapshot(ex: Executor, cwd: Key, installation: VmmInstallation, a: Stage,
                                  resume: Option<bool>, diff: Option<bool>, t: Disk, original: VmConfigurationData,
                                  d: VmConfiguration, accessible: AccessiblePaths, snapshot: string, memory: string)
    requires var c := AsConfiguration(a.data, resume, diff);
             && IsPrepared(ex, cwd, installation, c, a.disk, t, original, d, accessible)
             && ResourcesApart(ex, cwd, installation, ResourcePaths(c), a.disk)
    requires Holds(cwd, a, snapshot, memory)
    ensures original == a.data.configurationData && d.RestoredFromSnapshot?
    ensures d.loadSnapshot.resumeVm == resume && d.loadSnapshot.enableDiffSnapshots == diff
    ensures d.loadSnapshot.backendType == FileBackend
    ensures SeenBy(ex, cwd, installation, d, t, DeviceFiles(ex, cwd, installation, a.data.configurationData),
                   snapshot, memory)
  {
    var c := AsConfiguration(a.data, resume, diff);
    var n := |ResourcePaths(c)|;
    PathsOfRestored(c);
    RewrittenPathsReachOriginals(ex, cwd, installation, c, a.disk, t, original, d, accessible, n - 2);
    RewrittenPathsReachOriginals(ex, cwd, installation, c, a.disk, t, original, d, accessible, n - 1);
    PathsOfRestored(d);
  }

  /** The cleanup of a VM after its run, and a stage of a snapshot whose current files it does not reach. */
  ghost predicate OutOfReach(x: Context, o: Origin, run: seq<Event>, host: Host, a: Stage, cleaned: Disk) {
    && V.CleanedTree(x.executor, host, x.installation, AfterRun(x, Begin(o), run).vm, a.disk.tree, cleaned.tree)
    && match x.executor
       case JailedKind(e) =>
         var jail := Resolve(host.cwd, e.JailPath(x.installation));
         o.traceless && jail != [] && !(Up(jail) <= At1(host.cwd, a.data)) && !(Up(jail) <= At2(host.cwd, a.data))
       case UnrestrictedKind(e) =>
         var removed := RemovedByCleanup(x, e, o, run, host.cwd, a.disk.tree);
         && !o.traceless && !WasCleaned(x, Begin(o), run)
         && V.FileKeys(a.disk.tree, host.cwd, V.LeftByRun(x, o, run)) <= host.deletable
         && At1(host.cwd, a.data) !in removed && At2(host.cwd, a.data) !in removed
  }

  lemma OutOfReachSurvives(x: Context, o: Origin, run: seq<Event>, host: Host, steps: seq<SnapshotStep>,
                           stages: seq<Stage>, cleaned: Disk, snapshot: string, memory: string)
    requires History(host.cwd, steps, stages) && Holds(host.cwd, stages[0], snapshot, memory)
    requires OutOfReach(x, o, run, host, stages[|steps|], cleaned)
    ensures Holds(host.cwd, Stage(cleaned, stages[|steps|].data), snapshot, memory)
  {
    match x.executor
    case UnrestrictedKind(e) => SurvivesCleanupIff(x, e, o, run, host, steps, stages, snapshot, memory, cleaned);
    case JailedKind(e) =>
      RunKeepsSound(x, o.configuration, Begin(o), run);
      SurvivesJailIff(e, x.installation, host, AfterRun(x, Begin(o), run).vm, steps, stages, snapshot, memory, cleaned);
  }

  /**
   * The whole life of a snapshot, with either executor: taken in some step of a run, copied and moved to where the
   * cleanup of its source does not reach, it is what the next VM finds, which starts from the data its source had.
   */
  lemma SnapshotReachesSuccessor(x: Context, o: Origin, run: seq<Event>, i: nat, s: SnapshotData, host: Host,
                                 steps: seq<SnapshotStep>, stages: seq<Stage>, snapshot: string, memory: string,
                                 cleaned: Disk, next: Context, resume: Option<bool>, diff: Option<bool>, t: Disk,
                                 original: VmConfigurationData, d: VmConfiguration, accessible: AccessiblePaths)
    requires i < |run| && TookSnapshot(x, o, run, i, s)
    requires History(host.cwd, steps, stages) && stages[0].data == s && Holds(host.cwd, stages[0], snapshot, memory)
    requires OutOfReach(x, o, run, host, stages[|steps|], cleaned)
    requires var c := AsConfiguration(stages[|steps|].data, resume, diff);
             && IsPrepared(next.executor, host.cwd, next.installation, c, cleaned, t, original, d, accessible)
             && ResourcesApart(next.executor, host.cwd, next.installation, ResourcePaths(c), cleaned)
    ensures original == o.data && d.RestoredFromSnapshot? && d.loadSnapshot.resumeVm == resume
    ensures SeenBy(next.executor, host.cwd, next.installation, d, t,
                   DeviceFiles(next.executor, host.cwd, next.installation, o.data), snapshot, memory)
  {
    var end := Stage(cleaned, stages[|steps|].data);
    SnapshotIsOnRecord(x, o, run, i, s);
    HistoryKeepsContents(host.cwd, steps, stages, snapshot, memory);
    OutOfReachSurvives(x, o, run, host, steps, stages, cleaned, snapshot, memory);
    RestoredVmSeesTheSnapshot(next.executor, host.cwd, next.installation, end, resume, diff, t, original, d,
                              accessible, snapshot, memory);
  }

  /** One VM in a line of VMs: what it was prepared from, its run, and the snapshot it took in step `taken`. */
  datatype Generation = Generation(x: Context, origin: Origin, run: seq<Event>, taken: nat, snapshot: SnapshotData)

  /** The second VM was prepared from the first one's snapshot, wherever that had been copied or moved. */
  ghost predicate Restores(cwd: Key, a: Generation, b: Generation) {
    exists steps, stages, resume, diff, d0, t :: RestoredVia(cwd, a, b, steps, stages, resume, diff, d0, t)
  }

  ghost predicate RestoredVia(cwd: Key, a: Generation, b: Generation, steps: seq<SnapshotStep>, stages: seq<Stage>,
                              resume: Option<bool>, diff: Option<bool>, d0: Disk, t: Disk) {
    && History(cwd, steps, stages) && stages[0].data == a.snapshot
    && IsPrepared(b.x.executor, cwd, b.x.installation, AsConfiguration(stages[|steps|].data, resume, diff), d0, t,
                  b.origin.data, b.origin.configuration, b.origin.paths)
  }

  lemma {:induction false} HistoryKeepsData(cwd: Key, steps: seq<SnapshotStep>, stages: seq<Stage>)
    requires History(cwd, steps, stages)
    ensures stages[|steps|].data.configurationData == stages[0].data.configurationData
    decreases |steps|
  {
    if steps == [] {
    } else {
      var n := |steps| - 1;
      HistoryKeepsData(cwd, steps[..n], stages[..n + 1]);
      assert StepHappens(cwd, steps[n], stages[n], stages[n + 1]);
    }
  }

  /** Each VM but the first was prepared from a snapshot that the one before took. */
  ghost predicate Lineage(cwd: Key, line: seq<Generation>) {
    && (forall i :: 0 <= i < |line| ==> Took(line[i]))
    && (forall i :: 0 < i < |line| ==> Restores(cwd, line[i - 1], line[i]))
  }

  predicate Took(g: Generation) {
    g.taken < |g.run| && TookSnapshot(g.x, g.origin, g.run, g.taken, g.snapshot)
  }

  lemma TakingKeepsData(g: Generation)
    requires Took(g)
    ensures g.snapshot.configurationData == g.origin.data
  {
    SnapshotIsOnRecord(g.x, g.origin, g.run, g.taken, g.snapshot);
  }

  lemma RestoringKeepsData(cwd: Key, a: Generation, b: Generation)
    requires Restores(cwd, a, b)
    ensures b.origin.data == a.snapshot.configurationData
  {
    var steps, stages, resume, diff, d0, t :| RestoredVia(cwd, a, b, steps, stages, resume, diff, d0, t);
    HistoryKeepsData(cwd, steps, stages);
  }

  /** The configuration data never drifts: every VM of the line has the data of the first. */
  lemma GenerationsKeepData(cwd: Key, line: seq<Generation>, n: nat)
    requires Lineage(cwd, line) && n < |line|
    ensures line[n].origin.data == line[0].origin.data
    ensures line[n].snapshot.configurationData == line[0].origin.data
  {
    var data := seq(|line|, i requires 0 <= i < |line| => line[i].origin.data);
    forall i | 0 < i < |data|
      ensures data[i] == data[i - 1]
    {
      SnapshotOfLine(cwd, line, i - 1);
      NextOfLine(cwd, line, i);
    }
    NeverDrifts(data, n);
    SnapshotOfLine(cwd, line, n);
  }

  lemma {:induction false} NeverDrifts(data: seq<VmConfigurationData>, n: nat)
    requires n < |data| && forall i :: 0 < i < |data| ==> data[i] == data[i - 1]
    ensures data[n] == data[0]
  {
    if n == 0 {
    } else {
      NeverDrifts(data, n - 1);
    }
  }

  lemma SnapshotOfLine(cwd: Key, line: seq<Generation>, n: nat)
    requires Lineage(cwd, line) && n < |line|
    ensures line[n].snapshot.configurationData == line[n].origin.data
  {
    TakingKeepsData(line[n]);
  }

  lemma NextOfLine(cwd: Key, line: seq<Generation>, n: nat)
    requires Lineage(cwd, line) && 0 < n < |line|
    ensures line[n].origin.data == line[n - 1].snapshot.configurationData
  {
    RestoringKeepsData(cwd, line[n - 1], line[n]);
  }
}
