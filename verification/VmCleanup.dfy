/** Cleaning up after a VM: first the executor, then, unless that leaves no traces, the files the VM knows of. */
module VmCleanup {
  import opened Wrappers
  import opened Paths
  import opened Filesystem
  import opened HostMachine
  import opened ExecutorTypes
  import opened Executors
  import opened Process
  import opened VmTypes
  import opened VmMachine
  import opened Shutdown
  import opened VmRuns
  import opened SnapshotTraces
  import R = PathRewriting
  import U = Unrestricted

  /** Log, metrics and vsock paths; listeners belong to the multiplexer and are left alone without it. */
  function DeviceTargets(a: AccessiblePaths): seq<PathBuf> {
    R.OptionalPath(a.logPath) + R.OptionalPath(a.metricsPath)
    + (if a.vsockMultiplexerPath.Some? then [a.vsockMultiplexerPath.value] + a.vsockListenerPaths else [])
  }

  function Reversed(s: seq<PathBuf>): (r: seq<PathBuf>)
    ensures forall p :: p in r <==> p in s
  {
    if s == [] then [] else [s[|s| - 1]] + Reversed(s[..|s| - 1])
  }

  /** The removals in the order in which they are spawned: traces are popped from the end. */
  function Targets(vm: Vm): seq<PathBuf> {
    DeviceTargets(vm.accessible) + Reversed(vm.snapshotTraces)
  }

  /** The locations of those paths that lead to files. */
  function FileKeys(t: Tree, cwd: Key, paths: seq<PathBuf>): set<Key> {
    set p | p in paths && IsFile(t, Resolve(cwd, p)) :: Resolve(cwd, p)
  }

  /** The join set: spawned removals complete in any order, and their errors are ignored. */
  method RemoveAll(host: Host, tasks: seq<PathBuf>) returns (ghost gone: set<Key>)
    modifies host
    ensures host.disk.tree == old(host.disk).tree - gone && gone <= FileKeys(old(host.disk).tree, host.cwd, tasks)
    ensures FileKeys(old(host.disk).tree, host.cwd, tasks) * host.deletable <= gone
  {
    ghost var t := host.disk.tree;
    gone := {};
    var pending := tasks;
    while pending != []
      invariant forall p :: p in pending ==> p in tasks
      invariant host.disk.tree == t - gone && gone <= FileKeys(t, host.cwd, tasks)
      invariant forall p :: p in tasks && p !in pending && IsFile(t, host.At(p)) && host.At(p) in host.deletable ==>
                  host.At(p) in gone
      decreases |pending|
    {
      var i: int := *;
      if !(0 <= i < |pending|) {
        i := 0;
      }
      var path := pending[i];
      var ok := host.RemoveFile(path);
      if ok {
        gone := gone + {host.At(path)};
      }
      assert forall p :: p in pending ==> p == path || p in pending[..i] + pending[i + 1..];
      pending := pending[..i] + pending[i + 1..];
    }
  }

  /** `VmmProcess::cleanup`, with the executor's own work on the host. */
  method CleanupProcess(ex: Executor, process: VmmProcess, host: Host, installation: VmmInstallation, m: Moment)
    returns (out: Outcome<()>, ghost cleaned: Result<(), ExecutorError>)
    modifies host, process
    ensures (process.View(), out) == Process.Cleanup(old(process.View()), m, cleaned)
    ensures out.Succeeds() ==> ExecutorCleaned(ex, host.cwd, installation, old(host.disk).tree, host.disk.tree)
    ensures host.obliging && CanClean(ex, host.cwd, installation, old(host.disk).tree) ==> cleaned.Ok?
    ensures !process.View().state.Terminal() ==> host.disk.tree == old(host.disk).tree
  {
    process.UpdateState(m);
    cleaned := Ok(());
    if !process.state.Terminal() {
      return Bad(ExpectedExitedOrCrashed(process.state)), cleaned;
    }
    var r := Executors.Cleanup(ex, host, installation);
    cleaned := r;
    match r {
      case Err(error) => out := Bad(ExecutorFailed(error));
      case Ok(_) => out := Good(());
    }
  }

  /** The removals that `cleanup` spawns; the traces are taken out of the VM on the way. */
  method SpawnRemovals(vm: VmObject) returns (tasks: seq<PathBuf>)
    modifies vm
    ensures tasks == Targets(old(vm.View()).vm)
    ensures vm.View() == old(vm.View()).(vm := old(vm.View()).vm.(snapshotTraces := []))
  {
    tasks := [];
    if vm.accessible.logPath.Some? {
      tasks := tasks + [vm.accessible.logPath.value];
    }
    if vm.accessible.metricsPath.Some? {
      tasks := tasks + [vm.accessible.metricsPath.value];
    }
    if vm.accessible.vsockMultiplexerPath.Some? {
      tasks := tasks + [vm.accessible.vsockMultiplexerPath.value];
      var listeners := vm.accessible.vsockListenerPaths;
      ghost var before := tasks;
      for i := 0 to |listeners|
        invariant tasks == before + listeners[..i]
      {
        tasks := tasks + [listeners[i]];
      }
    }
    assert tasks == DeviceTargets(vm.accessible);
    ghost var all := tasks + Reversed(vm.snapshotTraces);
    while vm.snapshotTraces != []
      invariant tasks + Reversed(vm.snapshotTraces) == all
      invariant vm.View() == old(vm.View()).(vm := old(vm.View()).vm.(snapshotTraces := vm.snapshotTraces))
      decreases |vm.snapshotTraces|
    {
      var n := |vm.snapshotTraces| - 1;
      var path := vm.snapshotTraces[n];
      assert Reversed(vm.snapshotTraces) == [path] + Reversed(vm.snapshotTraces[..n]);
      vm.snapshotTraces := vm.snapshotTraces[..n];
      tasks := tasks + [path];
    }
  }

  /** How the tree may look after a cleanup that returned Ok. */
  ghost predicate CleanedTree(ex: Executor, host: Host, installation: VmmInstallation, vm: Vm, t0: Tree, t: Tree) {
    exists after, gone ::
      && ExecutorCleaned(ex, host.cwd, installation, t0, after)
      && t == after - gone
      && RemovedByVm(host, vm, after, gone)
  }

  predicate RemovedByVm(host: Host, vm: Vm, after: Tree, gone: set<Key>) {
    if vm.traceless then gone == {}
    else
      && gone <= FileKeys(after, host.cwd, Targets(vm))
      && FileKeys(after, host.cwd, Targets(vm)) * host.deletable <= gone
  }

  /** `cleanup`. */
  method CleanupVm(ex: Executor, vm: VmObject, host: Host, installation: VmmInstallation, m: Moment, second: Moment)
    returns (result: Result<(), VmError>, ghost cleaned: Result<(), ExecutorError>)
    modifies vm, vm.process, host
    ensures (vm.View(), result) == CleanUp(old(vm.View()), m, second, cleaned)
    ensures host.obliging && CanClean(ex, host.cwd, installation, old(host.disk).tree) ==> cleaned.Ok?
    ensures result.Ok? ==> CleanedTree(ex, host, installation, old(vm.View()).vm, old(host.disk).tree, host.disk.tree)
    ensures !ExitedOrCrashed(VmStateOf(Look(old(vm.View()), m).vm)) ==> host.disk.tree == old(host.disk).tree
  {
    cleaned := Ok(());
    ghost var was := vm.View().vm;
    var s := vm.State(m);
    if !ExitedOrCrashed(s) {
      return Err(VmExpectedExitedOrCrashed(s)), cleaned;
    }
    ghost var t0 := host.disk.tree;
    var out;
    out, cleaned := CleanupProcess(ex, vm.process, host, installation, second);
    result := ToVm(out);
    if result.Err? {
      return;
    }
    ghost var after := host.disk.tree;
    if vm.traceless {
      assert after == after - {} && RemovedByVm(host, was, after, {});
      return;
    }
    assert Targets(vm.View().vm) == Targets(was);
    var tasks := SpawnRemovals(vm);
    ghost var gone := RemoveAll(host, tasks);
    assert RemovedByVm(host, was, after, gone);
  }

  // ---------------------------------------------------------------- exactness

  /**
   * For an executor without a jail: with deletions permitted, what is gone afterwards is the API socket, the files the
   * executor was told to remove, and every target of the VM that was a file.  Nothing else has changed.
   */
  lemma CleanupIsExact(e: U.UnrestrictedExecutor, host: Host, installation: VmmInstallation, vm: Vm, t0: Tree, t: Tree)
    requires CleanedTree(UnrestrictedKind(e), host, installation, vm, t0, t) && !vm.traceless
    requires FileKeys(t0, host.cwd, Targets(vm)) <= host.deletable
    ensures t == t0 - (U.SocketKey(host.cwd, e) + U.FlaggedKeys(host.cwd, e)
                       + FileKeys(t0, host.cwd, Targets(vm)))
  {
    var after, gone :|
      && ExecutorCleaned(UnrestrictedKind(e), host.cwd, installation, t0, after)
      && t == after - gone
      && RemovedByVm(host, vm, after, gone);
    var first := U.SocketKey(host.cwd, e) + U.FlaggedKeys(host.cwd, e);
    FilesLeft(t0, first, host.cwd, Targets(vm));
    assert gone == FileKeys(after, host.cwd, Targets(vm));
  }

  lemma FilesLeft(t: Tree, removed: set<Key>, cwd: Key, paths: seq<PathBuf>)
    ensures FileKeys(t - removed, cwd, paths) == FileKeys(t, cwd, paths) - removed
  {
    var left := t - removed;
    forall k
      ensures k in FileKeys(left, cwd, paths) <==> k in FileKeys(t, cwd, paths) - removed
    {
      if k in FileKeys(t, cwd, paths) - removed {
        var p :| p in paths && IsFile(t, Resolve(cwd, p)) && Resolve(cwd, p) == k;
        assert IsFile(left, Resolve(cwd, p));
      }
      if k in FileKeys(left, cwd, paths) {
        var p :| p in paths && IsFile(left, Resolve(cwd, p)) && Resolve(cwd, p) == k;
        assert IsFile(t, Resolve(cwd, p));
      }
    }
  }

  /** The listeners registered in a run, in order. */
  function ListenersOfRun(run: seq<Event>): seq<PathBuf> {
    if run == [] then []
    else
      var last := run[|run| - 1];
      ListenersOfRun(run[..|run| - 1]) + if last.ListenerCall? then [last.path] else []
  }

  lemma {:induction false} AccessibleOfRun(x: Context, w: World, run: seq<Event>)
    ensures var paths := w.vm.accessible;
            AfterRun(x, w, run).vm.accessible
            == paths.(vsockListenerPaths := paths.vsockListenerPaths + ListenersOfRun(run))
  {
    if run == [] {
    } else {
      var shorter := run[..|run| - 1];
      AccessibleOfRun(x, w, shorter);
      StepKeepsRecord(x, AfterRun(x, w, shorter), run[|run| - 1]);
    }
  }

  /** What a run has left for a cleanup: device files, listeners, and both files of every snapshot returned. */
  function LeftByRun(x: Context, o: Origin, run: seq<Event>): seq<PathBuf> {
    var paths := o.paths.(vsockListenerPaths := o.paths.vsockListenerPaths + ListenersOfRun(run));
    DeviceTargets(paths) + FilesOfRun(x, Begin(o), run)
  }

  lemma SamePathsSameKeys(t: Tree, cwd: Key, a: seq<PathBuf>, b: seq<PathBuf>)
    requires forall p :: p in a <==> p in b
    ensures FileKeys(t, cwd, a) == FileKeys(t, cwd, b)
  {
  }

  /** The same over whole runs: the first successful cleanup removes exactly what the run has left. */
  lemma CleanupAfterRunIsExact(x: Context, e: U.UnrestrictedExecutor, o: Origin, run: seq<Event>, host: Host,
                               t0: Tree, t: Tree)
    requires !o.traceless && !WasCleaned(x, Begin(o), run)
    requires CleanedTree(UnrestrictedKind(e), host, x.installation, AfterRun(x, Begin(o), run).vm, t0, t)
    requires FileKeys(t0, host.cwd, LeftByRun(x, o, run)) <= host.deletable
    ensures t == t0 - (U.SocketKey(host.cwd, e) + U.FlaggedKeys(host.cwd, e)
                       + FileKeys(t0, host.cwd, LeftByRun(x, o, run)))
  {
    var vm := AfterRun(x, Begin(o), run).vm;
    TracesAreTheSnapshots(x, o, run);
    AccessibleOfRun(x, Begin(o), run);
    RunKeepsSound(x, o.configuration, Begin(o), run);
    SamePathsSameKeys(t0, host.cwd, Targets(vm), LeftByRun(x, o, run));
    CleanupIsExact(e, host, x.installation, vm, t0, t);
  }

  // ---------------------------------------------------------------- exactness, field by field

  /** The API socket is at `k`, or a file there that the executor was told to remove. */
  predicate IsExecutors(cwd: Key, e: U.UnrestrictedExecutor, k: Key) {
    || (e.vmm.apiSocket.Enabled? && k == Resolve(cwd, Parse(e.vmm.apiSocket.path)))
    || (e.removeLogsOnCleanup && e.vmm.logPath.Some? && k == Resolve(cwd, Parse(e.vmm.logPath.value)))
    || (e.removeMetricsOnCleanup && e.vmm.metricsPath.Some? && k == Resolve(cwd, Parse(e.vmm.metricsPath.value)))
  }

  /** The path leads to `k`. */
  predicate LeadsTo(cwd: Key, path: Option<PathBuf>, k: Key) {
    path.Some? && Resolve(cwd, path.value) == k
  }

  /** A device of the VM writes at `k`, or listens there while there is a multiplexer. */
  ghost predicate IsDevices(cwd: Key, a: AccessiblePaths, k: Key) {
    || LeadsTo(cwd, a.logPath, k) || LeadsTo(cwd, a.metricsPath, k) || LeadsTo(cwd, a.vsockMultiplexerPath, k)
    || (a.vsockMultiplexerPath.Some? && exists p :: p in a.vsockListenerPaths && Resolve(cwd, p) == k)
  }

  ghost predicate IsTrace(cwd: Key, traces: seq<PathBuf>, k: Key) {
    exists p :: p in traces && Resolve(cwd, p) == k
  }

  lemma DeviceKeys(t: Tree, cwd: Key, vm: Vm, k: Key)
    ensures k in FileKeys(t, cwd, Targets(vm))
            <==> IsFile(t, k) && (IsDevices(cwd, vm.accessible, k) || IsTrace(cwd, vm.snapshotTraces, k))
  {
    DevicePaths(cwd, vm.accessible, k);
    if IsTrace(cwd, vm.snapshotTraces, k) {
      var p :| p in vm.snapshotTraces && Resolve(cwd, p) == k;
      assert p in Targets(vm);
    }
    if IsDevices(cwd, vm.accessible, k) {
      var p :| p in DeviceTargets(vm.accessible) && Resolve(cwd, p) == k;
      assert p in Targets(vm);
    }
  }

  lemma DevicePaths(cwd: Key, a: AccessiblePaths, k: Key)
    ensures IsDevices(cwd, a, k) <==> exists p :: p in DeviceTargets(a) && Resolve(cwd, p) == k
  {
    if a.logPath.Some? {
      assert a.logPath.value in DeviceTargets(a);
    }
    if a.metricsPath.Some? {
      assert a.metricsPath.value in DeviceTargets(a);
    }
    if a.vsockMultiplexerPath.Some? {
      assert a.vsockMultiplexerPath.value in DeviceTargets(a);
      assert forall p :: p in a.vsockListenerPaths ==> p in DeviceTargets(a);
    }
  }

  /** Deleting the files of the VM is permitted. */
  ghost predicate MayDelete(host: Host, a: AccessiblePaths, traces: seq<PathBuf>) {
    forall k :: IsDevices(host.cwd, a, k) || IsTrace(host.cwd, traces, k) ==> k in host.deletable
  }

  /** Of `t0` exactly the socket, the flagged files and the files of devices and traces are gone. */
  ghost predicate OnlyItsFilesAreGone(e: U.UnrestrictedExecutor, cwd: Key, a: AccessiblePaths, traces: seq<PathBuf>,
                                      t0: Tree, t: Tree) {
    && (forall k :: k in t ==> k in t0 && t[k] == t0[k])
    && (forall k :: k in t0 ==>
          (k !in t <==> IsExecutors(cwd, e, k)
                        || (IsFile(t0, k) && (IsDevices(cwd, a, k) || IsTrace(cwd, traces, k)))))
  }

  lemma ExecutorKeys(cwd: Key, e: U.UnrestrictedExecutor, k: Key)
    ensures k in U.SocketKey(cwd, e) + U.FlaggedKeys(cwd, e) <==> IsExecutors(cwd, e, k)
  {
  }

  /**
   * A cleanup removes every file that a field of the VM or of its executor names, and no other: a listener goes only
   * if there is a multiplexer, a log or metrics file of the arguments only if its own flag is set.
   */
  lemma CleanupRemovesItsFiles(e: U.UnrestrictedExecutor, host: Host, installation: VmmInstallation, vm: Vm, t0: Tree,
                               t: Tree)
    requires CleanedTree(UnrestrictedKind(e), host, installation, vm, t0, t) && !vm.traceless
    requires MayDelete(host, vm.accessible, vm.snapshotTraces)
    ensures OnlyItsFilesAreGone(e, host.cwd, vm.accessible, vm.snapshotTraces, t0, t)
  {
    forall k
      ensures k in FileKeys(t0, host.cwd, Targets(vm))
              <==> IsFile(t0, k) && (IsDevices(host.cwd, vm.accessible, k) || IsTrace(host.cwd, vm.snapshotTraces, k))
      ensures k in U.SocketKey(host.cwd, e) + U.FlaggedKeys(host.cwd, e) <==> IsExecutors(host.cwd, e, k)
    {
      DeviceKeys(t0, host.cwd, vm, k);
      ExecutorKeys(host.cwd, e, k);
    }
    CleanupIsExact(e, host, installation, vm, t0, t);
  }

  lemma {:induction false} ListenersAreRegistered(run: seq<Event>, p: PathBuf)
    ensures p in ListenersOfRun(run) <==> ListenerCall(p) in run
  {
    if run == [] {
    } else {
      var shorter, last := run[..|run| - 1], run[|run| - 1];
      ListenersAreRegistered(shorter, p);
      assert run == shorter + [last];
    }
  }

  /** A file of a snapshot that was returned in some step of the run. */
  predicate WasReturned(x: Context, o: Origin, run: seq<Event>, p: PathBuf) {
    run != []
    && (WasReturned(x, o, run[..|run| - 1], p)
        || ReturnedIn(x, AfterRun(x, Begin(o), run[..|run| - 1]), run[|run| - 1], p))
  }

  predicate ReturnedIn(x: Context, w: World, e: Event, p: PathBuf) {
    match e
    case TakeSnapshot(m, r, snapshot, memFile) =>
      CreateSnapshot(x, w, m, r, snapshot, memFile).1.Ok? && (p == x.Outer(snapshot) || p == x.Outer(memFile))
    case _ => false
  }

  lemma FilesOfStep(x: Context, w: World, e: Event, p: PathBuf)
    ensures p in FilesOf(x, w, e) <==> ReturnedIn(x, w, e, p)
  {
    if e.TakeSnapshot? {
      SnapshotDescribes(x, w, e.m, e.r, e.snapshot, e.memFile);
    }
  }

  lemma {:induction false} TracesWereReturned(x: Context, o: Origin, run: seq<Event>, p: PathBuf)
    ensures p in FilesOfRun(x, Begin(o), run) <==> WasReturned(x, o, run, p)
  {
    if run == [] {
    } else {
      var n := |run| - 1;
      TracesWereReturned(x, o, run[..n], p);
      FilesOfStep(x, AfterRun(x, Begin(o), run[..n]), run[n], p);
    }
  }

  /** What a whole run has left at `k`: a device file, a listener registered on the way, or a file of a snapshot. */
  ghost predicate LeftAt(x: Context, o: Origin, run: seq<Event>, cwd: Key, k: Key) {
    || LeadsTo(cwd, o.paths.logPath, k) || LeadsTo(cwd, o.paths.metricsPath, k)
    || LeadsTo(cwd, o.paths.vsockMultiplexerPath, k)
    || (o.paths.vsockMultiplexerPath.Some?
        && exists p :: (p in o.paths.vsockListenerPaths || ListenerCall(p) in run) && Resolve(cwd, p) == k)
    || (exists p :: WasReturned(x, o, run, p) && Resolve(cwd, p) == k)
  }

  lemma LeftInTheEnd(x: Context, o: Origin, run: seq<Event>, cwd: Key, k: Key)
    requires !o.traceless && !WasCleaned(x, Begin(o), run)
    ensures var vm := AfterRun(x, Begin(o), run).vm;
            LeftAt(x, o, run, cwd, k) <==> IsDevices(cwd, vm.accessible, k) || IsTrace(cwd, vm.snapshotTraces, k)
  {
    var vm := AfterRun(x, Begin(o), run).vm;
    TracesAreTheSnapshots(x, o, run);
    AccessibleOfRun(x, Begin(o), run);
    forall p
      ensures p in vm.snapshotTraces <==> WasReturned(x, o, run, p)
      ensures p in vm.accessible.vsockListenerPaths <==> p in o.paths.vsockListenerPaths || ListenerCall(p) in run
    {
      TracesWereReturned(x, o, run, p);
      ListenersAreRegistered(run, p);
    }
  }

  /** Over whole runs: the first successful cleanup removes, of all files, exactly what the run has left. */
  lemma CleanupRemovesWhatTheRunLeft(x: Context, e: U.UnrestrictedExecutor, o: Origin, run: seq<Event>, host: Host,
                                     t0: Tree, t: Tree)
    requires !o.traceless && !WasCleaned(x, Begin(o), run)
    requires CleanedTree(UnrestrictedKind(e), host, x.installation, AfterRun(x, Begin(o), run).vm, t0, t)
    requires forall k :: LeftAt(x, o, run, host.cwd, k) ==> k in host.deletable
    ensures forall k :: k in t ==> k in t0 && t[k] == t0[k]
    ensures forall k :: k in t0 ==>
              (k !in t <==> IsExecutors(host.cwd, e, k) || (IsFile(t0, k) && LeftAt(x, o, run, host.cwd, k)))
  {
    var vm := AfterRun(x, Begin(o), run).vm;
    forall k
      ensures LeftAt(x, o, run, host.cwd, k)
              <==> IsDevices(host.cwd, vm.accessible, k) || IsTrace(host.cwd, vm.snapshotTraces, k)
    {
      LeftInTheEnd(x, o, run, host.cwd, k);
    }
    RunKeepsSound(x, o.configuration, Begin(o), run);
    CleanupRemovesItsFiles(e, host, x.installation, vm, t0, t);
  }
}
