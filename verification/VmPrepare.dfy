/**
 `Vm::prepare_arced`: collect the paths, let the process prepare its executor, rewrite the configuration, and create
 the files the configured devices write to.
 */
module VmPrepare {
  import opened Wrappers
  import opened Paths
  import opened Filesystem
  import opened Inodes
  import opened HostMachine
  import opened ExecutorTypes
  import opened Executors
  import opened Configuration
  import opened PathRewriting
  import opened Process
  import opened VmTypes

  /** What a prepared VM starts its life with; `is_paused` is false and there are no snapshot traces yet. */
  datatype PreparedVm = PreparedVm(
    process: VmmProcess, original: VmConfigurationData, configuration: VmConfiguration, accessible: AccessiblePaths,
    traceless: bool)

  function OuterOf(ex: Executor, installation: VmmInstallation, inner: Option<PathBuf>): Option<PathBuf> {
    match inner
    case None => None
    case Some(p) => Some(ex.InnerToOuter(installation, p))
  }

  function LogPathOf(data: VmConfigurationData): Option<PathBuf> {
    match data.loggerSystem
    case None => None
    case Some(logger) => logger.logPath
  }

  function MetricsPathOf(data: VmConfigurationData): Option<PathBuf> {
    match data.metricsSystem
    case None => None
    case Some(metrics) => Some(metrics.metricsPath)
  }

  function VsockPathOf(data: VmConfigurationData): Option<PathBuf> {
    match data.vsockDevice
    case None => None
    case Some(vsock) => Some(vsock.udsPath)
  }

  function KeyOfOptional(cwd: Key, path: Option<PathBuf>): set<Key> {
    match path
    case None => {}
    case Some(p) => {Resolve(cwd, p)}
  }

  /** Where the logger and the metrics device write: files that preparation creates or empties. */
  function DeviceFiles(ex: Executor, cwd: Key, installation: VmmInstallation, data: VmConfigurationData): set<Key> {
    KeyOfOptional(cwd, OuterOf(ex, installation, LogPathOf(data)))
    + KeyOfOptional(cwd, OuterOf(ex, installation, MetricsPathOf(data)))
  }

  /** A drive's socket is found under the drive's identifier; of drives with the same identifier the last counts. */
  ghost predicate SocketsOf(ex: Executor, installation: VmmInstallation, drives: seq<Drive>,
                            found: map<string, PathBuf>) {
    && (forall id :: id in found <==> exists i :: 0 <= i < |drives| && SocketAt(drives, i, id))
    && (forall i :: 0 <= i < |drives| && LastSocket(drives, i) ==>
          drives[i].driveId in found
          && found[drives[i].driveId] == ex.InnerToOuter(installation, drives[i].socket.value))
  }

  ghost predicate LastSocket(drives: seq<Drive>, i: nat)
    requires i < |drives|
  {
    && drives[i].socket.Some?
    && forall j :: i < j < |drives| ==> !SocketAt(drives, j, drives[i].driveId)
  }

  predicate SocketAt(drives: seq<Drive>, i: nat, id: string)
    requires i < |drives|
  {
    drives[i].socket.Some? && drives[i].driveId == id
  }

  ghost predicate AccessibleOf(ex: Executor, installation: VmmInstallation, data: VmConfigurationData,
                               a: AccessiblePaths) {
    && SocketsOf(ex, installation, data.drives, a.driveSockets)
    && a.logPath == OuterOf(ex, installation, LogPathOf(data))
    && a.metricsPath == OuterOf(ex, installation, MetricsPathOf(data))
    && a.vsockMultiplexerPath == OuterOf(ex, installation, VsockPathOf(data))
    && a.vsockListenerPaths == []
  }

  method CollectSockets(ex: Executor, installation: VmmInstallation, drives: seq<Drive>)
    returns (found: map<string, PathBuf>)
    ensures SocketsOf(ex, installation, drives, found)
  {
    found := map[];
    var n := 0;
    while n < |drives|
      invariant 0 <= n <= |drives|
      invariant SocketsOf(ex, installation, drives[..n], found)
    {
      SocketsOneMore(ex, installation, drives[..n], drives[n], found);
      assert drives[..n + 1] == drives[..n] + [drives[n]];
      if drives[n].socket.Some? {
        found := found[drives[n].driveId := ex.InnerToOuter(installation, drives[n].socket.value)];
      }
      n := n + 1;
    }
    assert drives[..|drives|] == drives;
  }

  lemma SocketsOneMore(ex: Executor, installation: VmmInstallation, drives: seq<Drive>, drive: Drive,
                       found: map<string, PathBuf>)
    requires SocketsOf(ex, installation, drives, found)
    ensures SocketsOf(ex, installation, drives + [drive],
                      if drive.socket.Some? then
                        found[drive.driveId := ex.InnerToOuter(installation, drive.socket.value)]
                      else found)
  {
    var more := drives + [drive];
    var after := if drive.socket.Some? then found[drive.driveId := ex.InnerToOuter(installation, drive.socket.value)]
                 else found;
    var n := |drives|;
    forall i, id | 0 <= i < n
      ensures SocketAt(more, i, id) <==> SocketAt(drives, i, id)
    {
    }
    forall id
      ensures id in after <==> exists i :: 0 <= i < |more| && SocketAt(more, i, id)
    {
      if id in found {
        var i :| 0 <= i < n && SocketAt(drives, i, id);
        assert SocketAt(more, i, id);
      }
      if drive.socket.Some? && id == drive.driveId {
        assert SocketAt(more, n, id);
      }
    }
    forall i | 0 <= i < |more| && LastSocket(more, i)
      ensures more[i].driveId in after
              && after[more[i].driveId] == ex.InnerToOuter(installation, more[i].socket.value)
    {
      if i < n {
        assert !SocketAt(more, n, more[i].driveId);
        forall j | i < j < n
          ensures !SocketAt(drives, j, drives[i].driveId)
        {
          assert !SocketAt(more, j, more[i].driveId);
        }
        assert LastSocket(drives, i);
      }
    }
  }

  // ---------------------------------------------------------------- device files

  /** One of these locations is a name of the file at `k`. */
  ghost predicate Names(d: Disk, files: set<Key>, k: Key) {
    exists f :: f in files && SameFile(d, f, k)
  }

  /**
   * The files at `files` have been created, or emptied under all their names; of what existed nothing else has
   * changed, and what is new has inodes of its own.
   */
  ghost predicate DevicesCreated(d: Disk, files: set<Key>, u: Disk) {
    && d.next <= u.next
    && (forall k :: k in d.inodes ==> k in u.inodes && u.inodes[k] == d.inodes[k])
    && (forall k :: k in u.inodes && k !in d.inodes ==> d.next <= u.inodes[k])
    && (forall k :: k in d.tree ==> k in u.tree && u.tree[k] == if Names(d, files, k) then File("") else d.tree[k])
    && (forall k :: k in files ==> k in u.tree && u.tree[k] == File(""))
  }

  /** Whether two names are of one file does not change while device files are created. */
  lemma SameFileStays(d: Disk, files: set<Key>, u: Disk, f: Key, k: Key)
    requires DevicesCreated(d, files, u) && k in d.tree
    ensures SameFile(u, f, k) <==> SameFile(d, f, k)
  {
  }

  lemma DevicesCreatedTwice(d: Disk, u: Disk, v: Disk, a: set<Key>, b: set<Key>)
    requires DevicesCreated(d, a, u) && DevicesCreated(u, b, v)
    ensures DevicesCreated(d, a + b, v)
  {
    forall k | k in d.tree
      ensures k in v.tree && v.tree[k] == if Names(d, a + b, k) then File("") else d.tree[k]
    {
      NamesOfBoth(d, a, u, b, k);
    }
    forall k | k in a
      ensures k in v.tree && v.tree[k] == File("")
    {
    }
  }

  lemma NamesOfBoth(d: Disk, a: set<Key>, u: Disk, b: set<Key>, k: Key)
    requires DevicesCreated(d, a, u) && k in d.tree
    ensures Names(d, a + b, k) <==> Names(d, a, k) || Names(u, b, k)
  {
    forall f | f in b
      ensures SameFile(u, f, k) <==> SameFile(d, f, k)
    {
      SameFileStays(d, a, u, f, k);
    }
    if Names(d, a + b, k) {
      var f :| f in a + b && SameFile(d, f, k);
      assert f in a || SameFile(u, f, k);
    }
    if Names(u, b, k) {
      var f :| f in b && SameFile(u, f, k);
      assert f in a + b && SameFile(d, f, k);
    }
  }

  /** The disk after `prepare_file` for a configured path. */
  function WithDeviceFile(d: Disk, cwd: Key, path: Option<PathBuf>, onlyTree: bool): Option<Disk> {
    match path
    case None => Some(d)
    case Some(p) =>
      if p.parts != [] then TryCreate(d, Resolve(cwd, p), onlyTree)
      else if onlyTree then Some(d) else None
  }

  function WithLogAndMetrics(d: Disk, cwd: Key, log: Option<PathBuf>, metrics: Option<PathBuf>): Option<Disk> {
    var u :- WithDeviceFile(d, cwd, log, false);
    WithDeviceFile(u, cwd, metrics, false)
  }

  /** Log and metrics file, the directories of the vsock socket, and once more log and metrics file. */
  function WithDevices(d: Disk, ex: Executor, cwd: Key, installation: VmmInstallation, data: VmConfigurationData):
    Option<Disk>
  {
    var log, metrics := OuterOf(ex, installation, LogPathOf(data)), OuterOf(ex, installation, MetricsPathOf(data));
    var u :- WithLogAndMetrics(d, cwd, log, metrics);
    var v :- WithDeviceFile(u, cwd, OuterOf(ex, installation, VsockPathOf(data)), true);
    WithLogAndMetrics(v, cwd, log, metrics)
  }

  lemma CreatedNode(d: Disk, k: Key, onlyTree: bool, j: Key)
    requires TryCreate(d, k, onlyTree).Some? && j in d.tree
    ensures var u := TryCreate(d, k, onlyTree).value;
            && j in u.tree
            && u.tree[j] == if Names(d, if onlyTree then {} else {k}, j) then File("") else d.tree[j]
  {
    CreateTouches(d, k, onlyTree, j);
    assert SameFile(d, j, k) <==> SameFile(d, k, j);
    if !onlyTree && SameFile(d, k, j) {
      assert k in {k};
    }
  }

  lemma CreatedShape(d: Disk, k: Key, onlyTree: bool)
    requires TryCreate(d, k, onlyTree).Some?
    ensures DevicesCreated(d, if onlyTree then {} else {k}, TryCreate(d, k, onlyTree).value)
  {
    var u, files := TryCreate(d, k, onlyTree).value, if onlyTree then {} else {k};
    CreateNumbers(d, k, onlyTree);
    forall j | j in d.tree
      ensures j in u.tree && u.tree[j] == if Names(d, files, j) then File("") else d.tree[j]
    {
      CreatedNode(d, k, onlyTree, j);
    }
  }

  lemma DeviceFileShape(d: Disk, cwd: Key, path: Option<PathBuf>, onlyTree: bool)
    requires WithDeviceFile(d, cwd, path, onlyTree).Some?
    ensures DevicesCreated(d, if onlyTree then {} else KeyOfOptional(cwd, path),
                           WithDeviceFile(d, cwd, path, onlyTree).value)
  {
    if path.Some? && path.value.parts != [] {
      CreatedShape(d, Resolve(cwd, path.value), onlyTree);
    }
  }

  lemma LogAndMetricsShape(d: Disk, cwd: Key, log: Option<PathBuf>, metrics: Option<PathBuf>)
    requires WithLogAndMetrics(d, cwd, log, metrics).Some?
    ensures DevicesCreated(d, KeyOfOptional(cwd, log) + KeyOfOptional(cwd, metrics),
                           WithLogAndMetrics(d, cwd, log, metrics).value)
  {
    var u := WithDeviceFile(d, cwd, log, false).value;
    var v := WithDeviceFile(u, cwd, metrics, false).value;
    DeviceFileShape(d, cwd, log, false);
    DeviceFileShape(u, cwd, metrics, false);
    DevicesCreatedTwice(d, u, v, KeyOfOptional(cwd, log), KeyOfOptional(cwd, metrics));
  }

  lemma DevicesShape(d: Disk, ex: Executor, cwd: Key, installation: VmmInstallation, data: VmConfigurationData)
    requires WithDevices(d, ex, cwd, installation, data).Some?
    ensures DevicesCreated(d, DeviceFiles(ex, cwd, installation, data),
                           WithDevices(d, ex, cwd, installation, data).value)
  {
    var log, metrics := OuterOf(ex, installation, LogPathOf(data)), OuterOf(ex, installation, MetricsPathOf(data));
    var vsock := OuterOf(ex, installation, VsockPathOf(data));
    var files := KeyOfOptional(cwd, log) + KeyOfOptional(cwd, metrics);
    var u := WithLogAndMetrics(d, cwd, log, metrics).value;
    var v := WithDeviceFile(u, cwd, vsock, true).value;
    var w := WithLogAndMetrics(v, cwd, log, metrics).value;
    LogAndMetricsShape(d, cwd, log, metrics);
    DeviceFileShape(u, cwd, vsock, true);
    LogAndMetricsShape(v, cwd, log, metrics);
    DevicesCreatedTwice(d, u, v, files, {});
    DevicesCreatedTwice(d, v, w, files + {}, files);
    assert files + {} + files == files;
  }

  /** `prepare_file` for a configured path. */
  method PrepareFile(host: Host, path: Option<PathBuf>, onlyTree: bool) returns (ok: bool)
    modifies host
    ensures ok ==> WithDeviceFile(old(host.disk), host.cwd, path, onlyTree) == Some(host.disk)
    ensures host.obliging ==> (ok <==> WithDeviceFile(old(host.disk), host.cwd, path, onlyTree).Some?)
  {
    ok := true;
    if path.Some? {
      if path.value.parts == [] {
        return onlyTree;
      }
      ok := host.CreateFileWithTree(path.value, onlyTree);
    }
  }

  method CreateLogAndMetrics(host: Host, log: Option<PathBuf>, metrics: Option<PathBuf>) returns (ok: bool)
    modifies host
    ensures ok ==> WithLogAndMetrics(old(host.disk), host.cwd, log, metrics) == Some(host.disk)
    ensures host.obliging ==> (ok <==> WithLogAndMetrics(old(host.disk), host.cwd, log, metrics).Some?)
  {
    ok := PrepareFile(host, log, false);
    if ok {
      ok := PrepareFile(host, metrics, false);
    }
  }

  method CreateDeviceFiles(ex: Executor, host: Host, installation: VmmInstallation, data: VmConfigurationData)
    returns (ok: bool)
    modifies host
    ensures ok ==> WithDevices(old(host.disk), ex, host.cwd, installation, data) == Some(host.disk)
    ensures host.obliging ==> (ok <==> WithDevices(old(host.disk), ex, host.cwd, installation, data).Some?)
  {
    var log, metrics := OuterOf(ex, installation, LogPathOf(data)), OuterOf(ex, installation, MetricsPathOf(data));
    ok := CreateLogAndMetrics(host, log, metrics);
    if ok {
      ok := PrepareFile(host, OuterOf(ex, installation, VsockPathOf(data)), true);
    }
    if ok {
      ok := CreateLogAndMetrics(host, log, metrics);
    }
  }

  // ---------------------------------------------------------------- the whole preparation

  /** How the parts of a prepared VM and the tree relate to the configuration it was prepared from. */
  ghost predicate IsPrepared(ex: Executor, cwd: Key, installation: VmmInstallation, c: VmConfiguration, d0: Disk,
                             t: Disk, original: VmConfigurationData, d: VmConfiguration, accessible: AccessiblePaths) {
    && original == c.data
    && Distinct(ResourcePaths(c))
    && AccessibleOf(ex, installation, d.data, accessible)
    && exists mappings, staged :: PreparedVia(ex, cwd, installation, c, d0, t, d, mappings, staged)
  }

  /** The steps of a preparation: the executor's answers, and the tree when it had staged the resources. */
  ghost predicate PreparedVia(ex: Executor, cwd: Key, installation: VmmInstallation, c: VmConfiguration, d0: Disk,
                              t: Disk, d: VmConfiguration, mappings: Mapping, staged: Disk) {
    && Answers(ex, ResourcePaths(c), mappings)
    && ExecutorPrepared(ex, cwd, installation, ResourcePaths(c), d0, staged)
    && IsRewritten(c, mappings, d)
    && WithDevices(staged, ex, cwd, installation, d.data) == Some(t)
  }

  /** For some outcome of the staging there is no room for the files of the devices. */
  ghost predicate DevicesMayNotFit(ex: Executor, cwd: Key, installation: VmmInstallation, c: VmConfiguration,
                                   d0: Disk) {
    exists staged :: ExecutorPrepared(ex, cwd, installation, ResourcePaths(c), d0, staged)
                     && WithDevices(staged, ex, cwd, installation, c.data).None?
  }

  /** `VmmProcess::prepare` on a new object, with the executor's own work on the host. */
  method PrepareProcess(ex: Executor, host: Host, installation: VmmInstallation, outer: seq<PathBuf>, m: Moment)
    returns (process: VmmProcess, r: Result<Mapping, ProcessError>)
    modifies host
    ensures fresh(process)
    ensures r.Ok? ==> process.View() == Process.Prepare(Process.New(outer), m, Ok(r.value)).0
                      && process.View() == Proc(AwaitingStart, None, None, false)
    ensures r.Err? ==> r.error.ExecutorFailed?
    ensures r.Ok? ==> Answers(ex, outer, r.value) && r.value.Keys == PathSet(outer)
    ensures r.Ok? ==> ExecutorPrepared(ex, host.cwd, installation, outer, old(host.disk), host.disk)
    ensures host.obliging && CanPrepare(ex, host.cwd, installation, outer, old(host.disk)) ==> r.Ok?
  {
    process := new VmmProcess(outer);
    var taken := process.TakeOuterPaths(m);
    assert Process.Prepare(Process.New(outer), m, Ok(map[])).1.Succeeds();
    var answer := Executors.Prepare(ex, host, installation, taken.result.value);
    if answer.Err? {
      return process, Err(ExecutorFailed(answer.error));
    }
    process.FinishPrepare();
    r := Ok(answer.value);
  }

  /**
   * `prepare_arced`.  A disabled socket is refused before anything is touched; a repeated resource path ends in
   * `MissingPathMapping` unless the executor fails first, and nothing else does.
   */
  method PrepareVm(ex: Executor, host: Host, installation: VmmInstallation, c: VmConfiguration, m: Moment)
    returns (r: Result<PreparedVm, VmError>)
    modifies host
    ensures ex.VmmArgs().apiSocket.Disabled? ==>
              r == Err(DisabledApiSocketIsUnsupported) && host.disk == old(host.disk)
    ensures r.Ok? ==> (r.value.traceless <==> ex.JailedKind?)
    ensures r == Err(MissingMapping) ==> !Distinct(ResourcePaths(c))
    ensures !Distinct(ResourcePaths(c)) && ex.VmmArgs().apiSocket.Enabled? ==>
              r.Err? && (r.error == MissingMapping || (r.error.ProcessFailed? && r.error.error.ExecutorFailed?))
    ensures r.Ok? ==> ex.VmmArgs().apiSocket.Enabled? && ex.SocketPath(installation).Some?
    ensures r.Ok? ==> fresh(r.value.process) && r.value.process.View() == Proc(AwaitingStart, None, None, false)
    ensures r.Ok? ==> IsPrepared(ex, host.cwd, installation, c, old(host.disk), host.disk, r.value.original,
                                 r.value.configuration, r.value.accessible)
    ensures host.obliging && ex.VmmArgs().apiSocket.Enabled? && Distinct(ResourcePaths(c))
            && CanPrepare(ex, host.cwd, installation, ResourcePaths(c), old(host.disk))
            ==> r.Ok? || (r == Err(IoFailed) && DevicesMayNotFit(ex, host.cwd, installation, c, old(host.disk)))
  {
    SocketPlace(ex, installation);
    if ex.SocketPath(installation).None? {
      return Err(DisabledApiSocketIsUnsupported);
    }
    var outer := CollectOuterPaths(c);
    var process, mapped := PrepareProcess(ex, host, installation, outer, m);
    if mapped.Err? {
      return Err(ProcessFailed(mapped.error));
    }
    ghost var staged := host.disk;
    var rewritten, left := Rewrite(c, mapped.value);
    RewritesIffDistinct(c, mapped.value);
    if rewritten.Err? {
      return Err(MissingMapping);
    }
    var data := rewritten.value.data;
    var accessible := PrepareDevices(ex, host, installation, data);
    if accessible.None? {
      DevicesOfRewritten(staged, ex, host.cwd, installation, c, rewritten.value);
      return Err(IoFailed);
    }
    assert PreparedVia(ex, host.cwd, installation, c, old(host.disk), host.disk, rewritten.value, mapped.value, staged);
    r := Ok(PreparedVm(process, c.data, rewritten.value, accessible.value, ex.Traceless()));
  }

  /** Rewriting does not touch what the devices need. */
  lemma DevicesOfRewritten(staged: Disk, ex: Executor, cwd: Key, installation: VmmInstallation, c: VmConfiguration,
                           d: VmConfiguration)
    requires Blank(d) == Blank(c)
    ensures WithDevices(staged, ex, cwd, installation, d.data) == WithDevices(staged, ex, cwd, installation, c.data)
  {
    BlankKeepsDevices(c, d);
  }

  /** The last part: the accessible paths, and the files that devices write to. */
  method PrepareDevices(ex: Executor, host: Host, installation: VmmInstallation, data: VmConfigurationData)
    returns (accessible: Option<AccessiblePaths>)
    modifies host
    ensures accessible.Some? ==> AccessibleOf(ex, installation, data, accessible.value)
                                 && WithDevices(old(host.disk), ex, host.cwd, installation, data) == Some(host.disk)
    ensures host.obliging && accessible.None? ==>
              WithDevices(old(host.disk), ex, host.cwd, installation, data).None?
  {
    var sockets := CollectSockets(ex, installation, data.drives);
    var ok := CreateDeviceFiles(ex, host, installation, data);
    if !ok {
      return None;
    }
    accessible := Some(AccessiblePaths(
      sockets, OuterOf(ex, installation, MetricsPathOf(data)), OuterOf(ex, installation, LogPathOf(data)),
      OuterOf(ex, installation, VsockPathOf(data)), []));
  }

  /** The place where the guest's view of resource `i` leads on the host. */
  function PlaceOf(ex: Executor, cwd: Key, installation: VmmInstallation, d: VmConfiguration, i: nat): Key
    requires i < |ResourcePaths(d)|
  {
    Resolve(cwd, ex.InnerToOuter(installation, ResourcePaths(d)[i]))
  }

  /**
   * Path rewriting preserves meaning: resolving any rewritten kernel, initrd, drive, snapshot or memory path leads to
   * a file with the content the configured path had, unless a device file has been created over it, in the same place
   * or under another name; the rest of the configuration is the same and the original data is kept.
   */
  lemma RewrittenPathsReachOriginals(ex: Executor, cwd: Key, installation: VmmInstallation, c: VmConfiguration,
                                     d0: Disk, t: Disk, original: VmConfigurationData, d: VmConfiguration,
                                     accessible: AccessiblePaths, i: nat)
    requires IsPrepared(ex, cwd, installation, c, d0, t, original, d, accessible)
    requires ResourcesApart(ex, cwd, installation, ResourcePaths(c), d0)
    requires i < |ResourcePaths(c)|
    ensures original == c.data && Blank(d) == Blank(c) && |ResourcePaths(d)| == |ResourcePaths(c)|
    ensures Resolve(cwd, ResourcePaths(c)[i]) in d0.tree
    ensures var place := PlaceOf(ex, cwd, installation, d, i);
            && place in t.tree
            && t.tree[place] == if Names(t, DeviceFiles(ex, cwd, installation, c.data), place) then File("")
                                else d0.tree[Resolve(cwd, ResourcePaths(c)[i])]
  {
    var mappings, staged :| PreparedVia(ex, cwd, installation, c, d0, t, d, mappings, staged);
    var files := DeviceFiles(ex, cwd, installation, d.data);
    DevicesShape(staged, ex, cwd, installation, d.data);
    BlankKeepsDevices(c, d);
    PreparedKeepsContents(ex, cwd, installation, ResourcePaths(c), d0, staged, mappings, ResourcePaths(c)[i]);
    NamesStay(staged, files, t, PlaceOf(ex, cwd, installation, d, i));
  }

  lemma NamesStay(d: Disk, files: set<Key>, u: Disk, k: Key)
    requires DevicesCreated(d, files, u) && k in d.tree
    ensures Names(u, files, k) <==> Names(d, files, k)
  {
    forall f | f in files
      ensures SameFile(u, f, k) <==> SameFile(d, f, k)
    {
      SameFileStays(d, files, u, f, k);
    }
  }

  lemma BlankKeepsDevices(c: VmConfiguration, d: VmConfiguration)
    requires Blank(d) == Blank(c)
    ensures LogPathOf(d.data) == LogPathOf(c.data) && MetricsPathOf(d.data) == MetricsPathOf(c.data)
    ensures VsockPathOf(d.data) == VsockPathOf(c.data)
  {
  }
}
