/**
 What a prepared VM has, field by field of its configuration: every resource where the rewritten field says, the paths
 of its devices, and the files and directories these need.
 */
module PreparationResults {
  import opened Wrappers
  import opened Paths
  import opened Filesystem
  import opened Inodes
  import opened ExecutorTypes
  import opened Executors
  import opened Configuration
  import opened PathRewriting
  import opened RewrittenFields
  import opened VmTypes
  import opened VmPrepare

  // ---------------------------------------------------------------- resources

  /**
   * Where the rewritten path leads on the host there is what was at the configured path, unless the log or metrics file
   * has been created over it.
   */
  ghost predicate Reaches(ex: Executor, cwd: Key, installation: VmmInstallation, d0: Disk, t: Disk, files: set<Key>,
                          p: PathBuf, q: PathBuf) {
    var k, place := Resolve(cwd, p), Resolve(cwd, ex.InnerToOuter(installation, q));
    k in d0.tree && place in t.tree && t.tree[place] == if Names(t, files, place) then File("") else d0.tree[k]
  }

  ghost predicate OptionalReaches(ex: Executor, cwd: Key, installation: VmmInstallation, d0: Disk, t: Disk,
                                  files: set<Key>, p: Option<PathBuf>, q: Option<PathBuf>) {
    (p.Some? <==> q.Some?) && (p.Some? ==> Reaches(ex, cwd, installation, d0, t, files, p.value, q.value))
  }

  /** The log and metrics files of the VM. */
  function WrittenFiles(cwd: Key, a: AccessiblePaths): set<Key> {
    (if a.logPath.Some? then {Resolve(cwd, a.logPath.value)} else {})
    + (if a.metricsPath.Some? then {Resolve(cwd, a.metricsPath.value)} else {})
  }

  lemma FilesAreWritten(ex: Executor, cwd: Key, installation: VmmInstallation, c: VmConfiguration, d: VmConfiguration,
                        accessible: AccessiblePaths)
    requires AccessibleOf(ex, installation, d.data, accessible) && Blank(d) == Blank(c)
    ensures WrittenFiles(cwd, accessible) == DeviceFiles(ex, cwd, installation, c.data)
  {
    BlankKeepsDevices(c, d);
  }

  lemma PositionReaches(ex: Executor, cwd: Key, installation: VmmInstallation, c: VmConfiguration, d0: Disk, t: Disk,
                        original: VmConfigurationData, d: VmConfiguration, accessible: AccessiblePaths, p: PathBuf,
                        q: PathBuf)
    requires IsPrepared(ex, cwd, installation, c, d0, t, original, d, accessible)
    requires ResourcesApart(ex, cwd, installation, ResourcePaths(c), d0)
    requires AtOnePosition(c, d, p, q) && Blank(d) == Blank(c)
    ensures Reaches(ex, cwd, installation, d0, t, WrittenFiles(cwd, accessible), p, q)
  {
    var n :| 0 <= n < |ResourcePaths(c)| && PositionHolds(c, d, n, p, q);
    FilesAreWritten(ex, cwd, installation, c, d, accessible);
    RewrittenPathsReachOriginals(ex, cwd, installation, c, d0, t, original, d, accessible, n);
  }

  lemma OptionalReached(ex: Executor, cwd: Key, installation: VmmInstallation, c: VmConfiguration, d0: Disk, t: Disk,
                        original: VmConfigurationData, d: VmConfiguration, accessible: AccessiblePaths,
                        p: Option<PathBuf>, q: Option<PathBuf>)
    requires IsPrepared(ex, cwd, installation, c, d0, t, original, d, accessible)
    requires ResourcesApart(ex, cwd, installation, ResourcePaths(c), d0)
    requires OptionalAtOnePosition(c, d, p, q) && Blank(d) == Blank(c)
    ensures OptionalReaches(ex, cwd, installation, d0, t, WrittenFiles(cwd, accessible), p, q)
  {
    if p.Some? {
      PositionReaches(ex, cwd, installation, c, d0, t, original, d, accessible, p.value, q.value);
    }
  }

  lemma PreparedIsRewritten(ex: Executor, cwd: Key, installation: VmmInstallation, c: VmConfiguration, d0: Disk,
                            t: Disk, original: VmConfigurationData, d: VmConfiguration, accessible: AccessiblePaths)
    requires IsPrepared(ex, cwd, installation, c, d0, t, original, d, accessible)
    ensures Blank(d) == Blank(c) && |d.data.drives| == |c.data.drives|
    ensures d.RestoredFromSnapshot? <==> c.RestoredFromSnapshot?
  {
    var mappings, staged :| PreparedVia(ex, cwd, installation, c, d0, t, d, mappings, staged);
    RewritingReachesFields(c, mappings, d);
  }

  /** Kernel, initrd, every drive, snapshot and memory are what their rewritten fields lead to. */
  lemma PreparedFieldsReachOriginals(ex: Executor, cwd: Key, installation: VmmInstallation, c: VmConfiguration,
                                     d0: Disk, t: Disk, original: VmConfigurationData, d: VmConfiguration,
                                     accessible: AccessiblePaths)
    requires IsPrepared(ex, cwd, installation, c, d0, t, original, d, accessible)
    requires ResourcesApart(ex, cwd, installation, ResourcePaths(c), d0)
    ensures original == c.data && |d.data.drives| == |c.data.drives|
    ensures var files := WrittenFiles(cwd, accessible);
            var a, b := c.data.bootSource, d.data.bootSource;
            && Reaches(ex, cwd, installation, d0, t, files, a.kernelImagePath, b.kernelImagePath)
            && OptionalReaches(ex, cwd, installation, d0, t, files, a.initrdPath, b.initrdPath)
            && (forall i :: 0 <= i < |c.data.drives| ==>
                  OptionalReaches(ex, cwd, installation, d0, t, files, c.data.drives[i].pathOnHost,
                                  d.data.drives[i].pathOnHost))
    ensures d.RestoredFromSnapshot? <==> c.RestoredFromSnapshot?
    ensures c.RestoredFromSnapshot? ==>
              var files := WrittenFiles(cwd, accessible);
              && Reaches(ex, cwd, installation, d0, t, files, c.loadSnapshot.snapshotPath, d.loadSnapshot.snapshotPath)
              && Reaches(ex, cwd, installation, d0, t, files, c.loadSnapshot.backendPath, d.loadSnapshot.backendPath)
  {
    PreparedIsRewritten(ex, cwd, installation, c, d0, t, original, d, accessible);
    var a, b := c.data.bootSource, d.data.bootSource;
    KernelAndInitrd(c, d);
    PositionReaches(ex, cwd, installation, c, d0, t, original, d, accessible, a.kernelImagePath, b.kernelImagePath);
    OptionalReached(ex, cwd, installation, c, d0, t, original, d, accessible, a.initrdPath, b.initrdPath);
    forall i | 0 <= i < |c.data.drives|
      ensures OptionalReaches(ex, cwd, installation, d0, t, WrittenFiles(cwd, accessible),
                              c.data.drives[i].pathOnHost, d.data.drives[i].pathOnHost)
    {
      DrivePath(c, d, i);
      OptionalReached(ex, cwd, installation, c, d0, t, original, d, accessible, c.data.drives[i].pathOnHost,
                      d.data.drives[i].pathOnHost);
    }
    if c.RestoredFromSnapshot? {
      SnapshotAndMemory(c, d);
      PositionReaches(ex, cwd, installation, c, d0, t, original, d, accessible, c.loadSnapshot.snapshotPath,
                      d.loadSnapshot.snapshotPath);
      PositionReaches(ex, cwd, installation, c, d0, t, original, d, accessible, c.loadSnapshot.backendPath,
                      d.loadSnapshot.backendPath);
    }
  }

  // ---------------------------------------------------------------- devices

  /** The path by which the host reaches a configured one. */
  predicate IsOuter(ex: Executor, installation: VmmInstallation, inner: PathBuf, outer: Option<PathBuf>) {
    outer == Some(ex.InnerToOuter(installation, inner))
  }

  /** The logger, the metrics and the vsock device, each exactly if it is configured. */
  predicate NamesDevices(ex: Executor, installation: VmmInstallation, data: VmConfigurationData, a: AccessiblePaths) {
    && (if data.loggerSystem.Some? && data.loggerSystem.value.logPath.Some? then
          IsOuter(ex, installation, data.loggerSystem.value.logPath.value, a.logPath)
        else a.logPath.None?)
    && (if data.metricsSystem.Some? then
          IsOuter(ex, installation, data.metricsSystem.value.metricsPath, a.metricsPath)
        else a.metricsPath.None?)
    && (if data.vsockDevice.Some? then
          IsOuter(ex, installation, data.vsockDevice.value.udsPath, a.vsockMultiplexerPath)
        else a.vsockMultiplexerPath.None?)
    && a.vsockListenerPaths == []
  }

  /** The log and metrics files are there and empty, and the vsock socket has a directory to be made in. */
  ghost predicate DevicesAreReady(cwd: Key, a: AccessiblePaths, t: Tree) {
    && (a.logPath.Some? ==> Resolve(cwd, a.logPath.value) in t && t[Resolve(cwd, a.logPath.value)] == File(""))
    && (a.metricsPath.Some? ==>
          Resolve(cwd, a.metricsPath.value) in t && t[Resolve(cwd, a.metricsPath.value)] == File(""))
    && (a.vsockMultiplexerPath.Some? && a.vsockMultiplexerPath.value.parts != [] ==>
          IsDir(t, Up(Resolve(cwd, a.vsockMultiplexerPath.value))))
  }

  lemma CreateKeepsDir(d: Disk, cwd: Key, path: Option<PathBuf>, onlyTree: bool, k: Key)
    requires WithDeviceFile(d, cwd, path, onlyTree).Some? && IsDir(d.tree, k)
    ensures IsDir(WithDeviceFile(d, cwd, path, onlyTree).value.tree, k)
  {
    if path.Some? && path.value.parts != [] {
      CreateTouches(d, Resolve(cwd, path.value), onlyTree, k);
    }
  }

  lemma VsockHasItsDirectory(d: Disk, cwd: Key, path: PathBuf)
    requires path.parts != [] && WithDeviceFile(d, cwd, Some(path), true).Some?
    ensures IsDir(WithDeviceFile(d, cwd, Some(path), true).value.tree, Up(Resolve(cwd, path)))
  {
  }

  lemma DevicesKeepVsock(d: Disk, ex: Executor, cwd: Key, installation: VmmInstallation, data: VmConfigurationData,
                         path: PathBuf)
    requires WithDevices(d, ex, cwd, installation, data).Some? && path.parts != []
    requires OuterOf(ex, installation, VsockPathOf(data)) == Some(path)
    ensures IsDir(WithDevices(d, ex, cwd, installation, data).value.tree, Up(Resolve(cwd, path)))
  {
    var log, metrics := OuterOf(ex, installation, LogPathOf(data)), OuterOf(ex, installation, MetricsPathOf(data));
    var u := WithLogAndMetrics(d, cwd, log, metrics).value;
    var v := WithDeviceFile(u, cwd, Some(path), true).value;
    var w := WithDeviceFile(v, cwd, log, false).value;
    VsockHasItsDirectory(u, cwd, path);
    CreateKeepsDir(v, cwd, log, false, Up(Resolve(cwd, path)));
    CreateKeepsDir(w, cwd, metrics, false, Up(Resolve(cwd, path)));
  }

  /** The accessible paths of a prepared VM are those of its configured devices, and what these need is there. */
  lemma PreparedDevices(ex: Executor, cwd: Key, installation: VmmInstallation, c: VmConfiguration, d0: Disk, t: Disk,
                        original: VmConfigurationData, d: VmConfiguration, accessible: AccessiblePaths)
    requires IsPrepared(ex, cwd, installation, c, d0, t, original, d, accessible)
    ensures NamesDevices(ex, installation, c.data, accessible) && DevicesAreReady(cwd, accessible, t.tree)
  {
    var mappings, staged :| PreparedVia(ex, cwd, installation, c, d0, t, d, mappings, staged);
    RewritingReachesFields(c, mappings, d);
    DevicesShape(staged, ex, cwd, installation, d.data);
    var vsock := accessible.vsockMultiplexerPath;
    if vsock.Some? && vsock.value.parts != [] {
      DevicesKeepVsock(staged, ex, cwd, installation, d.data, vsock.value);
    }
  }
}
