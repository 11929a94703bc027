/** The unrestricted executor: no jail, so inner and outer paths coincide. */
module Unrestricted {
  import opened Wrappers
  import opened Paths
  import opened Filesystem
  import opened Inodes
  import opened HostMachine
  import opened Arguments
  import opened ExecutorTypes
  import opened Invocation

  datatype UnrestrictedExecutor = UnrestrictedExecutor(
    vmm: VmmArguments, removeMetricsOnCleanup: bool, removeLogsOnCleanup: bool, pipesToNull: bool, id: Option<VmmId>)
  {
    function SocketPath(): Option<PathBuf> {
      match vmm.apiSocket
      case Disabled => None
      case Enabled(path) => Some(Parse(path))
    }
  }

  function OptionalKey(cwd: Key, path: Option<string>): set<Key> {
    match path
    case None => {}
    case Some(p) => {Resolve(cwd, Parse(p))}
  }

  function SocketKey(cwd: Key, e: UnrestrictedExecutor): set<Key> {
    match e.SocketPath()
    case None => {}
    case Some(p) => {Resolve(cwd, p)}
  }

  /** Where the log and metrics files of the arguments are. */
  function ArgumentFiles(cwd: Key, e: UnrestrictedExecutor): set<Key> {
    OptionalKey(cwd, e.vmm.logPath) + OptionalKey(cwd, e.vmm.metricsPath)
  }

  /** The tree `t` with the names at `keys` gone and everything else as it was. */
  ghost predicate Without(t: Tree, keys: set<Key>, u: Tree) {
    u == t - keys
  }

  /** The disk without a stale socket; something else in its place is in the way. */
  function WithoutSocket(d: Disk, cwd: Key, e: UnrestrictedExecutor): Option<Disk> {
    match e.SocketPath()
    case None => Some(d)
    case Some(p) =>
      var k := Resolve(cwd, p);
      if k !in d.tree then Some(d) else if IsFile(d.tree, k) then Some(DropName(d, k)) else None
  }

  lemma SocketIsGone(d: Disk, cwd: Key, e: UnrestrictedExecutor)
    requires WithoutSocket(d, cwd, e).Some?
    ensures Without(d.tree, SocketKey(cwd, e), WithoutSocket(d, cwd, e).value.tree)
  {
  }

  /** A socket file that exists is removed. */
  method RemoveSocket(e: UnrestrictedExecutor, host: Host) returns (error: Option<ExecutorError>)
    modifies host
    ensures error == None ==> WithoutSocket(old(host.disk), host.cwd, e) == Some(host.disk)
    ensures host.obliging ==> (error == None <==> WithoutSocket(old(host.disk), host.cwd, e).Some?)
  {
    error := None;
    var socket := e.SocketPath();
    if socket.Some? {
      var found := host.TryExists(socket.value);
      if found.None? {
        return Some(IoError);
      }
      if found.value {
        var ok := host.ForceChown(socket.value);
        if !ok {
          return Some(ShellCommandFailed);
        }
        ok := host.RemoveFile(socket.value);
        if !ok {
          return Some(IoError);
        }
      }
    }
  }

  /** The disk after `create_file_with_tree` for an argument, if there is one. */
  function WithFile(d: Disk, cwd: Key, path: Option<string>): Option<Disk> {
    match path
    case None => Some(d)
    case Some(p) => TryCreate(d, Resolve(cwd, Parse(p)), false)
  }

  /** Without the stale socket, and with empty log and metrics files where the arguments name some. */
  function PreparedDisk(cwd: Key, e: UnrestrictedExecutor, d: Disk): Option<Disk> {
    var u :- WithoutSocket(d, cwd, e);
    var v :- WithFile(u, cwd, e.vmm.logPath);
    WithFile(v, cwd, e.vmm.metricsPath)
  }

  /** The argument names a file and not the root or the working directory. */
  predicate MayCreate(path: Option<string>) {
    path.Some? ==> Parse(path.value).parts != []
  }

  method CreateArgumentFile(host: Host, path: Option<string>) returns (ok: bool)
    modifies host
    ensures ok ==> WithFile(old(host.disk), host.cwd, path) == Some(host.disk)
    ensures host.obliging && MayCreate(path) ==> (ok <==> WithFile(old(host.disk), host.cwd, path).Some?)
  {
    ok := true;
    if path.Some? {
      if Parse(path.value).parts == [] {
        return false;
      }
      ok := host.CreateFileWithTree(Parse(path.value), false);
    }
  }

  /** The answer of an executor whose inner paths are its outer paths. */
  ghost predicate IsIdentity(outer: seq<PathBuf>, mappings: map<PathBuf, PathBuf>) {
    && (forall p :: p in mappings <==> p in outer)
    && (forall p :: p in mappings ==> mappings[p] == p)
  }

  /** All resources were there, and the disk has changed by the socket and the argument files only. */
  ghost predicate Prepared(cwd: Key, e: UnrestrictedExecutor, outer: seq<PathBuf>, d0: Disk, d: Disk) {
    && (forall p :: p in outer ==> Resolve(cwd, p) in d0.tree)
    && PreparedDisk(cwd, e, d0) == Some(d)
  }

  /** All resources are there, and the socket and the argument files are not in the way. */
  ghost predicate CanPrepare(cwd: Key, e: UnrestrictedExecutor, outer: seq<PathBuf>, d0: Disk) {
    (forall p :: p in outer ==> Resolve(cwd, p) in d0.tree) && PreparedDisk(cwd, e, d0).Some?
  }

  /** The arguments name neither the location nor, under another name, the file that is there. */
  ghost predicate Untouched(cwd: Key, e: UnrestrictedExecutor, d0: Disk, k: Key) {
    && k !in SocketKey(cwd, e)
    && k !in ArgumentFiles(cwd, e)
    && forall f :: f in ArgumentFiles(cwd, e) ==> !SameFile(d0, f, k)
  }

  /** Creating a file under another name leaves a node alone, and does not make it another name of it. */
  lemma FileElsewhere(d: Disk, cwd: Key, path: Option<string>, k: Key)
    requires WithFile(d, cwd, path).Some? && k in d.tree
    requires forall f :: f in OptionalKey(cwd, path) ==> f != k && !SameFile(d, f, k)
    ensures var u := WithFile(d, cwd, path).value;
            && k in u.tree && u.tree[k] == d.tree[k]
            && forall f :: f != k && !SameFile(d, f, k) ==> !SameFile(u, f, k)
  {
    if path.Some? {
      var f := Resolve(cwd, Parse(path.value));
      assert f in OptionalKey(cwd, path);
      CreateTouches(d, f, false, k);
      forall g | g != k && !SameFile(d, g, k)
        ensures !SameFile(WithFile(d, cwd, path).value, g, k)
      {
        CreateKeepsApart(d, f, false, g, k);
      }
    }
  }

  /** A resource keeps its node unless the executor's own arguments touch it. */
  lemma ResourcesAreKept(cwd: Key, e: UnrestrictedExecutor, outer: seq<PathBuf>, d0: Disk, d: Disk, p: PathBuf)
    requires Prepared(cwd, e, outer, d0, d) && p in outer && Untouched(cwd, e, d0, Resolve(cwd, p))
    ensures var k := Resolve(cwd, p); k in d0.tree && k in d.tree && d.tree[k] == d0.tree[k]
  {
    var k := Resolve(cwd, p);
    var cleared := WithoutSocket(d0, cwd, e).value;
    FileElsewhere(cleared, cwd, e.vmm.logPath, k);
    FileElsewhere(WithFile(cleared, cwd, e.vmm.logPath).value, cwd, e.vmm.metricsPath, k);
  }

  /** The file of an argument, if there is one. */
  predicate HasFile(cwd: Key, path: Option<string>, t: Tree) {
    path.Some? ==> Resolve(cwd, Parse(path.value)) in t && t[Resolve(cwd, Parse(path.value))] == File("")
  }

  predicate OnTheWay(cwd: Key, path: Option<string>, k: Key) {
    path.Some? && k <= Resolve(cwd, Parse(path.value))
  }

  /** Creating an argument's file leaves empty files empty and adds nothing but the levels on its way. */
  lemma FileIsMade(d: Disk, cwd: Key, path: Option<string>, other: Option<string>, k: Key)
    requires WithFile(d, cwd, path).Some?
    ensures var u := WithFile(d, cwd, path).value;
            && HasFile(cwd, path, u.tree)
            && (HasFile(cwd, other, d.tree) ==> HasFile(cwd, other, u.tree))
            && (k in u.tree <==> k in d.tree || OnTheWay(cwd, path, k))
  {
    if path.Some? {
      var f := Resolve(cwd, Parse(path.value));
      if f != [] {
        UpToOrSame(k, f);
      }
      if other.Some? && HasFile(cwd, other, d.tree) {
        CreateTouches(d, f, false, Resolve(cwd, Parse(other.value)));
      }
    }
  }

  lemma UpToOrSame(j: Key, k: Key)
    requires k != []
    ensures j <= k <==> j == k || j <= Up(k)
  {
    if j <= k && j != k {
      assert j == k[..|j|] == Up(k)[..|j|];
    }
  }

  /**
   * After a successful `prepare` log and metrics files are there and empty, nothing is left at the socket's place, and
   * what else is new is on the way to one of the two files.
   */
  lemma PreparedIsFurnished(cwd: Key, e: UnrestrictedExecutor, outer: seq<PathBuf>, d0: Disk, d: Disk)
    requires Prepared(cwd, e, outer, d0, d)
    ensures HasFile(cwd, e.vmm.logPath, d.tree) && HasFile(cwd, e.vmm.metricsPath, d.tree)
    ensures forall k ::
              k in d.tree
              <==> (k in d0.tree && !(e.vmm.apiSocket.Enabled? && k == Resolve(cwd, Parse(e.vmm.apiSocket.path))))
                   || OnTheWay(cwd, e.vmm.logPath, k) || OnTheWay(cwd, e.vmm.metricsPath, k)
  {
    var cleared := WithoutSocket(d0, cwd, e).value;
    var logged := WithFile(cleared, cwd, e.vmm.logPath).value;
    forall k
      ensures k in d.tree
              <==> k in cleared.tree || OnTheWay(cwd, e.vmm.logPath, k) || OnTheWay(cwd, e.vmm.metricsPath, k)
      ensures k in cleared.tree
              <==> k in d0.tree && !(e.vmm.apiSocket.Enabled? && k == Resolve(cwd, Parse(e.vmm.apiSocket.path)))
    {
      FileIsMade(cleared, cwd, e.vmm.logPath, None, k);
      FileIsMade(logged, cwd, e.vmm.metricsPath, e.vmm.logPath, k);
    }
    FileIsMade(cleared, cwd, e.vmm.logPath, None, []);
    FileIsMade(logged, cwd, e.vmm.metricsPath, e.vmm.logPath, []);
  }

  method CheckResources(e: UnrestrictedExecutor, host: Host, outer: seq<PathBuf>)
    returns (error: Option<ExecutorError>)
    ensures error == None ==> forall p :: p in outer ==> host.At(p) in host.disk.tree
    ensures error.Some? && error.value.ExpectedResourceMissing? ==>
              error.value.path in outer && host.At(error.value.path) !in host.disk.tree
    ensures host.obliging ==> (error == None <==> forall p :: p in outer ==> host.At(p) in host.disk.tree)
  {
    for i := 0 to |outer|
      invariant forall p :: p in outer[..i] ==> host.At(p) in host.disk.tree
    {
      assert outer[..i + 1] == outer[..i] + [outer[i]];
      var found := host.TryExists(outer[i]);
      if found.None? {
        return Some(IoError);
      }
      if !found.value {
        return Some(ExpectedResourceMissing(outer[i]));
      }
      var ok := host.ForceChown(outer[i]);
      if !ok {
        return Some(ShellCommandFailed);
      }
    }
    assert outer[..|outer|] == outer;
    error := None;
  }

  /** `prepare` of the unrestricted executor. */
  method Prepare(e: UnrestrictedExecutor, host: Host, outer: seq<PathBuf>)
    returns (r: Result<map<PathBuf, PathBuf>, ExecutorError>)
    modifies host
    ensures r.Ok? ==> IsIdentity(outer, r.value)
    ensures r.Ok? ==> Prepared(host.cwd, e, outer, old(host.disk), host.disk)
    ensures host.obliging && MayCreate(e.vmm.logPath) && MayCreate(e.vmm.metricsPath) ==>
              (r.Ok? <==> CanPrepare(host.cwd, e, outer, old(host.disk)))
  {
    var error := CheckResources(e, host, outer);
    if error.Some? {
      return Err(error.value);
    }
    error := RemoveSocket(e, host);
    if error.Some? {
      return Err(error.value);
    }
    var ok := CreateArgumentFile(host, e.vmm.logPath);
    if !ok {
      return Err(IoError);
    }
    ok := CreateArgumentFile(host, e.vmm.metricsPath);
    if !ok {
      return Err(IoError);
    }
    r := Ok(map p | p in outer :: p);
  }

  function FlaggedKeys(cwd: Key, e: UnrestrictedExecutor): set<Key> {
    (if e.removeLogsOnCleanup then OptionalKey(cwd, e.vmm.logPath) else {})
    + (if e.removeMetricsOnCleanup then OptionalKey(cwd, e.vmm.metricsPath) else {})
  }

  method RemoveFlagged(host: Host, flagged: bool, path: Option<string>) returns (ok: bool)
    modifies host
    ensures ok ==> Without(old(host.disk).tree, if flagged then OptionalKey(host.cwd, path) else {}, host.disk.tree)
    ensures host.obliging ==> (ok <==> IsRemovable(host.cwd, flagged, path, old(host.disk).tree))
  {
    ok := true;
    if flagged && path.Some? {
      ok := host.RemoveFile(Parse(path.value));
    }
  }

  lemma RemovedTogether(t: Tree, a: set<Key>, b: set<Key>, c: set<Key>)
    ensures t - a - b - c == t - (a + (b + c))
  {
  }

  /** A flagged file is there to be removed. */
  predicate IsRemovable(cwd: Key, flagged: bool, path: Option<string>, t: Tree) {
    flagged && path.Some? ==> IsFile(t, Resolve(cwd, Parse(path.value)))
  }

  /** Only a file can be at the socket's place, and every flagged file is there when its turn comes. */
  predicate CanClean(cwd: Key, e: UnrestrictedExecutor, t: Tree) {
    && (forall k :: k in SocketKey(cwd, e) && k in t ==> IsFile(t, k))
    && IsRemovable(cwd, e.removeLogsOnCleanup, e.vmm.logPath, t - SocketKey(cwd, e))
    && IsRemovable(cwd, e.removeMetricsOnCleanup, e.vmm.metricsPath,
                   t - SocketKey(cwd, e) - (if e.removeLogsOnCleanup then OptionalKey(cwd, e.vmm.logPath) else {}))
  }

  /** `cleanup` of the unrestricted executor: the socket and the flagged files, and nothing else. */
  method Cleanup(e: UnrestrictedExecutor, host: Host) returns (r: Result<(), ExecutorError>)
    modifies host
    ensures r.Ok? ==> Without(old(host.disk).tree, SocketKey(host.cwd, e) + FlaggedKeys(host.cwd, e), host.disk.tree)
    ensures host.obliging ==> (r.Ok? <==> CanClean(host.cwd, e, old(host.disk).tree))
  {
    ghost var t := host.disk.tree;
    ghost var logs := if e.removeLogsOnCleanup then OptionalKey(host.cwd, e.vmm.logPath) else {};
    ghost var metrics := if e.removeMetricsOnCleanup then OptionalKey(host.cwd, e.vmm.metricsPath) else {};
    SocketMayGo(host.disk, host.cwd, e);
    var error := RemoveSocket(e, host);
    if error.Some? {
      return Err(error.value);
    }
    assert host.disk.tree == t - SocketKey(host.cwd, e);
    var ok := RemoveFlagged(host, e.removeLogsOnCleanup, e.vmm.logPath);
    if !ok {
      return Err(IoError);
    }
    assert host.disk.tree == t - SocketKey(host.cwd, e) - logs;
    ok := RemoveFlagged(host, e.removeMetricsOnCleanup, e.vmm.metricsPath);
    if !ok {
      return Err(IoError);
    }
    RemovedTogether(t, SocketKey(host.cwd, e), logs, metrics);
    r := Ok(());
  }

  lemma SocketMayGo(d: Disk, cwd: Key, e: UnrestrictedExecutor)
    ensures WithoutSocket(d, cwd, e).Some? <==> forall k :: k in SocketKey(cwd, e) && k in d.tree ==> IsFile(d.tree, k)
    ensures WithoutSocket(d, cwd, e).Some? ==> WithoutSocket(d, cwd, e).value.tree == d.tree - SocketKey(cwd, e)
  {
    if WithoutSocket(d, cwd, e).Some? {
      SocketIsGone(d, cwd, e);
    }
  }
}
