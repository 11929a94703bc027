/**
 A whole VM life in a jail: prepared by copying, its device files created, started, used and cleaned up.  Everything it
 leaves behind is known.
 */
module JailedLife {
  import opened Wrappers
  import opened Paths
  import opened Filesystem
  import opened Inodes
  import opened Staging
  import opened ExecutorTypes
  import opened Executors
  import opened Configuration
  import opened PathRewriting
  import opened VmTypes
  import opened VmPrepare
  import opened VmMachine
  import J = Jailed
  import R = JailResults

  /** The jail as its user finds it: all levels down to its root are directories, and its files have one name each. */
  ghost predicate JailStands(d: Disk, jail: Key) {
    (forall j :: j <= jail ==> IsDir(d.tree, j)) && SoleBelow(d, jail)
  }

  // ---------------------------------------------------------------- what happens inside

  lemma CreateStaysInside(d: Disk, k: Key, onlyTree: bool, jail: Key)
    requires JailStands(d, jail) && jail <= k && TryCreate(d, k, onlyTree).Some?
    ensures JailStands(TryCreate(d, k, onlyTree).value, jail)
    ensures J.SameOutside(d.tree, TryCreate(d, k, onlyTree).value.tree, jail)
  {
    var u := TryCreate(d, k, onlyTree).value;
    J.SoleAt(d, jail, k);
    CreateSole(d, k, onlyTree);
    CreateKeepsSole(d, k, onlyTree, jail);
    forall j | !(jail <= j)
      ensures SameAt(d.tree, u.tree, j)
    {
      if k != [] && j <= Up(k) {
        PrefixesCompare(j, jail, k);
        assert IsDir(d.tree, j);
      }
    }
    forall j | j <= jail
      ensures IsDir(u.tree, j)
    {
      assert IsDir(d.tree, j);
    }
  }

  lemma WriteStaysInside(d: Disk, k: Key, content: string, jail: Key)
    requires JailStands(d, jail) && jail <= k && TryWrite(d, k, content).Some?
    ensures JailStands(TryWrite(d, k, content).value, jail)
    ensures J.SameOutside(d.tree, TryWrite(d, k, content).value.tree, jail)
  {
    J.SoleAt(d, jail, k);
    OpenSole(d, k);
    OpenKeepsSole(d, k, jail);
    var opened' := Open(d, k);
    R.WriteInsideStaysInside(opened', jail, k, content);
    forall j | j <= jail
      ensures IsDir(Write(opened', k, content).tree, j)
    {
      assert IsDir(d.tree, j) && IsDir(opened'.tree, j);
    }
    forall j | !(jail <= j)
      ensures SameAt(d.tree, Write(opened', k, content).tree, j)
    {
      assert SameAt(d.tree, opened'.tree, j) && SameAt(opened'.tree, Write(opened', k, content).tree, j);
    }
  }

  lemma OpenKeepsSole(d: Disk, k: Key, jail: Key)
    requires SoleBelow(d, jail) && CanCreate(d.tree, k)
    ensures SoleBelow(Open(d, k), jail)
  {
    var u := Open(d, k);
    forall i, j | i in u.inodes && jail <= i && j in u.inodes && j != i
      ensures !SameFile(u, j, i)
    {
      if i in d.inodes && j in d.inodes {
        assert HasOneName(d, i);
      }
    }
  }

  lemma OutsideThen(t: Tree, u: Tree, v: Tree, jail: Key)
    requires J.SameOutside(t, u, jail) && J.SameOutside(u, v, jail)
    ensures J.SameOutside(t, v, jail)
  {
    forall k | !(jail <= k)
      ensures SameAt(t, v, k)
    {
      assert SameAt(t, u, k) && SameAt(u, v, k);
    }
  }

  lemma DeviceFileStaysInside(d: Disk, e: J.JailedExecutor, cwd: Key, installation: VmmInstallation,
                              inner: Option<PathBuf>, onlyTree: bool)
    requires JailStands(d, Resolve(cwd, e.JailPath(installation)))
    requires WithDeviceFile(d, cwd, OuterOf(JailedKind(e), installation, inner), onlyTree).Some?
    ensures var u := WithDeviceFile(d, cwd, OuterOf(JailedKind(e), installation, inner), onlyTree).value;
            var jail := Resolve(cwd, e.JailPath(installation));
            JailStands(u, jail) && J.SameOutside(d.tree, u.tree, jail)
  {
    if inner.Some? {
      var jail := Resolve(cwd, e.JailPath(installation));
      J.JailPathShape(e, installation);
      J.ResolveJailJoin(cwd, e.JailPath(installation), inner.value);
      CreateStaysInside(d, jail + inner.value.parts, onlyTree, jail);
    }
  }

  lemma LogAndMetricsStayInside(d: Disk, e: J.JailedExecutor, cwd: Key, installation: VmmInstallation,
                                log: Option<PathBuf>, metrics: Option<PathBuf>)
    requires JailStands(d, Resolve(cwd, e.JailPath(installation)))
    requires WithLogAndMetrics(d, cwd, OuterOf(JailedKind(e), installation, log),
                               OuterOf(JailedKind(e), installation, metrics)).Some?
    ensures var u := WithLogAndMetrics(d, cwd, OuterOf(JailedKind(e), installation, log),
                                       OuterOf(JailedKind(e), installation, metrics)).value;
            var jail := Resolve(cwd, e.JailPath(installation));
            JailStands(u, jail) && J.SameOutside(d.tree, u.tree, jail)
  {
    var middle := WithDeviceFile(d, cwd, OuterOf(JailedKind(e), installation, log), false).value;
    DeviceFileStaysInside(d, e, cwd, installation, log, false);
    DeviceFileStaysInside(middle, e, cwd, installation, metrics, false);
    OutsideThen(d.tree, middle.tree,
                WithDeviceFile(middle, cwd, OuterOf(JailedKind(e), installation, metrics), false).value.tree,
                Resolve(cwd, e.JailPath(installation)));
  }

  /** The files of log, metrics and vsock devices are made in the jail and nowhere else. */
  lemma DevicesStayInside(d: Disk, e: J.JailedExecutor, cwd: Key, installation: VmmInstallation,
                          data: VmConfigurationData)
    requires JailStands(d, Resolve(cwd, e.JailPath(installation)))
    requires WithDevices(d, JailedKind(e), cwd, installation, data).Some?
    ensures var u := WithDevices(d, JailedKind(e), cwd, installation, data).value;
            var jail := Resolve(cwd, e.JailPath(installation));
            JailStands(u, jail) && J.SameOutside(d.tree, u.tree, jail)
  {
    var ex, jail := JailedKind(e), Resolve(cwd, e.JailPath(installation));
    var log, metrics := OuterOf(ex, installation, LogPathOf(data)), OuterOf(ex, installation, MetricsPathOf(data));
    var u := WithLogAndMetrics(d, cwd, log, metrics).value;
    var v := WithDeviceFile(u, cwd, OuterOf(ex, installation, VsockPathOf(data)), true).value;
    LogAndMetricsStayInside(d, e, cwd, installation, LogPathOf(data), MetricsPathOf(data));
    DeviceFileStaysInside(u, e, cwd, installation, VsockPathOf(data), true);
    LogAndMetricsStayInside(v, e, cwd, installation, LogPathOf(data), MetricsPathOf(data));
    OutsideThen(d.tree, u.tree, v.tree, jail);
    OutsideThen(d.tree, v.tree, WithLogAndMetrics(v, cwd, log, metrics).value.tree, jail);
  }

  /** A jail that has been prepared by copying stands. */
  lemma PreparedJailStands(e: J.JailedExecutor, cwd: Key, installation: VmmInstallation, outer: seq<PathBuf>,
                           d0: Disk, d: Disk)
    requires e.moveMethod == ByCopy && J.Prepared(e, cwd, installation, outer, d0, d)
    ensures JailStands(d, Resolve(cwd, e.JailPath(installation)))
  {
  }

  // ---------------------------------------------------------------- what happens outside

  /** The tree `u` is the tree `t` but for directories that may be new above `k`. */
  ghost predicate OnlyLevels(t: Tree, u: Tree, k: Key, jail: Key) {
    forall j :: !(jail <= j) ==> SameAt(t, u, j) || (j !in t && Above(j, k) && IsDir(u, j))
  }

  /** All levels above `k` are there. */
  ghost predicate HasLevels(t: Tree, k: Key) {
    forall j :: Above(j, k) ==> j in t
  }

  lemma LevelsAreMade(d: Disk, made: Key, k: Key, jail: Key)
    requires JailStands(d, jail) && k != [] && made <= Up(k) && TryAddDirs(d, made).Some?
    ensures JailStands(TryAddDirs(d, made).value, jail)
    ensures OnlyLevels(d.tree, TryAddDirs(d, made).value.tree, k, jail)
    ensures made == Up(k) ==> HasLevels(TryAddDirs(d, made).value.tree, k)
  {
    var u := TryAddDirs(d, made).value;
    forall j | j <= jail
      ensures IsDir(u.tree, j)
    {
      assert IsDir(d.tree, j);
    }
    forall i | i in u.inodes && jail <= i
      ensures HasOneName(u, i)
    {
      assert HasOneName(d, i);
    }
    forall j
      ensures j <= Up(k) <==> Above(j, k)
    {
      AboveIsUpTo(j, k);
    }
  }

  lemma AboveIsUpTo(j: Key, k: Key)
    requires k != []
    ensures j <= Up(k) <==> Above(j, k)
  {
    if Above(j, k) {
      assert j == k[..|j|] == Up(k)[..|j|];
    }
  }

  /** Where a JSON configuration makes directories on the host: above its inner path as it stands. */
  function JsonKey(cwd: Key, json: Option<PathBuf>): Key {
    if json.Some? && json.value.parts != [] then Resolve(cwd, json.value) else []
  }

  /** Writing a JSON configuration makes directories on the host, above the inner path as it stands. */
  lemma JsonReachesOutside(e: J.JailedExecutor, cwd: Key, installation: VmmInstallation, inner: PathBuf, text: string,
                           d: Disk)
    requires JailStands(d, Resolve(cwd, e.JailPath(installation)))
    requires WithJson(Context(JailedKind(e), installation), cwd, inner, text, d).Some?
    ensures var u := WithJson(Context(JailedKind(e), installation), cwd, inner, text, d).value.tree;
            var k, jail := JsonKey(cwd, Some(inner)), Resolve(cwd, e.JailPath(installation));
            OnlyLevels(d.tree, u, k, jail) && HasLevels(u, k)
  {
    var jail, k := Resolve(cwd, e.JailPath(installation)), Resolve(cwd, e.InnerToOuter(installation, inner));
    var above := JsonKey(cwd, Some(inner));
    var made := if inner.parts == [] then d else TryCreate(d, above, true).value;
    J.ResolveJailJoin(cwd, e.JailPath(installation), inner);
    if inner.parts != [] {
      LevelsAreMade(d, Up(above), above, jail);
    }
    WriteStaysInside(made, k, text, jail);
    LevelsThen(d.tree, made.tree, TryWrite(made, k, text).value.tree, above, jail);
  }

  lemma LevelsThen(t: Tree, u: Tree, v: Tree, k: Key, jail: Key)
    requires OnlyLevels(t, u, k, jail) && J.SameOutside(u, v, jail)
    ensures OnlyLevels(t, v, k, jail)
  {
    forall j | !(jail <= j)
      ensures SameAt(t, v, j) || (j !in t && Above(j, k) && IsDir(v, j))
    {
      assert SameAt(t, u, j) || (j !in t && Above(j, k) && IsDir(u, j));
      assert SameAt(u, v, j);
    }
  }

  /** The disk after `start`: as prepared, or with what the attempt to write a JSON configuration left. */
  ghost predicate Begun(x: Context, cwd: Key, json: Option<PathBuf>, prepared: Disk, begun: Disk) {
    match json
    case None => begun == prepared
    case Some(inner) => JsonTried(x, cwd, inner, prepared, begun)
  }

  /** The JSON configuration was written, as far as its file goes. */
  ghost predicate JsonReached(x: Context, cwd: Key, json: Option<PathBuf>, prepared: Disk, begun: Disk) {
    json.Some? && exists text :: WithJson(x, cwd, json.value, text, prepared) == Some(begun)
  }

  /**
   * A jailed VM leaves no traces, with one exception: a JSON configuration leaves the directories above its inner path
   * on the host, where no cleanup looks for them.  From any disk: preparation of the VM by copying, `start` with any
   * outcome, any writes below the root of the jail, removal of the directory of the identifier.  Nothing is left where
   * the jail was, and every other location is as in the beginning but for directories on the way to the jail, to the
   * base, and those above the JSON path, all of which are there once the file could be opened.
   */
  lemma JailedVmIsTraceless(e: J.JailedExecutor, cwd: Key, installation: VmmInstallation, c: VmConfiguration,
                            d0: Disk, prepared: Disk, original: VmConfigurationData, d: VmConfiguration,
                            accessible: AccessiblePaths, json: Option<PathBuf>, begun: Disk, used: Tree)
    requires e.moveMethod == ByCopy
    requires IsPrepared(JailedKind(e), cwd, installation, c, d0, prepared, original, d, accessible)
    requires Begun(Context(JailedKind(e), installation), cwd, json, prepared, begun)
    requires J.SameOutside(begun.tree, used, Resolve(cwd, e.JailPath(installation)))
    ensures var base, jail := Resolve(cwd, e.BaseDir()), Resolve(cwd, e.JailPath(installation));
            jail != [] &&
            (var gone, after := Up(jail), RemoveTree(used, Up(jail));
             && (forall k :: gone <= k ==> k !in after)
             && (forall k :: !(gone <= k) ==>
                   SameAt(d0.tree, after, k)
                   || (k !in d0.tree && IsDir(after, k) && (k <= gone || k <= base || Above(k, JsonKey(cwd, json)))))
             && (JsonReached(Context(JailedKind(e), installation), cwd, json, prepared, begun) ==>
                   forall k :: Above(k, JsonKey(cwd, json)) && !(gone <= k) ==> k in after))
  {
    var jail, base := Resolve(cwd, e.JailPath(installation)), Resolve(cwd, e.BaseDir());
    J.JailPathShape(e, installation);
    var mappings, staged :| PreparedVia(JailedKind(e), cwd, installation, c, d0, prepared, d, mappings, staged);
    PreparedJailStands(e, cwd, installation, ResourcePaths(c), d0, staged);
    DevicesStayInside(staged, e, cwd, installation, d.data);
    BegunOutside(e, cwd, installation, json, prepared, begun);
    R.JailIsTraceless(e, cwd, installation, ResourcePaths(c), d0, staged, prepared.tree);
    LeftAfterLife(d0.tree, prepared.tree, begun.tree, used, jail, base, JsonKey(cwd, json));
  }

  /** The trees of a life, one after the other. */
  lemma LeftAfterLife(t0: Tree, prepared: Tree, begun: Tree, used: Tree, jail: Key, base: Key, json: Key)
    requires jail != [] && OnlyLevels(prepared, begun, json, jail) && J.SameOutside(begun, used, jail)
    requires var gone, after := Up(jail), RemoveTree(prepared, Up(jail));
             forall k :: !(gone <= k) ==>
               SameAt(t0, after, k) || (k !in t0 && IsDir(after, k) && (k <= gone || k <= base))
    ensures var gone, after := Up(jail), RemoveTree(used, Up(jail));
            && (forall k :: !(gone <= k) ==>
                  SameAt(t0, after, k)
                  || (k !in t0 && IsDir(after, k) && (k <= gone || k <= base || Above(k, json))))
            && (HasLevels(begun, json) ==> forall k :: Above(k, json) && !(gone <= k) ==> k in after)
  {
    var gone := Up(jail);
    var before, after := RemoveTree(prepared, gone), RemoveTree(used, gone);
    forall k | !(gone <= k)
      ensures SameAt(t0, after, k) || (k !in t0 && IsDir(after, k) && (k <= gone || k <= base || Above(k, json)))
      ensures k in begun ==> k in after
    {
      assert SameAt(prepared, begun, k) || (k !in prepared && Above(k, json) && IsDir(begun, k));
      assert jail <= k ==> gone <= k;
      assert SameAt(begun, used, k) && SameAt(used, after, k) && SameAt(prepared, before, k);
      assert SameAt(t0, before, k) || (k !in t0 && IsDir(before, k) && (k <= gone || k <= base));
    }
  }

  /** What `start` does outside the jail. */
  lemma BegunOutside(e: J.JailedExecutor, cwd: Key, installation: VmmInstallation, json: Option<PathBuf>,
                     prepared: Disk, begun: Disk)
    requires JailStands(prepared, Resolve(cwd, e.JailPath(installation)))
    requires Begun(Context(JailedKind(e), installation), cwd, json, prepared, begun)
    ensures OnlyLevels(prepared.tree, begun.tree, JsonKey(cwd, json), Resolve(cwd, e.JailPath(installation)))
    ensures JsonReached(Context(JailedKind(e), installation), cwd, json, prepared, begun) ==>
              HasLevels(begun.tree, JsonKey(cwd, json))
  {
    var x := Context(JailedKind(e), installation);
    if JsonReached(x, cwd, json, prepared, begun) {
      var text :| WithJson(x, cwd, json.value, text, prepared) == Some(begun);
      JsonReachesOutside(e, cwd, installation, json.value, text, prepared);
    } else if json.Some? && json.value.parts != [] {
      var k := JsonKey(cwd, json);
      var n :| 0 <= n <= |Up(k)| && TryAddDirs(prepared, Up(k)[..n]) == Some(begun);
      LevelsAreMade(prepared, Up(k)[..n], k, Resolve(cwd, e.JailPath(installation)));
    }
  }
}
