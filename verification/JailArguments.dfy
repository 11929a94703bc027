/**
 What the arguments of a jailed VMM find in their jail: the directory of the API socket and empty files for log and
 metrics, said in terms of the argument texts, exactly, and from the empty jail to the end of the preparation.
 */
module JailArguments {
  import opened Wrappers
  import opened Paths
  import opened Filesystem
  import opened Inodes
  import opened Staging
  import opened StagingRaces
  import opened Arguments
  import opened ExecutorTypes
  import opened Jailed

  /** Where a path among the arguments leads to inside the jail. */
  function Place(jail: Key, path: string): Key {
    jail + Parse(path).parts
  }

  /** The directory of the API socket, or the root of the jail if there is no socket or nothing names a directory. */
  function SocketDir(e: JailedExecutor, jail: Key): Key {
    if e.vmm.apiSocket.Enabled? && Parse(e.vmm.apiSocket.path).parts != [] then Up(Place(jail, e.vmm.apiSocket.path))
    else jail
  }

  /** The location is on the way to something the arguments name. */
  predicate IsNamed(e: JailedExecutor, jail: Key, k: Key) {
    || k <= SocketDir(e, jail)
    || (e.vmm.logPath.Some? && k <= Place(jail, e.vmm.logPath.value))
    || (e.vmm.metricsPath.Some? && k <= Place(jail, e.vmm.metricsPath.value))
  }

  /** The directory of the socket is there, and log and metrics files are there and are files. */
  ghost predicate Furnished(e: JailedExecutor, jail: Key, t: Tree) {
    && IsDir(t, SocketDir(e, jail))
    && (e.vmm.logPath.Some? ==> IsFile(t, Place(jail, e.vmm.logPath.value)))
    && (e.vmm.metricsPath.Some? ==> IsFile(t, Place(jail, e.vmm.metricsPath.value)))
  }

  // ---------------------------------------------------------------- one argument at a time

  /** `u` is `t` with directories at all levels up to `k` and everything else as it was. */
  ghost predicate WithLevels(t: Tree, k: Key, u: Tree) {
    && (forall j :: j in u <==> j in t || j <= k)
    && (forall j :: j <= k ==> IsDir(u, j))
    && (forall j :: j in t ==> u[j] == t[j])
  }

  lemma SocketDirIsMade(e: JailedExecutor, t: Tree, jail: Key)
    requires RootIsOpen(t, jail) && WithSocketParent(e.vmm.apiSocket, t, jail).Some?
    ensures WithLevels(t, SocketDir(e, jail), WithSocketParent(e.vmm.apiSocket, t, jail).value)
  {
    forall j | j <= jail
      ensures j in t
    {
      assert IsDir(t, j);
    }
    if e.vmm.apiSocket.Enabled? && Parse(e.vmm.apiSocket.path).parts != [] {
      var parts := Parse(e.vmm.apiSocket.path).parts;
      assert SocketDir(e, jail) == jail + parts[..|parts| - 1];
    }
  }

  /** `u` is `t` with an empty file at `k`, the directories above it, and everything else as it was. */
  ghost predicate WithEmptyFile(t: Tree, k: Key, u: Tree) {
    && (forall j :: j in u <==> j in t || j <= k)
    && (forall j :: Above(j, k) ==> IsDir(u, j))
    && k in u && u[k] == File("")
    && !IsDir(t, k)
    && (forall j :: j in t && j != k ==> u[j] == t[j])
  }

  lemma FileIsMade(path: string, t: Tree, jail: Key)
    requires WithFile(Some(path), t, jail).Some? && jail != []
    ensures WithEmptyFile(t, Place(jail, path), WithFile(Some(path), t, jail).value)
  {
    var k := Place(jail, path);
    var levels := MkdirAll(t, Up(k));
    assert WithFile(Some(path), t, jail) == Some(levels[k := File("")]);
    forall j
      ensures j in levels[k := File("")] <==> j in t || j <= k
      ensures Above(j, k) <==> j <= Up(k)
    {
      UpToOrSame(j, k);
    }
  }

  lemma UpToOrSame(j: Key, k: Key)
    requires k != []
    ensures j <= k <==> j == k || j <= Up(k)
    ensures Above(j, k) <==> j <= Up(k)
  {
    if Above(j, k) {
      assert j == k[..|j|] == Up(k)[..|j|];
    }
  }

  // ---------------------------------------------------------------- the empty jail

  /** An argument that is a file: without one nothing happens. */
  ghost predicate WithOptionalFile(path: Option<string>, jail: Key, t: Tree, u: Tree) {
    match path
    case None => u == t
    case Some(p) => WithEmptyFile(t, Place(jail, p), u)
  }

  lemma OptionalFileIsMade(path: Option<string>, t: Tree, jail: Key)
    requires WithFile(path, t, jail).Some? && jail != []
    ensures WithOptionalFile(path, jail, t, WithFile(path, t, jail).value)
  {
    if path.Some? {
      FileIsMade(path.value, t, jail);
    }
  }

  /** The argument's file, if there is one, is there and empty. */
  predicate HasEmpty(path: Option<string>, jail: Key, t: Tree) {
    path.Some? ==> Place(jail, path.value) in t && t[Place(jail, path.value)] == File("")
  }

  predicate OnTheWay(path: Option<string>, jail: Key, k: Key) {
    path.Some? && k <= Place(jail, path.value)
  }

  /** Making a file keeps directories and empty files, and adds the levels on its way. */
  lemma OptionalFileAdds(path: Option<string>, jail: Key, t: Tree, u: Tree, k: Key, other: Option<string>)
    requires WithOptionalFile(path, jail, t, u)
    ensures k in u <==> k in t || OnTheWay(path, jail, k)
    ensures IsDir(t, k) ==> IsDir(u, k)
    ensures HasEmpty(path, jail, u)
    ensures HasEmpty(other, jail, t) ==> HasEmpty(other, jail, u)
  {
  }

  /** What is in the jail after each of the arguments in turn. */
  lemma ArgumentsAdd(e: JailedExecutor, rooted: Tree, jail: Key, k: Key)
    requires jail != [] && RootIsOpen(rooted, jail) && WithArguments(e, rooted, jail).Some?
    ensures var u := WithArguments(e, rooted, jail).value;
            && (k in u <==> k in rooted || IsNamed(e, jail, k))
            && (IsDir(rooted, k) || k == SocketDir(e, jail) ==> IsDir(u, k))
  {
    var socketed := WithSocketParent(e.vmm.apiSocket, rooted, jail).value;
    var logged := WithFile(e.vmm.logPath, socketed, jail).value;
    SocketDirIsMade(e, rooted, jail);
    OptionalFileIsMade(e.vmm.logPath, socketed, jail);
    OptionalFileIsMade(e.vmm.metricsPath, logged, jail);
    OptionalFileAdds(e.vmm.logPath, jail, socketed, logged, k, None);
    OptionalFileAdds(e.vmm.metricsPath, jail, logged, WithArguments(e, rooted, jail).value, k, None);
  }

  lemma ArgumentFilesAreMade(e: JailedExecutor, rooted: Tree, jail: Key)
    requires jail != [] && WithArguments(e, rooted, jail).Some?
    ensures var u := WithArguments(e, rooted, jail).value;
            HasEmpty(e.vmm.logPath, jail, u) && HasEmpty(e.vmm.metricsPath, jail, u)
  {
    var socketed := WithSocketParent(e.vmm.apiSocket, rooted, jail).value;
    var logged := WithFile(e.vmm.logPath, socketed, jail).value;
    var u := WithArguments(e, rooted, jail).value;
    OptionalFileIsMade(e.vmm.logPath, socketed, jail);
    OptionalFileIsMade(e.vmm.metricsPath, logged, jail);
    OptionalFileAdds(e.vmm.logPath, jail, socketed, logged, jail, None);
    OptionalFileAdds(e.vmm.metricsPath, jail, logged, u, jail, e.vmm.logPath);
  }

  /** The empty jail holds exactly what the arguments name and the levels on the way to it. */
  lemma EmptyJailIsFurnished(e: JailedExecutor, t: Tree, base: Key, jail: Key)
    requires jail != [] && WellFormed(t) && EmptyJail(e, t, base, jail).Some?
    ensures var u := EmptyJail(e, t, base, jail).value;
            && (forall k :: jail <= k ==> (k in u <==> IsNamed(e, jail, k)))
            && Furnished(e, jail, u)
            && HasEmpty(e.vmm.logPath, jail, u) && HasEmpty(e.vmm.metricsPath, jail, u)
            && (!(jail <= base) ==> base in u)
  {
    var rooted, u := ClearedJail(t, base, jail).value, EmptyJail(e, t, base, jail).value;
    ClearedJailHolds(t, base, jail);
    ClearedJailShape(t, base, jail);
    BaseIsThere(t, base, jail);
    ArgumentFilesAreMade(e, rooted, jail);
    forall k
      ensures k in u <==> k in rooted || IsNamed(e, jail, k)
      ensures k == SocketDir(e, jail) ==> IsDir(u, k)
    {
      ArgumentsAdd(e, rooted, jail, k);
    }
    assert jail <= SocketDir(e, jail) by {
      JailIsAboveSocket(e, jail);
    }
  }

  lemma JailIsAboveSocket(e: JailedExecutor, jail: Key)
    ensures jail <= SocketDir(e, jail)
  {
    if e.vmm.apiSocket.Enabled? && Parse(e.vmm.apiSocket.path).parts != [] {
      var parts := Parse(e.vmm.apiSocket.path).parts;
      assert SocketDir(e, jail) == jail + parts[..|parts| - 1];
    }
  }

  /** The base directory is there, unless it was a part of the old jail. */
  lemma BaseIsThere(t: Tree, base: Key, jail: Key)
    requires ClearedJail(t, base, jail).Some?
    ensures !(jail <= base) ==> base in ClearedJail(t, base, jail).value
  {
  }

  /** Of what was at the root of the jail nothing is left. */
  lemma ClearedJailHolds(t: Tree, base: Key, jail: Key)
    requires jail != [] && WellFormed(t) && ClearedJail(t, base, jail).Some?
    ensures forall k :: jail <= k ==> (k in ClearedJail(t, base, jail).value <==> k == jail)
  {
    NothingInCleared(t, base, jail);
  }

  // ---------------------------------------------------------------- after the resources have come in

  lemma {:induction false} LoopKeepsNodes(t0: Tree, jobs: seq<Job>, k: Key)
    requires StageAll(t0, jobs).Some?
    ensures IsDir(t0, k) ==> IsDir(StageAll(t0, jobs).value, k)
    ensures IsFile(t0, k) ==> IsFile(StageAll(t0, jobs).value, k)
  {
    if jobs == [] {
    } else {
      LoopKeepsNodes(t0, jobs[..|jobs| - 1], k);
    }
  }

  /** No resource is given the name of the argument's file. */
  predicate NotTaken(path: Option<string>, jail: Key, jobs: seq<Job>) {
    path.Some? ==> forall i :: 0 <= i < |jobs| ==> jobs[i].target != Place(jail, path.value)
  }

  lemma LoopKeepsEmpty(t0: Tree, jobs: seq<Job>, path: Option<string>, jail: Key)
    requires StageAll(t0, jobs).Some? && HasEmpty(path, jail, t0)
    ensures NotTaken(path, jail, jobs) ==> HasEmpty(path, jail, StageAll(t0, jobs).value)
  {
    if path.Some? && NotTaken(path, jail, jobs) {
      LoopKeeps(t0, jobs, Place(jail, path.value));
    }
  }

  /**
   * The jailed VMM can begin its work after a successful preparation whose tasks do not race: the directory of its API
   * socket is there, and so are its log and metrics files, empty unless a resource was given their name.
   */
  lemma PreparedJailIsFurnished(e: JailedExecutor, cwd: Key, installation: VmmInstallation, outer: seq<PathBuf>,
                                d0: Disk, d: Disk)
    requires Prepared(e, cwd, installation, outer, d0, d)
    requires RaceFree(e.moveMethod, JobsFor(cwd, Resolve(cwd, e.JailPath(installation)), e.renamer, outer))
    ensures var jail := Resolve(cwd, e.JailPath(installation));
            var jobs := JobsFor(cwd, jail, e.renamer, outer);
            && Furnished(e, jail, d.tree)
            && (NotTaken(e.vmm.logPath, jail, jobs) ==> HasEmpty(e.vmm.logPath, jail, d.tree))
            && (NotTaken(e.vmm.metricsPath, jail, jobs) ==> HasEmpty(e.vmm.metricsPath, jail, d.tree))
  {
    var base, jail := Resolve(cwd, e.BaseDir()), Resolve(cwd, e.JailPath(installation));
    var jobs, empty := JobsFor(cwd, jail, e.renamer, outer), EmptyJail(e, d0.tree, base, jail).value;
    JailPathShape(e, installation);
    EmptyJailIsFurnished(e, d0.tree, base, jail);
    LoopKeepsNodes(empty, jobs, SocketDir(e, jail));
    LoopKeepsEmpty(empty, jobs, e.vmm.logPath, jail);
    LoopKeepsEmpty(empty, jobs, e.vmm.metricsPath, jail);
    if e.vmm.logPath.Some? {
      LoopKeepsNodes(empty, jobs, Place(jail, e.vmm.logPath.value));
    }
    if e.vmm.metricsPath.Some? {
      LoopKeepsNodes(empty, jobs, Place(jail, e.vmm.metricsPath.value));
    }
  }

  /** The socket of the VMM, where the program looks for it, is below that directory. */
  lemma SocketHasItsDirectory(e: JailedExecutor, cwd: Key, installation: VmmInstallation, outer: seq<PathBuf>,
                              d0: Disk, d: Disk, path: string)
    requires Prepared(e, cwd, installation, outer, d0, d)
    requires RaceFree(e.moveMethod, JobsFor(cwd, Resolve(cwd, e.JailPath(installation)), e.renamer, outer))
    requires e.vmm.apiSocket == Enabled(path) && Parse(path).parts != []
    ensures e.SocketPath(installation).Some?
    ensures var socket := Resolve(cwd, e.SocketPath(installation).value);
            && socket == Resolve(cwd, e.JailPath(installation)) + Parse(path).parts
            && IsDir(d.tree, Up(socket))
  {
    PreparedJailIsFurnished(e, cwd, installation, outer, d0, d);
    ResolveJailJoin(cwd, e.JailPath(installation), Parse(path));
  }

  // ---------------------------------------------------------------- where the jail is

  /** The components of a text that ends in a separator and a name. */
  lemma LastComponent(directory: string, name: string)
    requires IsComponent(name)
    ensures Parse(directory + [SEPARATOR] + name).FileName() == Some(name) == Parse(name).FileName()
  {
    SegmentsSplitAtSeparator(directory, name);
    ParseOfComponent(name);
  }

  lemma TwoComponents(first: string, second: string)
    requires IsComponent(first) && IsComponent(second)
    ensures Parse([SEPARATOR] + first + [SEPARATOR] + second) == PathBuf(true, [first, second])
  {
    ParseOfComponent(first);
    ParseOfComponent(second);
    SegmentsSplitAtSeparator([SEPARATOR] + first, second);
  }

  lemma DefaultBase()
    ensures Parse("/srv/jailer") == PathBuf(true, ["srv", "jailer"])
  {
    assert "/srv/jailer" == [SEPARATOR] + "srv" + [SEPARATOR] + "jailer";
    TwoComponents("srv", "jailer");
  }

  /**
   * The jail path is what joining the texts one after the other gives: the configured base or /srv/jailer, the file
   * name of the binary or else "firecracker", the identifier, whatever it looks like, and "root".
   */
  lemma JailPathOfTexts(e: JailedExecutor, installation: VmmInstallation, directory: string, name: string)
    requires IsComponent(name)
    requires installation.firecrackerPath == name || installation.firecrackerPath == directory + [SEPARATOR] + name
             || (Parse(installation.firecrackerPath).parts == [] && name == "firecracker")
    ensures var base := if e.jailer.chrootBaseDir.Some? then e.jailer.chrootBaseDir.value else "/srv/jailer";
            e.JailPath(installation) == Parse(JoinText(JoinText(JoinText(base, name), e.jailer.jailId), "root"))
  {
    var base := if e.jailer.chrootBaseDir.Some? then e.jailer.chrootBaseDir.value else "/srv/jailer";
    LastComponent(directory, name);
    DefaultBase();
    ParseOfComponent(name);
    ParseOfComponent("root");
    ParseOfJoin(base, name);
    ParseOfJoin(JoinText(base, name), e.jailer.jailId);
    ParseOfJoin(JoinText(JoinText(base, name), e.jailer.jailId), "root");
  }

  /** The flat renamer keeps the file name and nothing else of a path. */
  lemma FlatNameOfText(directory: string, name: string)
    requires IsComponent(name)
    ensures FlatRename(Parse(directory + [SEPARATOR] + name)) == Ok(Parse([SEPARATOR] + name))
    ensures FlatRename(Parse("")) == FlatRename(Parse("/")) == Err(PathHasNoFilename)
  {
    LastComponent(directory, name);
    ParseOfComponent(name);
    assert "/"[1..] == "";
    assert Parse("/").parts == [];
  }
}
