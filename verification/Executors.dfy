/** The executors behind one interface, as the upper layers see them. */
module Executors {
  import opened Wrappers
  import opened Paths
  import opened Filesystem
  import opened Inodes
  import opened HostMachine
  import opened ExecutorTypes
  import opened PathRewriting
  import opened Arguments
  import I = Invocation
  import J = Jailed
  import R = JailResults
  import U = Unrestricted

  datatype Executor =
    | JailedKind(jailed: J.JailedExecutor)
    | UnrestrictedKind(plain: U.UnrestrictedExecutor)
  {
    function SocketPath(installation: VmmInstallation): Option<PathBuf> {
      match this
      case JailedKind(e) => e.SocketPath(installation)
      case UnrestrictedKind(e) => e.SocketPath()
    }

    function InnerToOuter(installation: VmmInstallation, inner: PathBuf): PathBuf {
      match this
      case JailedKind(e) => e.InnerToOuter(installation, inner)
      case UnrestrictedKind(_) => inner
    }

    /** The arguments of the VMM that the executor runs. */
    function VmmArgs(): VmmArguments {
      match this
      case JailedKind(e) => e.vmm
      case UnrestrictedKind(e) => e.vmm
    }

    function Traceless(): bool {
      JailedKind?
    }
  }

  /** There is a socket unless the arguments disable it: at its path, as the program sees it from outside. */
  lemma SocketPlace(ex: Executor, installation: VmmInstallation)
    ensures ex.SocketPath(installation).Some? <==> ex.VmmArgs().apiSocket.Enabled?
    ensures ex.VmmArgs().apiSocket.Enabled? ==>
              ex.SocketPath(installation) == Some(ex.InnerToOuter(installation, Parse(ex.VmmArgs().apiSocket.path)))
  {
  }

  /** The answer of the executor to each path it was given. */
  ghost predicate Answers(ex: Executor, outer: seq<PathBuf>, mappings: map<PathBuf, PathBuf>) {
    match ex
    case JailedKind(e) => J.MapsByRenamer(e.renamer, outer, mappings)
    case UnrestrictedKind(_) => U.IsIdentity(outer, mappings)
  }

  ghost predicate ExecutorPrepared(ex: Executor, cwd: Key, installation: VmmInstallation, outer: seq<PathBuf>,
                                   d0: Disk, d: Disk) {
    match ex
    case JailedKind(e) => J.Prepared(e, cwd, installation, outer, d0, d)
    case UnrestrictedKind(e) => U.Prepared(cwd, e, outer, d0, d)
  }

  /** Nothing but the operating system can make the preparation fail. */
  ghost predicate CanPrepare(ex: Executor, cwd: Key, installation: VmmInstallation, outer: seq<PathBuf>, d0: Disk) {
    match ex
    case JailedKind(e) => J.CanPrepare(e, cwd, installation, outer, d0)
    case UnrestrictedKind(e) =>
      U.MayCreate(e.vmm.logPath) && U.MayCreate(e.vmm.metricsPath) && U.CanPrepare(cwd, e, outer, d0)
  }

  method Prepare(ex: Executor, host: Host, installation: VmmInstallation, outer: seq<PathBuf>)
    returns (r: Result<map<PathBuf, PathBuf>, ExecutorError>)
    modifies host
    ensures r.Ok? ==> Answers(ex, outer, r.value) && r.value.Keys == PathSet(outer)
    ensures r.Ok? ==> ExecutorPrepared(ex, host.cwd, installation, outer, old(host.disk), host.disk)
    ensures host.obliging && CanPrepare(ex, host.cwd, installation, outer, old(host.disk)) ==> r.Ok?
  {
    match ex {
      case JailedKind(e) => r := J.Prepare(e, host, installation, outer);
      case UnrestrictedKind(e) => r := U.Prepare(e, host, outer);
    }
  }

  /** No resource is a file the executor makes or removes, under any name, and staging is free of races. */
  ghost predicate ResourcesApart(ex: Executor, cwd: Key, installation: VmmInstallation, outer: seq<PathBuf>, d0: Disk) {
    match ex
    case JailedKind(e) =>
      J.AllRenamed(e.renamer, outer)
      && R.NoInterference(e, cwd, Resolve(cwd, e.JailPath(installation)), outer)
    case UnrestrictedKind(e) => forall p :: p in outer ==> U.Untouched(cwd, e, d0, Resolve(cwd, p))
  }

  /** A prepared executor gives access, under the inner path it answered, to what was at the outer path. */
  lemma PreparedKeepsContents(ex: Executor, cwd: Key, installation: VmmInstallation, outer: seq<PathBuf>, d0: Disk,
                              d: Disk, mappings: map<PathBuf, PathBuf>, p: PathBuf)
    requires ExecutorPrepared(ex, cwd, installation, outer, d0, d)
    requires Answers(ex, outer, mappings) && ResourcesApart(ex, cwd, installation, outer, d0) && p in outer
    ensures p in mappings && Resolve(cwd, p) in d0.tree
    ensures var inside := Resolve(cwd, ex.InnerToOuter(installation, mappings[p]));
            inside in d.tree && d.tree[inside] == d0.tree[Resolve(cwd, p)]
  {
    match ex
    case JailedKind(e) => R.JailHoldsOriginals(e, cwd, installation, outer, d0, d, p);
    case UnrestrictedKind(e) => U.ResourcesAreKept(cwd, e, outer, d0, d, p);
  }

  ghost predicate ExecutorCleaned(ex: Executor, cwd: Key, installation: VmmInstallation, t0: Tree, t: Tree) {
    match ex
    case JailedKind(e) =>
      var jail := Resolve(cwd, e.JailPath(installation));
      jail != [] && IsDir(t0, Up(jail)) && t == RemoveTree(t0, Up(jail))
    case UnrestrictedKind(e) => U.Without(t0, U.SocketKey(cwd, e) + U.FlaggedKeys(cwd, e), t)
  }

  /** What the executor removes is there. */
  ghost predicate CanClean(ex: Executor, cwd: Key, installation: VmmInstallation, t: Tree) {
    match ex
    case JailedKind(e) =>
      var jail := Resolve(cwd, e.JailPath(installation));
      jail != [] && Up(jail) != [] && IsDir(t, Up(jail))
    case UnrestrictedKind(e) => U.CanClean(cwd, e, t)
  }

  method Cleanup(ex: Executor, host: Host, installation: VmmInstallation) returns (r: Result<(), ExecutorError>)
    modifies host
    ensures host.obliging && CanClean(ex, host.cwd, installation, old(host.disk).tree) ==> r.Ok?
    ensures r.Ok? ==> ExecutorCleaned(ex, host.cwd, installation, old(host.disk).tree, host.disk.tree)
  {
    match ex {
      case JailedKind(e) =>
        J.JailPathShape(e, installation);
        r := R.Cleanup(e, host, installation);
      case UnrestrictedKind(e) => r := U.Cleanup(e, host);
    }
  }

  /** The command that the executor hands to the shell. */
  ghost predicate IsCommand(ex: Executor, installation: VmmInstallation, override: ConfigOverride, command: string) {
    match ex
    case JailedKind(e) =>
      I.IsJailedCommand(installation.jailerPath, e.jailer, installation.firecrackerPath, e.vmm, override, command)
    case UnrestrictedKind(e) => I.IsUnrestrictedCommand(installation.firecrackerPath, e.vmm, e.id, override, command)
  }

  /** The first part of `invoke`: the command for the shell. */
  method Command(ex: Executor, installation: VmmInstallation, override: ConfigOverride) returns (command: string)
    ensures IsCommand(ex, installation, override, command)
  {
    match ex {
      case JailedKind(e) =>
        command := I.JailedCommand(installation.jailerPath, e.jailer, installation.firecrackerPath, e.vmm, override);
      case UnrestrictedKind(e) =>
        command := I.UnrestrictedCommand(installation.firecrackerPath, e.vmm, e.id, override);
    }
  }
}
