/**
 What a successful `start` has brought about, in terms of the configuration: which configuration file the VMM is told
 about and what that file holds, and what the API server holds afterwards.
 */
module StartResults {
  import opened Wrappers
  import opened Filesystem
  import I = Inodes
  import opened CommandLine
  import opened Arguments
  import opened JailerLine
  import opened Invocation
  import opened Executors
  import opened Configuration
  import opened ExecutorTypes
  import opened Process
  import opened VmTypes
  import opened Api
  import opened BootPlan
  import opened BootStore
  import opened VmMachine
  import opened VmRuns
  import P = Paths

  // ---------------------------------------------------------------- the configuration file

  /** The part of the command line that the VMM itself gets. */
  function VmmPart(ex: Executor, command: string): seq<string> {
    var tokens := Split(command)[1..];
    if ex.UnrestrictedKind? then tokens
    else if FirstDashes(tokens) < |tokens| then tokens[FirstDashes(tokens) + 1..] else []
  }

  /** No value in the command contains a space or stands for the separator, and an identifier is a valid one. */
  predicate IsPlain(ex: Executor, installation: VmmInstallation, override: ConfigOverride) {
    && VmmSpaceFree(ex.VmmArgs(), EffectiveConfig(ex.VmmArgs(), override))
    && match ex
       case JailedKind(e) =>
         && SpaceFree(installation.jailerPath) && JailerSpaceFree(e.jailer, installation.firecrackerPath)
         && NoLoneDashes(e.jailer, installation.firecrackerPath)
         && KeysPlain(e.jailer.cgroupValues) && KeysPlain(e.jailer.resourceLimits)
       case UnrestrictedKind(e) =>
         SpaceFree(installation.firecrackerPath) && (e.id.Some? ==> NewVmmId(e.id.value.text) == Ok(e.id.value))
  }

  /** With either executor the VMM reads its own arguments and the configuration file that the override says. */
  lemma VmmReadsItsArguments(ex: Executor, installation: VmmInstallation, override: ConfigOverride, command: string)
    requires IsCommand(ex, installation, override, command) && IsPlain(ex, installation, override)
    ensures VmmTokens(ex.VmmArgs(), override, VmmPart(ex, command))
  {
    match ex
    case JailedKind(e) =>
      ReceiverCutsAtDashes(installation.jailerPath, e.jailer, installation.firecrackerPath, e.vmm, override, command);
    case UnrestrictedKind(e) =>
      if e.id.Some? {
        UnrestrictedCommandReadsBack(installation.firecrackerPath, e.vmm, e.id.value, override, command);
      } else {
        PlainCommandReadsBack(installation.firecrackerPath, e.vmm, override, command);
      }
  }

  /** What the VMM is told about its configuration file. */
  ghost function ToldConfig(ex: Executor, command: string): Option<string> {
    match Parse(VmmPart(ex, command))
    case None => None
    case Some(r) => TextOf(r, ConfigFile)
  }

  /** After an attempt that succeeded the file at the inner path, seen from outside, is the printed configuration. */
  lemma JsonIsInPlace(x: Context, cwd: Key, inner: P.PathBuf, text: string, d: I.Disk)
    requires WithJson(x, cwd, inner, text, d).Some?
    ensures var t, k := WithJson(x, cwd, inner, text, d).value.tree, Resolve(cwd, x.Outer(inner));
            k in t && t[k] == File(text)
  {
  }

  /**
   * A VM that is configured by JSON: the VMM is told about one configuration file, whatever its arguments say, and
   * that path, as the VMM sees it, leads to the file in which the configuration has been written.
   */
  lemma VmmFindsItsJson(x: Context, cwd: Key, inner: P.PathBuf, data: VmConfigurationData, text: string, d: I.Disk,
                        command: string)
    requires WithJson(x, cwd, inner, text, d).Some?
    requires IsStartCommand(x, New(ViaJsonConfiguration(inner), data), command)
    requires IsPlain(x.executor, x.installation, Enable(inner.Text()))
    requires forall part :: part in inner.parts ==> P.IsComponent(part)
    ensures ToldConfig(x.executor, command).Some?
    ensures var t := WithJson(x, cwd, inner, text, d).value.tree;
            var k := Resolve(cwd, x.Outer(P.Parse(ToldConfig(x.executor, command).value)));
            k in t && t[k] == File(text)
  {
    VmmReadsItsArguments(x.executor, x.installation, Enable(inner.Text()), command);
    JsonIsInPlace(x, cwd, inner, text, d);
    P.ParseOfText(inner);
  }

  /** Any other VM: the VMM is told about the configuration file of its arguments, or about none. */
  lemma OtherVmmKeepsItsConfig(x: Context, c: VmConfiguration, command: string)
    requires IsStartCommand(x, c, command) && !(c.New? && c.initMethod.ViaJsonConfiguration?)
    requires IsPlain(x.executor, x.installation, NoOverride)
    ensures ToldConfig(x.executor, command) == x.executor.VmmArgs().configPath
  {
    VmmReadsItsArguments(x.executor, x.installation, NoOverride, command);
  }

  // ---------------------------------------------------------------- the API server

  /** What has been sent to the server, and that it holds, for each way to bring up a VM. */
  ghost predicate Initialised(c: VmConfiguration, accepted: seq<Request>) {
    var store := Store(accepted);
    match c
    case New(ViaApiCalls, data) =>
      && accepted != [] && accepted[|accepted| - 1] == START && InStages(accepted)
      && HoldsParts(store, data) && HoldsNoOthers(store, data)
      && (HoldsLists(store, data) <==> IdsIdentify(data))
    case New(ViaJsonConfiguration(_), _) => accepted == []
    case RestoredFromSnapshot(load, data) =>
      && accepted != [] && accepted[|accepted| - 1] == Put(SnapshotLoadRoute, LoadBody(load)) && InStages(accepted)
      && (forall route: Route :: Holds(store, route, RestoredPartOf(data, load, route)))
  }

  lemma PlanInitialises(c: VmConfiguration)
    ensures Initialised(c, InitPlan(c))
  {
    match c
    case New(ViaApiCalls, data) =>
      AcceptedPlanReadsBack(data);
      NewPlanGoesByStages(data);
    case New(ViaJsonConfiguration(_), _) =>
    case RestoredFromSnapshot(load, data) =>
      AcceptedRestoreReadsBack(data, load);
      RestorePlanGoesByStages(data, load);
  }

  /**
   * A `start` that returns Ok: the server holds exactly what the configuration says, and the instance has been
   * started, or the snapshot loaded, as the last thing; a VM configured by JSON has sent nothing.
   */
  lemma StartedServerHolds(c: VmConfiguration, w: World, env: StartEnv)
    requires Sound(c, w) && Start(w, env).1 == StartReturned(Ok(()))
    ensures var begun := BootPlan.Progress(Invoke(w.vm.proc, env.second, env.spawned).0, [], []);
            exists end: BootPlan.Progress ::
              && Follow(begun, InitPlan(c), env.script, 0) == (end, Ok(()))
              && Start(w, env).0.vm.proc == end.proc && Initialised(c, end.accepted)
  {
    StartedMeansAccepted(c, w, env);
    PlanInitialises(c);
    var begun := BootPlan.Progress(Invoke(w.vm.proc, env.second, env.spawned).0, [], []);
    var end := Follow(begun, InitPlan(c), env.script, 0).0;
    assert Follow(begun, InitPlan(c), env.script, 0) == (end, Ok(()));
  }

  /** Without its socket the VMM is left running and nothing has been sent to it. */
  lemma NoSocketNoRequest(c: VmConfiguration, w: World, env: StartEnv)
    requires Sound(c, w) && w.vm.proc.state == AwaitingStart && w.vm.configuration == Some(c)
    requires JsonError(c, env).None? && env.spawned.Ok? && !env.socket.Appears?
    ensures var (after, out) := Start(w, env);
            && after.vm.proc.state == Started && !after.vm.proc.client
            && out == StartReturned(Err(if env.socket.WaitTimesOut? then TimedOut else IoFailed))
  {
  }
}
