/**
 The VM on top of its process: the pause flag, the take-once configuration and the snapshot traces.  A `World` is the
 VM together with the one fact about the guest that the VM tracks by itself, whether its vCPUs are paused.
 */
module VmMachine {
  import opened Wrappers
  import opened Paths
  import opened Filesystem
  import opened Inodes
  import opened HostMachine
  import opened ExecutorTypes
  import opened Arguments
  import opened Executors
  import opened Configuration
  import opened Process
  import opened VmTypes
  import opened Api
  import opened BootPlan

  datatype Vm = Vm(
    proc: Proc, isPaused: bool, original: VmConfigurationData, configuration: Option<VmConfiguration>,
    traceless: bool, snapshotTraces: seq<PathBuf>, accessible: AccessiblePaths)

  datatype World = World(vm: Vm, guestPaused: bool)

  /** What is fixed for the life of a VM. */
  datatype Context = Context(executor: Executor, installation: VmmInstallation) {
    function Outer(inner: PathBuf): PathBuf {
      executor.InnerToOuter(installation, inner)
    }
  }

  datatype SnapshotData = SnapshotData(
    snapshotPath: PathBuf, memFilePath: PathBuf, configurationData: VmConfigurationData)

  /** The VM as preparation leaves it. */
  function Prepared(data: VmConfigurationData, configuration: VmConfiguration, traceless: bool,
                    accessible: AccessiblePaths): Vm
  {
    Vm(Proc(AwaitingStart, None, None, false), false, data, Some(configuration), traceless, [], accessible)
  }

  function VmStateOf(vm: Vm): VmState {
    match vm.proc.state
    case Started => if vm.isPaused then Paused else Running
    case Exited => VmExited
    case Crashed(status) => VmCrashed(status)
    case _ => NotStarted
  }

  function Look(w: World, m: Moment): World {
    w.(vm := w.vm.(proc := Observe(w.vm.proc, m)))
  }

  function WithProc(w: World, p: Proc): World {
    w.(vm := w.vm.(proc := p))
  }

  predicate PausedOrRunning(s: VmState) {
    s == Paused || s == Running
  }

  predicate ExitedOrCrashed(s: VmState) {
    s.VmExited? || s.VmCrashed?
  }

  function Registered(w: World, path: PathBuf): World {
    var paths := w.vm.accessible;
    w.(vm := w.vm.(accessible := paths.(vsockListenerPaths := paths.vsockListenerPaths + [path])))
  }

  // ---------------------------------------------------------------- pausing

  /** `api_pause` and `api_resume`; `applies` is whether the guest changes as the request asks. */
  function ChangePause(w: World, m: Moment, r: Round, applies: bool, pause: bool): (World, Result<(), VmError>) {
    var needed := if pause then Running else Paused;
    var a := Look(w, m);
    if VmStateOf(a.vm) != needed then (a, Err(ExpectedVmState(needed, VmStateOf(a.vm))))
    else
      var (q, result) := SendExpectingNothing(a.vm.proc, r);
      var b := WithProc(a, q).(guestPaused := if applies then pause else a.guestPaused);
      if result.Err? then (b, result) else (b.(vm := b.vm.(isPaused := pause)), Ok(()))
  }

  /** `api_custom_request`: the caller says what becomes of the pause flag, and every response counts as success. */
  function Custom(w: World, m: Moment, second: Moment, reply: Reply, newIsPaused: Option<bool>,
                  guestAfter: Option<bool>): (World, Result<Response, VmError>) {
    var a := Look(w, m);
    if !PausedOrRunning(VmStateOf(a.vm)) then (a, Err(ExpectedPausedOrRunning(VmStateOf(a.vm))))
    else
      var (q, out) := SendApiRequest(a.vm.proc, second, true, reply);
      var b := WithProc(a, q).(guestPaused := if guestAfter.Some? then guestAfter.value else a.guestPaused);
      match out
      case Returned(Ok(response)) =>
        (b.(vm := b.vm.(isPaused := if newIsPaused.Some? then newIsPaused.value else b.vm.isPaused)), Ok(response))
      case Returned(Err(error)) => (b, Err(ProcessFailed(error)))
      case Panicked => (b, Err(ProcessFailed(RequestFailed)))
  }

  /** Any other binding of the API. */
  function OtherRequest(w: World, m: Moment, r: Round): (World, Result<string, VmError>) {
    var a := Look(w, m);
    if !PausedOrRunning(VmStateOf(a.vm)) then (a, Err(ExpectedPausedOrRunning(VmStateOf(a.vm))))
    else
      var (q, result) := SendRequest(a.vm.proc, r);
      (WithProc(a, q), result)
  }

  /** `take_pipes` of the VM. */
  function TakePipesOf(w: World, m: Moment, second: Moment): (World, Result<(), VmError>) {
    var a := Look(w, m);
    if !PausedOrRunning(VmStateOf(a.vm)) then (a, Err(ExpectedPausedOrRunning(VmStateOf(a.vm))))
    else
      var (q, out) := TakePipes(a.vm.proc, second);
      match out
      case Returned(Ok(_)) => (WithProc(a, q), Ok(()))
      case Returned(Err(error)) => (WithProc(a, q), Err(ProcessFailed(error)))
      case Panicked => (WithProc(a, q), Err(ProcessFailed(PipesNulledOrAlreadyTaken)))
  }

  // ---------------------------------------------------------------- snapshots

  /** `api_create_snapshot`: the paths of the request are inner ones, those of the result outer ones. */
  function CreateSnapshot(x: Context, w: World, m: Moment, r: Round, snapshot: PathBuf, memFile: PathBuf):
    (World, Result<SnapshotData, VmError>)
  {
    var a := Look(w, m);
    if VmStateOf(a.vm) != Paused then (a, Err(ExpectedVmState(Paused, VmStateOf(a.vm))))
    else
      var (q, result) := SendExpectingNothing(a.vm.proc, r);
      var b := WithProc(a, q);
      match result
      case Err(error) => (b, Err(error))
      case Ok(_) =>
        var data := SnapshotData(x.Outer(snapshot), x.Outer(memFile), b.vm.original);
        var traces := if b.vm.traceless then b.vm.snapshotTraces
                      else b.vm.snapshotTraces + [data.snapshotPath] + [data.memFilePath];
        (b.(vm := b.vm.(snapshotTraces := traces)), Ok(data))
  }

  // ---------------------------------------------------------------- starting

  datatype SocketWait = Appears | WaitTimesOut | WaitFailsWithIo

  /** The environment of one `start`. */
  datatype StartEnv = StartEnv(
    m: Moment, json: Option<VmError>, second: Moment, spawned: Result<Pipes, ExecutorError>, socket: SocketWait,
    script: Script)

  datatype StartOutcome = StartReturned(result: Result<(), VmError>) | StartPanicked

  /** A guest that was just started runs; one that was loaded runs only if the request said to resume it. */
  function GuestAfterStart(c: VmConfiguration): bool {
    c.RestoredFromSnapshot? && c.loadSnapshot.resumeVm != Some(true)
  }

  /** The requests by which `start` initialises the VM; a JSON configuration needs none. */
  function InitPlan(c: VmConfiguration): seq<Request> {
    match c
    case New(ViaApiCalls, data) => NewPlan(data)
    case New(ViaJsonConfiguration(_), _) => []
    case RestoredFromSnapshot(load, data) => RestorePlan(data, load)
  }

  function JsonError(c: VmConfiguration, env: StartEnv): Option<VmError> {
    if c.New? && c.initMethod.ViaJsonConfiguration? then env.json else None
  }

  function JsonPathOf(c: VmConfiguration): Option<PathBuf> {
    match c
    case New(ViaJsonConfiguration(inner), _) => Some(inner)
    case _ => None
  }

  /** Where a `start` writes the configuration as JSON, if it gets that far. */
  function JsonPath(w: World, env: StartEnv): Option<PathBuf> {
    var a := Look(w, env.m);
    if VmStateOf(a.vm) != NotStarted || a.vm.configuration.None? then None
    else JsonPathOf(a.vm.configuration.value)
  }

  /**
   * The disk after the configuration has been written: the directories are made above the inner path as it stands, the
   * file is written where the inner path leads to from outside.
   */
  function WithJson(x: Context, cwd: Key, inner: PathBuf, text: string, d: Disk): Option<Disk> {
    var u :- if inner.parts == [] then Some(d) else TryCreate(d, Resolve(cwd, inner), true);
    TryWrite(u, Resolve(cwd, x.Outer(inner)), text)
  }

  /** A JSON configuration is given to the VMM in place of the configuration file of its arguments. */
  ghost predicate IsStartCommand(x: Context, c: VmConfiguration, command: string) {
    match c
    case New(ViaJsonConfiguration(inner), _) =>
      IsCommand(x.executor, x.installation, Enable(inner.Text()), command)
    case _ => IsCommand(x.executor, x.installation, NoOverride, command)
  }

  /** What an attempt to write the configuration leaves behind, wherever it stops. */
  ghost predicate JsonTried(x: Context, cwd: Key, inner: PathBuf, d: Disk, u: Disk) {
    || (if inner.parts == [] then u == d else PartlyMade(d, Up(Resolve(cwd, inner)), u))
    || exists part :: WithJson(x, cwd, inner, part, d) == Some(u)
  }

  function Start(w: World, env: StartEnv): (World, StartOutcome) {
    var a := Look(w, env.m);
    if VmStateOf(a.vm) != NotStarted then
      (a, StartReturned(Err(ExpectedVmState(NotStarted, VmStateOf(a.vm)))))
    else if a.vm.configuration.None? then (a, StartPanicked)
    else
      var c := a.vm.configuration.value;
      var taken := a.(vm := a.vm.(configuration := None));
      if JsonError(c, env).Some? then (taken, StartReturned(Err(JsonError(c, env).value)))
      else StartTaken(taken, c, env)
  }

  /** What becomes of writing the configuration is not looked at once it has been taken. */
  lemma StartTakenIgnoresJson(w: World, c: VmConfiguration, env: StartEnv, json: Option<VmError>)
    ensures StartTaken(w, c, env.(json := json)) == StartTaken(w, c, env)
  {
  }

  /** `start` once the configuration has been taken and, if asked for, written. */
  function StartTaken(w: World, c: VmConfiguration, env: StartEnv): (World, StartOutcome) {
    var (q, out) := Invoke(w.vm.proc, env.second, env.spawned);
    var invoked := WithProc(w, q);
    match out
    case Panicked => (invoked, StartPanicked)
    case Returned(Err(error)) => (invoked, StartReturned(Err(ProcessFailed(error))))
    case Returned(Ok(_)) => FinishStart(invoked, c, env)
  }

  /** `start` once the process has been invoked. */
  function FinishStart(w: World, c: VmConfiguration, env: StartEnv): (World, StartOutcome) {
    match env.socket
    case WaitTimesOut => (w, StartReturned(Err(TimedOut)))
    case WaitFailsWithIo => (w, StartReturned(Err(IoFailed)))
    case Appears =>
      var (end, result) := Follow(Progress(w.vm.proc, [], []), InitPlan(c), env.script, 0);
      var b := WithProc(w, end.proc);
      (if result.Ok? then b.(guestPaused := GuestAfterStart(c)) else b, StartReturned(result))
  }

  // ---------------------------------------------------------------- the object

  /** `Vm`: the fields its methods update, over the process object; `View` is their value. */
  class VmObject {
    const process: VmmProcess
    const original: VmConfigurationData
    const traceless: bool
    var isPaused: bool
    var configuration: Option<VmConfiguration>
    var snapshotTraces: seq<PathBuf>
    var accessible: AccessiblePaths
    ghost var guestPaused: bool

    ghost function View(): World
      reads this, process
    {
      World(Vm(process.View(), isPaused, original, configuration, traceless, snapshotTraces, accessible), guestPaused)
    }

    constructor (process: VmmProcess, original: VmConfigurationData, configuration: VmConfiguration, traceless: bool,
                 accessible: AccessiblePaths)
      requires process.View() == Proc(AwaitingStart, None, None, false)
      ensures this.process == process
      ensures View().vm == Prepared(original, configuration, traceless, accessible)
    {
      this.process, this.original, this.traceless := process, original, traceless;
      this.isPaused, this.configuration, this.snapshotTraces := false, Some(configuration), [];
      this.accessible, this.guestPaused := accessible, false;
    }

    /** `register_vsock_listener_path`. */
    method RegisterListener(path: PathBuf)
      modifies this
      ensures View() == Registered(old(View()), path)
    {
      accessible := accessible.(vsockListenerPaths := accessible.vsockListenerPaths + [path]);
    }

    /** `state`. */
    method State(m: Moment) returns (s: VmState)
      modifies process
      ensures View() == Look(old(View()), m) && s == VmStateOf(View().vm)
    {
      process.UpdateState(m);
      s := match process.state
        case Started => if isPaused then Paused else Running
        case Exited => VmExited
        case Crashed(status) => VmCrashed(status)
        case _ => NotStarted;
    }

    method ApiPause(m: Moment, r: Round, ghost applies: bool) returns (result: Result<(), VmError>)
      modifies this, process
      ensures (View(), result) == ChangePause(old(View()), m, r, applies, true)
    {
      var s := State(m);
      if s != Running {
        return Err(ExpectedVmState(Running, s));
      }
      guestPaused := if applies then true else guestPaused;
      result := Submit(process, r);
      if result.Ok? {
        isPaused := true;
      }
    }

    method ApiResume(m: Moment, r: Round, ghost applies: bool) returns (result: Result<(), VmError>)
      modifies this, process
      ensures (View(), result) == ChangePause(old(View()), m, r, applies, false)
    {
      var s := State(m);
      if s != Paused {
        return Err(ExpectedVmState(Paused, s));
      }
      guestPaused := if applies then false else guestPaused;
      result := Submit(process, r);
      if result.Ok? {
        isPaused := false;
      }
    }

    method ApiCustomRequest(m: Moment, second: Moment, reply: Reply, newIsPaused: Option<bool>,
                            ghost guestAfter: Option<bool>) returns (result: Result<Response, VmError>)
      modifies this, process
      ensures (View(), result) == Custom(old(View()), m, second, reply, newIsPaused, guestAfter)
    {
      var s := State(m);
      if !PausedOrRunning(s) {
        return Err(ExpectedPausedOrRunning(s));
      }
      guestPaused := if guestAfter.Some? then guestAfter.value else guestPaused;
      var out := process.Send(second, true, reply);
      match out {
        case Panicked => result := Err(ProcessFailed(RequestFailed));
        case Returned(Err(error)) => result := Err(ProcessFailed(error));
        case Returned(Ok(response)) =>
          if newIsPaused.Some? {
            isPaused := newIsPaused.value;
          }
          result := Ok(response);
      }
    }

    /** Any other binding of the API. */
    method ApiOther(m: Moment, r: Round) returns (result: Result<string, VmError>)
      modifies process
      ensures (View(), result) == OtherRequest(old(View()), m, r)
    {
      var s := State(m);
      if !PausedOrRunning(s) {
        return Err(ExpectedPausedOrRunning(s));
      }
      result := Converse(process, r);
    }

    method TakeAllPipes(m: Moment, second: Moment) returns (result: Result<(), VmError>)
      modifies process
      ensures (View(), result) == TakePipesOf(old(View()), m, second)
    {
      var s := State(m);
      if !PausedOrRunning(s) {
        return Err(ExpectedPausedOrRunning(s));
      }
      var out := process.TakeAllPipes(second);
      result := match out
        case Returned(Ok(_)) => Ok(())
        case Returned(Err(error)) => Err(ProcessFailed(error))
        case Panicked => Err(ProcessFailed(PipesNulledOrAlreadyTaken));
    }

    method ApiCreateSnapshot(x: Context, m: Moment, r: Round, snapshot: PathBuf, memFile: PathBuf)
      returns (result: Result<SnapshotData, VmError>)
      modifies this, process
      ensures (View(), result) == CreateSnapshot(x, old(View()), m, r, snapshot, memFile)
    {
      var s := State(m);
      if s != Paused {
        return Err(ExpectedVmState(Paused, s));
      }
      var sent := Submit(process, r);
      if sent.Err? {
        return Err(sent.error);
      }
      var snapshotPath, memFilePath := x.Outer(snapshot), x.Outer(memFile);
      if !traceless {
        snapshotTraces := snapshotTraces + [snapshotPath];
        snapshotTraces := snapshotTraces + [memFilePath];
      }
      result := Ok(SnapshotData(snapshotPath, memFilePath, original));
    }

    /** The requests that bring up the VM, by its configuration. */
    method Initialise(c: VmConfiguration, script: Script) returns (result: Result<(), VmError>)
      modifies process
      ensures result == Follow(Progress(old(process.View()), [], []), InitPlan(c), script, 0).1
      ensures process.View() == Follow(Progress(old(process.View()), [], []), InitPlan(c), script, 0).0.proc
    {
      result := Ok(());
      ghost var end;
      match c {
        case New(initMethod, data) =>
          if initMethod == ViaApiCalls {
            result, end := InitNew(process, data, script);
          }
        case RestoredFromSnapshot(load, data) =>
          result, end := InitRestored(process, data, load, script);
      }
    }

    /** The part of `start` for a JSON configuration; `text` is the printed data, if it can be printed. */
    method WriteJson(x: Context, host: Host, inner: PathBuf, text: Option<string>) returns (error: Option<VmError>)
      modifies host
      ensures error == None ==>
                text.Some? && WithJson(x, host.cwd, inner, text.value, old(host.disk)) == Some(host.disk)
      ensures error.Some? ==> error.value.IoFailed? || (error.value.SerdeFailed? && text.None?)
      ensures JsonTried(x, host.cwd, inner, old(host.disk), host.disk)
      ensures host.obliging && text.Some? ==>
                (error == None <==> WithJson(x, host.cwd, inner, text.value, old(host.disk)).Some?)
    {
      ghost var above := if inner.parts == [] then [] else Up(host.At(inner));
      assert above[..|above|] == above;
      if inner.parts != [] {
        var made := host.CreateFileWithTree(inner, true);
        if !made {
          return Some(IoFailed);
        }
      }
      if text.None? {
        return Some(SerdeFailed);
      }
      ghost var made := host.disk;
      var ok := host.WriteFile(x.Outer(inner), text.value);
      assert forall part :: TryWrite(made, host.At(x.Outer(inner)), part) == Some(host.disk) ==>
                              WithJson(x, host.cwd, inner, part, old(host.disk)) == Some(host.disk);
      error := if ok then None else Some(IoFailed);
    }

    method WriteConfiguration(x: Context, host: Host, c: VmConfiguration, text: Option<string>)
      returns (error: Option<VmError>)
      modifies host
      ensures JsonPathOf(c).None? ==> host.disk == old(host.disk) && error == None
      ensures JsonPathOf(c).Some? && error.None? ==>
                text.Some? && WithJson(x, host.cwd, JsonPathOf(c).value, text.value, old(host.disk)) == Some(host.disk)
      ensures JsonPathOf(c).Some? ==> JsonTried(x, host.cwd, JsonPathOf(c).value, old(host.disk), host.disk)
      ensures JsonPathOf(c).Some? && host.obliging && text.Some? ==>
                (error == None <==> WithJson(x, host.cwd, JsonPathOf(c).value, text.value, old(host.disk)).Some?)
    {
      error := None;
      if c.New? && c.initMethod.ViaJsonConfiguration? {
        error := WriteJson(x, host, c.initMethod.path, text);
      }
    }

    /** `start`; `json` is what became of writing the configuration, if that was called for. */
    method StartVm(x: Context, host: Host, env: StartEnv, text: Option<string>)
      returns (out: StartOutcome, ghost json: Option<VmError>, command: Option<string>)
      modifies this, process, host
      ensures command.Some? ==>
                old(configuration).Some? && env.spawned.Ok?
                && IsStartCommand(x, old(configuration).value, command.value)
      ensures out == StartReturned(Ok(())) ==> command.Some?
      ensures (View(), out) == Start(old(View()), env.(json := json))
      ensures JsonPath(old(View()), env).None? ==> host.disk == old(host.disk)
      ensures JsonPath(old(View()), env).Some? && json.None? ==>
                text.Some? && WithJson(x, host.cwd, JsonPath(old(View()), env).value, text.value, old(host.disk))
                              == Some(host.disk)
      ensures JsonPath(old(View()), env).Some? ==>
                JsonTried(x, host.cwd, JsonPath(old(View()), env).value, old(host.disk), host.disk)
      ensures JsonPath(old(View()), env).Some? && host.obliging && text.Some? ==>
                (json == None
                 <==> WithJson(x, host.cwd, JsonPath(old(View()), env).value, text.value, old(host.disk)).Some?)
    {
      json, command := None, None;
      var s := State(env.m);
      if s != NotStarted {
        return StartReturned(Err(ExpectedVmState(NotStarted, s))), json, None;
      }
      if configuration.None? {
        return StartPanicked, json, None;
      }
      var c := configuration.value;
      configuration := None;
      ghost var taken := View();
      out, json, command := StartConfigured(x, host, c, env, text);
      StartTakenIgnoresJson(taken, c, env, json);
    }

    /** `start` once the configuration has been taken. */
    method StartConfigured(x: Context, host: Host, c: VmConfiguration, env: StartEnv, text: Option<string>)
      returns (out: StartOutcome, ghost json: Option<VmError>, command: Option<string>)
      modifies this, process, host
      ensures command.Some? ==> env.spawned.Ok? && IsStartCommand(x, c, command.value)
      ensures out == StartReturned(Ok(())) ==> command.Some?
      ensures (View(), out) == if json.Some? then (old(View()), StartReturned(Err(json.value)))
                               else StartTaken(old(View()), c, env)
      ensures JsonPathOf(c).None? ==> host.disk == old(host.disk) && json == None
      ensures JsonPathOf(c).Some? && json.None? ==>
                text.Some? && WithJson(x, host.cwd, JsonPathOf(c).value, text.value, old(host.disk)) == Some(host.disk)
      ensures JsonPathOf(c).Some? ==> JsonTried(x, host.cwd, JsonPathOf(c).value, old(host.disk), host.disk)
      ensures JsonPathOf(c).Some? && host.obliging && text.Some? ==>
                (json == None <==> WithJson(x, host.cwd, JsonPathOf(c).value, text.value, old(host.disk)).Some?)
    {
      var error := WriteConfiguration(x, host, c, text);
      json := error;
      if error.Some? {
        return StartReturned(Err(error.value)), json, None;
      }
      out, command := InvokeAndFinish(x, c, env);
    }

    /** The command for this configuration; the executor hands it to the shell if it is invoked. */
    method CommandFor(x: Context, c: VmConfiguration) returns (command: string)
      ensures IsStartCommand(x, c, command)
    {
      var override := NoOverride;
      if c.New? && c.initMethod.ViaJsonConfiguration? {
        override := Enable(c.initMethod.path.Text());
      }
      command := Executors.Command(x.executor, x.installation, override);
    }

    /** The rest of `start`, once the configuration has been taken. */
    method InvokeAndFinish(x: Context, c: VmConfiguration, env: StartEnv)
      returns (out: StartOutcome, command: Option<string>)
      modifies this, process
      ensures command.Some? ==> env.spawned.Ok? && IsStartCommand(x, c, command.value)
      ensures out == StartReturned(Ok(())) ==> command.Some?
      ensures (View(), out) == StartTaken(old(View()), c, env)
    {
      var line := CommandFor(x, c);
      var invoked := process.InvokeChild(env.second, env.spawned);
      if invoked.Panicked? {
        return StartPanicked, None;
      }
      if invoked.result.Err? {
        return StartReturned(Err(ProcessFailed(invoked.result.error))), None;
      }
      command := Some(line);
      match env.socket {
        case WaitTimesOut => out := StartReturned(Err(TimedOut));
        case WaitFailsWithIo => out := StartReturned(Err(IoFailed));
        case Appears =>
          var result := Initialise(c, env.script);
          if result.Ok? {
            guestPaused := GuestAfterStart(c);
          }
          out := StartReturned(result);
      }
    }
  }
}
