/** What holds of a VM over every run: any public calls in any order, against any child and any API server. */
module VmRuns {
  import opened Wrappers
  import opened Paths
  import opened ExecutorTypes
  import opened Configuration
  import opened Process
  import opened ProcessRuns
  import opened VmTypes
  import opened Api
  import opened BootPlan
  import opened VmMachine
  import opened Shutdown

  /**
   * A public call with what the environment does meanwhile.  `applies` and `guestAfter` say what becomes of the guest's
   * vCPUs, which the answer of the server need not reveal.
   */
  datatype Event =
    | QueryState(m: Moment)
    | ListenerCall(path: PathBuf)
    | Pause(m: Moment, r: Round, applies: bool)
    | Resume(m: Moment, r: Round, applies: bool)
    | CustomRequest(m: Moment, second: Moment, reply: Reply, newIsPaused: Option<bool>, guestAfter: Option<bool>)
    | OtherCall(m: Moment, r: Round)
    | TakeSnapshot(m: Moment, r: Round, snapshot: PathBuf, memFile: PathBuf)
    | StartCall(env: StartEnv)
    | ShutdownCall(m: Moment, methods: seq<ShutdownMethod>, script: AttemptScript)
    | CleanupCall(m: Moment, second: Moment, cleaned: Result<(), ExecutorError>)
    | PipesCall(m: Moment, second: Moment)

  /** `cleanup` as far as the VM itself is concerned: the traces are popped once the executor has cleaned up. */
  function CleanUp(w: World, m: Moment, second: Moment, cleaned: Result<(), ExecutorError>):
    (World, Result<(), VmError>)
  {
    var a := Look(w, m);
    if !ExitedOrCrashed(VmStateOf(a.vm)) then (a, Err(VmExpectedExitedOrCrashed(VmStateOf(a.vm))))
    else
      var (q, out) := Process.Cleanup(a.vm.proc, second, cleaned);
      var b := WithProc(a, q);
      var result := ToVm(out);
      if result.Err? || b.vm.traceless then (b, result)
      else (b.(vm := b.vm.(snapshotTraces := [])), result)
  }

  function Step(x: Context, w: World, e: Event): World {
    match e
    case QueryState(m) => Look(w, m)
    case ListenerCall(path) => Registered(w, path)
    case Pause(m, r, applies) => ChangePause(w, m, r, applies, true).0
    case Resume(m, r, applies) => ChangePause(w, m, r, applies, false).0
    case CustomRequest(m, second, reply, newIsPaused, guestAfter) =>
      Custom(w, m, second, reply, newIsPaused, guestAfter).0
    case OtherCall(m, r) => OtherRequest(w, m, r).0
    case TakeSnapshot(m, r, snapshot, memFile) => CreateSnapshot(x, w, m, r, snapshot, memFile).0
    case StartCall(env) => Start(w, env).0
    case ShutdownCall(m, methods, script) => ShutDown(w, m, methods, script).0
    case CleanupCall(m, second, cleaned) => CleanUp(w, m, second, cleaned).0
    case PipesCall(m, second) => TakePipesOf(w, m, second).0
  }

  function AfterRun(x: Context, w: World, run: seq<Event>): World {
    if run == [] then w else Step(x, AfterRun(x, w, run[..|run| - 1]), run[|run| - 1])
  }

  /** What a VM is prepared from, and the paths found for it. */
  datatype Origin = Origin(
    data: VmConfigurationData, configuration: VmConfiguration, traceless: bool, paths: AccessiblePaths)

  /** A VM that has just been prepared. */
  function Begin(o: Origin): World {
    World(Prepared(o.data, o.configuration, o.traceless, o.paths), false)
  }

  // ---------------------------------------------------------------- the process below

  lemma {:induction false} FollowEvolves(s: Progress, plan: seq<Request>, script: Script, from: nat)
    requires Valid(s.proc)
    ensures Evolves(s.proc, Follow(s, plan, script, from).0.proc)
    decreases |plan|
  {
    if plan == [] {
      ObserveEvolves(s.proc, Moment(None, true));
    } else {
      var (next, result) := SendOne(s, plan[0], script(from));
      var r := script(from);
      ObserveEvolves(s.proc, r.m);
      SendEvolves(s.proc, r.m, AsReply(r.exchange));
      assert next.proc == s.proc || next.proc == SendApiRequest(s.proc, r.m, true, AsReply(r.exchange)).0;
      if result.Ok? {
        FollowEvolves(next, plan[1..], script, from + 1);
      }
    }
  }

  lemma StartEvolves(w: World, env: StartEnv)
    requires Valid(w.vm.proc)
    ensures Evolves(w.vm.proc, Start(w, env).0.vm.proc)
  {
    var a := Observe(w.vm.proc, env.m);
    var q := Invoke(a, env.second, env.spawned).0;
    ObserveEvolves(w.vm.proc, env.m);
    ApplyEvolves(a, CallInvoke(env.second, env.spawned));
    EvolvesFurther(w.vm.proc, a, q);
    if w.vm.configuration.Some? {
      var end := Follow(Progress(q, [], []), InitPlan(w.vm.configuration.value), env.script, 0).0.proc;
      FollowEvolves(Progress(q, [], []), InitPlan(w.vm.configuration.value), env.script, 0);
      EvolvesFurther(w.vm.proc, q, end);
      ProcOfStart(w, env);
    } else {
      ProcOfStart(w, env);
    }
  }

  lemma ProcOfStart(w: World, env: StartEnv)
    ensures var a := Observe(w.vm.proc, env.m); var q := Invoke(a, env.second, env.spawned).0;
            var end := Start(w, env).0.vm.proc;
            || end == a || end == q
            || (w.vm.configuration.Some?
                && end == Follow(Progress(q, [], []), InitPlan(w.vm.configuration.value), env.script, 0).0.proc)
  {
    if w.vm.configuration.Some? {
      var a := Look(w, env.m);
      var taken := a.(vm := a.vm.(configuration := None));
      ProcOfFinish(WithProc(taken, Invoke(a.vm.proc, env.second, env.spawned).0), w.vm.configuration.value, env);
    }
  }

  lemma ProcOfFinish(w: World, c: VmConfiguration, env: StartEnv)
    ensures var end := FinishStart(w, c, env).0.vm.proc;
            end == w.vm.proc || end == Follow(Progress(w.vm.proc, [], []), InitPlan(c), env.script, 0).0.proc
  {
  }

  lemma LookTwiceEvolves(p: Proc, m: Moment, second: Moment)
    requires Valid(p)
    ensures Evolves(p, Observe(p, m)) && Evolves(p, Observe(Observe(p, m), second))
  {
    ObserveEvolves(p, m);
    ObserveEvolves(Observe(p, m), second);
    EvolvesFurther(p, Observe(p, m), Observe(Observe(p, m), second));
  }

  lemma RequestEvolves(x: Context, w: World, e: Event)
    requires Valid(w.vm.proc) && (e.CustomRequest? || e.OtherCall? || e.TakeSnapshot?)
    ensures Evolves(w.vm.proc, Step(x, w, e).vm.proc)
  {
    var second := if e.CustomRequest? then e.second else e.r.m;
    var reply := if e.CustomRequest? then e.reply else AsReply(e.r.exchange);
    var p, q := Observe(w.vm.proc, e.m), Step(x, w, e).vm.proc;
    var sent := SendApiRequest(p, second, true, reply).0;
    ObserveEvolves(w.vm.proc, e.m);
    SendEvolves(p, second, reply);
    EvolvesFurther(w.vm.proc, p, sent);
    assert q == p || q == sent;
  }

  lemma ShutDownEvolves(w: World, m: Moment, methods: seq<ShutdownMethod>, script: AttemptScript)
    requires Valid(w.vm.proc)
    ensures Evolves(w.vm.proc, ShutDown(w, m, methods, script).0.vm.proc)
  {
    ObserveEvolves(w.vm.proc, m);
    LoopEvolves(Look(w, m), methods, script, 0, Ok(()));
    EvolvesFurther(w.vm.proc, Observe(w.vm.proc, m), TryMethods(Look(w, m), methods, script, 0, Ok(())).0.vm.proc);
  }

  lemma PipesEvolve(w: World, m: Moment, second: Moment)
    requires Valid(w.vm.proc)
    ensures Evolves(w.vm.proc, TakePipesOf(w, m, second).0.vm.proc)
  {
    var p := w.vm.proc;
    ObserveEvolves(p, m);
    ApplyEvolves(Observe(p, m), CallTakePipes(second));
    EvolvesFurther(p, Observe(p, m), TakePipes(Observe(p, m), second).0);
    ProcOfPipes(w, m, second);
  }

  lemma ProcOfPipes(w: World, m: Moment, second: Moment)
    ensures var p, q := Observe(w.vm.proc, m), TakePipesOf(w, m, second).0.vm.proc;
            q == p || q == TakePipes(p, second).0
  {
  }

  lemma CleanUpEvolves(w: World, m: Moment, second: Moment, cleaned: Result<(), ExecutorError>)
    requires Valid(w.vm.proc)
    ensures Evolves(w.vm.proc, CleanUp(w, m, second, cleaned).0.vm.proc)
  {
    LookTwiceEvolves(w.vm.proc, m, second);
  }

  /** Every public call of the VM takes its process forward only. */
  lemma StepEvolves(x: Context, w: World, e: Event)
    requires Valid(w.vm.proc)
    ensures Evolves(w.vm.proc, Step(x, w, e).vm.proc)
  {
    match e
    case QueryState(m) => ObserveEvolves(w.vm.proc, m);
    case ListenerCall(_) => ObserveEvolves(w.vm.proc, Moment(None, true));
    case Pause(m, r, applies) => PauseEvolves(w, m, r, applies, true);
    case Resume(m, r, applies) => PauseEvolves(w, m, r, applies, false);
    case StartCall(env) => StartEvolves(w, env);
    case ShutdownCall(m, methods, script) => ShutDownEvolves(w, m, methods, script);
    case CleanupCall(m, second, cleaned) => CleanUpEvolves(w, m, second, cleaned);
    case PipesCall(m, second) => PipesEvolve(w, m, second);
    case _ => RequestEvolves(x, w, e);
  }

  // ---------------------------------------------------------------- what the VM keeps

  /** The fields that shutting down does not touch. */
  predicate SameRecord(v: Vm, u: Vm) {
    && u.original == v.original && u.configuration == v.configuration
    && u.traceless == v.traceless && u.snapshotTraces == v.snapshotTraces && u.accessible == v.accessible
  }

  lemma TryKeepsRecord(w: World, how: ShutdownMethod, env: AttemptEnv)
    ensures SameRecord(w.vm, TryMethod(w, how, env).0.vm)
  {
    var a := Attempt(w, how, env).0;
    assert SameRecord(w.vm, a.vm);
  }

  lemma {:induction false} LoopKeepsRecord(w: World, methods: seq<ShutdownMethod>, script: AttemptScript, from: nat,
                                           last: Result<(), VmError>)
    requires from <= |methods|
    ensures SameRecord(w.vm, TryMethods(w, methods, script, from, last).0.vm)
    decreases |methods| - from
  {
    if from == |methods| {
    } else {
      var (next, result) := TryMethod(w, methods[from], script(from));
      TryKeepsRecord(w, methods[from], script(from));
      if result.Err? {
        LoopKeepsRecord(next, methods, script, from + 1, result);
      }
    }
  }

  /** The fields that starting does not touch. */
  predicate SameIdentity(v: Vm, u: Vm) {
    && u.original == v.original && u.traceless == v.traceless && u.snapshotTraces == v.snapshotTraces
    && u.isPaused == v.isPaused && u.accessible == v.accessible
  }

  lemma FinishKeepsRecord(w: World, c: VmConfiguration, env: StartEnv)
    ensures SameIdentity(w.vm, FinishStart(w, c, env).0.vm)
    ensures FinishStart(w, c, env).0.vm.configuration == w.vm.configuration
  {
  }

  lemma StartKeepsRecord(w: World, env: StartEnv)
    ensures var v, u := w.vm, Start(w, env).0.vm;
            SameIdentity(v, u) && (u.configuration == v.configuration || u.configuration.None?)
  {
    if w.vm.configuration.Some? {
      var a := Look(w, env.m);
      var taken := a.(vm := a.vm.(configuration := None));
      var invoked := WithProc(taken, Invoke(a.vm.proc, env.second, env.spawned).0);
      FinishKeepsRecord(invoked, w.vm.configuration.value, env);
    }
  }

  lemma RequestKeepsRecord(x: Context, w: World, e: Event)
    requires !e.StartCall? && !e.ShutdownCall? && !e.TakeSnapshot? && !e.CleanupCall? && !e.ListenerCall?
    ensures SameRecord(w.vm, Step(x, w, e).vm)
  {
    if e.CustomRequest? {
      CustomKeepsRecord(w, e.m, e.second, e.reply, e.newIsPaused, e.guestAfter);
    }
  }

  lemma CustomKeepsRecord(w: World, m: Moment, second: Moment, reply: Reply, newIsPaused: Option<bool>,
                          guestAfter: Option<bool>)
    ensures SameRecord(w.vm, Custom(w, m, second, reply, newIsPaused, guestAfter).0.vm)
  {
  }

  lemma StepKeepsRecord(x: Context, w: World, e: Event)
    ensures Step(x, w, e).vm.original == w.vm.original && Step(x, w, e).vm.traceless == w.vm.traceless
    ensures !e.StartCall? ==> Step(x, w, e).vm.configuration == w.vm.configuration
    ensures !e.TakeSnapshot? && !e.CleanupCall? ==> Step(x, w, e).vm.snapshotTraces == w.vm.snapshotTraces
    ensures !e.ListenerCall? ==> Step(x, w, e).vm.accessible == w.vm.accessible
    ensures e.StartCall? ==> Step(x, w, e).vm.isPaused == w.vm.isPaused
    ensures e.StartCall? ==>
              Step(x, w, e).vm.configuration == w.vm.configuration || Step(x, w, e).vm.configuration.None?
  {
    match e
    case StartCall(env) => StartKeepsRecord(w, env);
    case ShutdownCall(m, methods, script) => LoopKeepsRecord(Look(w, m), methods, script, 0, Ok(()));
    case TakeSnapshot(_, _, _, _) =>
    case CleanupCall(_, _, _) =>
    case ListenerCall(_) =>
    case _ => RequestKeepsRecord(x, w, e);
  }

  /** What is true of a VM prepared from `c` whatever is called. */
  predicate Sound(c: VmConfiguration, w: World) {
    && Valid(w.vm.proc)
    && w.vm.proc.state.Rank() >= 1
    && (w.vm.configuration.Some? ==> w.vm.configuration.value == c)
    && (w.vm.proc.state == AwaitingStart ==> !w.vm.isPaused)
  }

  /** Before the start no call does anything, except for `start` itself and the registering of listeners. */
  lemma NothingBeforeStart(x: Context, w: World, e: Event)
    requires Valid(w.vm.proc) && w.vm.proc.state == AwaitingStart && !e.StartCall?
    ensures Step(x, w, e) == if e.ListenerCall? then Registered(w, e.path) else w
  {
  }

  lemma StepKeepsSound(x: Context, c: VmConfiguration, w: World, e: Event)
    requires Sound(c, w)
    ensures Sound(c, Step(x, w, e))
  {
    StepEvolves(x, w, e);
    StepKeepsRecord(x, w, e);
    if w.vm.proc.state == AwaitingStart && !e.StartCall? {
      NothingBeforeStart(x, w, e);
    }
  }

  lemma {:induction false} RunKeepsSound(x: Context, c: VmConfiguration, w: World, run: seq<Event>)
    requires Sound(c, w)
    ensures Sound(c, AfterRun(x, w, run)) && Evolves(w.vm.proc, AfterRun(x, w, run).vm.proc)
    ensures AfterRun(x, w, run).vm.original == w.vm.original && AfterRun(x, w, run).vm.traceless == w.vm.traceless
  {
    if run == [] {
      ObserveEvolves(w.vm.proc, Moment(None, true));
    } else {
      var before, last := AfterRun(x, w, run[..|run| - 1]), run[|run| - 1];
      RunKeepsSound(x, c, w, run[..|run| - 1]);
      StepKeepsSound(x, c, before, last);
      StepEvolves(x, before, last);
      StepKeepsRecord(x, before, last);
      EvolvesFurther(w.vm.proc, before.vm.proc, Step(x, before, last).vm.proc);
    }
  }

  /**
   * The lifecycle over every run of a VM: its state never moves backwards, an exit is final together with its status,
   * and the process below keeps its invariant, so none of its `expect`s can be reached.
   */
  lemma LifecycleOverRuns(x: Context, o: Origin, before: seq<Event>, later: seq<Event>, m: Moment)
    ensures var w := AfterRun(x, Begin(o), before);
            var u := AfterRun(x, w, later);
            && Valid(u.vm.proc) && w.vm.proc.state.Rank() <= u.vm.proc.state.Rank()
            && (ExitedOrCrashed(VmStateOf(w.vm)) ==> VmStateOf(Look(u, m).vm) == VmStateOf(w.vm))
            && u.vm.original == o.data
            && !Process.Prepare(u.vm.proc, m, Ok(map[])).1.Panicked?
  {
    var w := AfterRun(x, Begin(o), before);
    RunKeepsSound(x, o.configuration, Begin(o), before);
    RunKeepsSound(x, o.configuration, w, later);
    ObserveEvolves(AfterRun(x, w, later).vm.proc, m);
  }

  // ---------------------------------------------------------------- the configuration is taken once

  /** A `start` that takes the configuration and fails before the process is invoked. */
  predicate FailsBeforeInvoke(w: World, e: Event) {
    && e.StartCall? && w.vm.proc.state == AwaitingStart && w.vm.configuration.Some?
    && (JsonError(w.vm.configuration.value, e.env).Some? || e.env.spawned.Err?)
  }

  predicate Spent(w: World) {
    w.vm.proc.state == AwaitingStart && w.vm.configuration.None?
  }

  lemma SpentStep(x: Context, c: VmConfiguration, w: World, e: Event)
    requires Sound(c, w)
    ensures Spent(Step(x, w, e)) <==> Spent(w) || FailsBeforeInvoke(w, e)
  {
    StepEvolves(x, w, e);
    if w.vm.proc.state == AwaitingStart {
      if e.StartCall? {
        SpentByStart(x, w, e);
      } else {
        NothingBeforeStart(x, w, e);
      }
    }
  }

  lemma SpentByStart(x: Context, w: World, e: Event)
    requires Valid(w.vm.proc) && w.vm.proc.state == AwaitingStart && e.StartCall?
    ensures Spent(Step(x, w, e)) <==> Spent(w) || FailsBeforeInvoke(w, e)
  {
    if w.vm.configuration.Some? && e.env.spawned.Ok? && JsonError(w.vm.configuration.value, e.env).None? {
      var c := w.vm.configuration.value;
      var taken := w.(vm := w.vm.(configuration := None));
      var invoked := WithProc(taken, Invoke(w.vm.proc, e.env.second, e.env.spawned).0);
      assert Start(w, e.env) == FinishStart(invoked, c, e.env);
      FinishEvolves(invoked, c, e.env);
    }
  }

  lemma FinishEvolves(w: World, c: VmConfiguration, env: StartEnv)
    requires Valid(w.vm.proc)
    ensures w.vm.proc.state.Rank() <= FinishStart(w, c, env).0.vm.proc.state.Rank()
    ensures !FinishStart(w, c, env).1.StartPanicked?
  {
    FollowEvolves(Progress(w.vm.proc, [], []), InitPlan(c), env.script, 0);
  }

  predicate StartFailedAt(x: Context, w: World, run: seq<Event>, i: nat)
    requires i < |run|
  {
    FailsBeforeInvoke(AfterRun(x, w, run[..i]), run[i])
  }

  ghost predicate SomeStartFailed(x: Context, w: World, run: seq<Event>) {
    exists i :: 0 <= i < |run| && StartFailedAt(x, w, run, i)
  }

  lemma StartFailedEarlier(x: Context, w: World, run: seq<Event>, i: nat)
    requires i < |run| - 1
    ensures StartFailedAt(x, w, run[..|run| - 1], i) <==> StartFailedAt(x, w, run, i)
  {
    assert run[..|run| - 1][..i] == run[..i];
  }

  lemma SomeStartFailedSplit(x: Context, w: World, run: seq<Event>)
    requires run != []
    ensures var last := |run| - 1;
            SomeStartFailed(x, w, run) <==> SomeStartFailed(x, w, run[..last]) || StartFailedAt(x, w, run, last)
  {
    var before := run[..|run| - 1];
    if SomeStartFailed(x, w, run) {
      var i :| 0 <= i < |run| && StartFailedAt(x, w, run, i);
      if i < |before| {
        StartFailedEarlier(x, w, run, i);
      }
    }
    if SomeStartFailed(x, w, before) {
      var i :| 0 <= i < |before| && StartFailedAt(x, w, before, i);
      StartFailedEarlier(x, w, run, i);
    }
  }

  lemma {:induction false} SpentIff(x: Context, c: VmConfiguration, w: World, run: seq<Event>)
    requires Sound(c, w) && !Spent(w)
    ensures Spent(AfterRun(x, w, run)) <==> SomeStartFailed(x, w, run)
  {
    if run == [] {
    } else {
      var before := run[..|run| - 1];
      SomeStartFailedSplit(x, w, run);
      RunKeepsSound(x, c, w, before);
      SpentIff(x, c, w, before);
      SpentStep(x, c, AfterRun(x, w, before), run[|run| - 1]);
    }
  }

  lemma PanicsIffSpent(c: VmConfiguration, w: World, env: StartEnv)
    requires Sound(c, w)
    ensures Start(w, env).1.StartPanicked? <==> Spent(w)
  {
    var a := Look(w, env.m);
    ObserveEvolves(w.vm.proc, env.m);
    if VmStateOf(a.vm) == NotStarted && a.vm.configuration.Some? {
      var taken := a.(vm := a.vm.(configuration := None));
      var (q, out) := Invoke(a.vm.proc, env.second, env.spawned);
      if out.Succeeds() {
        FinishEvolves(WithProc(taken, q), a.vm.configuration.value, env);
      }
    }
  }

  /** The `expect` on the configuration is reached exactly by a `start` after one that failed before it invoked. */
  lemma ConfigurationExpectReachedIff(x: Context, o: Origin, run: seq<Event>, env: StartEnv)
    ensures Start(AfterRun(x, Begin(o), run), env).1.StartPanicked?
            <==> SomeStartFailed(x, Begin(o), run)
  {
    var w := Begin(o);
    RunKeepsSound(x, o.configuration, w, run);
    SpentIff(x, o.configuration, w, run);
    PanicsIffSpent(o.configuration, AfterRun(x, w, run), env);
  }

  /**
   * A start that returns Ok found the VM not started and took its configuration; the socket appeared, and the server
   * has accepted every request of the plan of that configuration.
   */
  lemma StartedMeansAccepted(c: VmConfiguration, w: World, env: StartEnv)
    requires Sound(c, w) && Start(w, env).1 == StartReturned(Ok(()))
    ensures w.vm.proc.state == AwaitingStart && w.vm.configuration == Some(c) && env.socket.Appears?
    ensures Start(w, env).0.vm.configuration == None
    ensures env.spawned.Ok?
    ensures var begun := Progress(Invoke(w.vm.proc, env.second, env.spawned).0, [], []);
            var (end, result) := Follow(begun, InitPlan(c), env.script, 0);
            && result.Ok? && end.accepted == InitPlan(c)
            && Start(w, env).0.vm.proc == end.proc
  {
    ObserveEvolves(w.vm.proc, env.m);
    var a := Look(w, env.m);
    assert a.vm.proc.state == AwaitingStart && a == w;
    var begun := Progress(Invoke(w.vm.proc, env.second, env.spawned).0, [], []);
    var n, k := FollowSendsPrefix(begun, InitPlan(c), env.script, 0);
  }

  /**
   * Over every run of a VM: VmExited means that the process has ended with code 0, VmCrashed that it has ended with
   * the status it carries, which is another one.
   */
  lemma VmStatesTellTheTruth(x: Context, o: Origin, run: seq<Event>)
    ensures var w := AfterRun(x, Begin(o), run); var s, child := VmStateOf(w.vm), w.vm.proc.child;
            && (s == VmExited ==> child.Some? && child.value.exit == Some(Code(0)))
            && (s.VmCrashed? ==> s.status != Code(0) && child.Some? && child.value.exit == Some(s.status))
  {
    RunKeepsSound(x, o.configuration, Begin(o), run);
    ValidTellsTheTruth(AfterRun(x, Begin(o), run).vm.proc);
  }
}
