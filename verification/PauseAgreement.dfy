/** When what a VM reports about being paused is true of the guest. */
module PauseAgreement {
  import opened Wrappers
  import opened Configuration
  import opened Process
  import opened ProcessRuns
  import opened VmTypes
  import opened Api
  import opened BootPlan
  import opened VmMachine
  import opened Shutdown
  import opened VmRuns

  /** The VM's own flag says of the guest what is the case. */
  predicate Agrees(w: World) {
    w.vm.isPaused == w.guestPaused
  }

  predicate HonestAttempt(w: World, how: ShutdownMethod, env: AttemptEnv) {
    how.PauseThenKill? ==> (env.applies <==> ChangePause(w, env.look, env.round, env.applies, true).1.Ok?)
  }

  predicate HonestLoop(w: World, methods: seq<ShutdownMethod>, script: AttemptScript, from: nat)
    requires from <= |methods|
    decreases |methods| - from
  {
    from == |methods|
    || (HonestAttempt(w, methods[from], script(from))
        && var (next, result) := TryMethod(w, methods[from], script(from));
           result.Ok? || HonestLoop(next, methods, script, from + 1))
  }

  /**
   * A request to pause or resume takes effect exactly when its call returns Ok, and a custom request changes the guest
   * exactly as its caller tells the VM.
   */
  predicate Honest(x: Context, w: World, e: Event) {
    match e
    case Pause(m, r, applies) => applies <==> ChangePause(w, m, r, applies, true).1.Ok?
    case Resume(m, r, applies) => applies <==> ChangePause(w, m, r, applies, false).1.Ok?
    case CustomRequest(m, second, reply, newIsPaused, guestAfter) =>
      guestAfter == if Custom(w, m, second, reply, newIsPaused, guestAfter).1.Ok? then newIsPaused else None
    case ShutdownCall(m, methods, script) => HonestLoop(Look(w, m), methods, script, 0)
    case _ => true
  }

  predicate HonestRun(x: Context, w: World, run: seq<Event>) {
    run == []
    || (HonestRun(x, w, run[..|run| - 1]) && Honest(x, AfterRun(x, w, run[..|run| - 1]), run[|run| - 1]))
  }

  // ---------------------------------------------------------------- one call

  /** A pause or resume that gets past the VM's own check keeps the agreement exactly when it is honest. */
  lemma ChangePauseAgreesIff(w: World, m: Moment, r: Round, applies: bool, pause: bool)
    requires Agrees(w)
    ensures var (after, result) := ChangePause(w, m, r, applies, pause);
            Agrees(after)
            <==> (VmStateOf(Look(w, m).vm) == (if pause then Running else Paused) ==> (applies <==> result.Ok?))
  {
  }

  lemma AttemptAgrees(w: World, how: ShutdownMethod, env: AttemptEnv)
    requires Agrees(w) && HonestAttempt(w, how, env)
    ensures Agrees(TryMethod(w, how, env).0)
  {
    if how.PauseThenKill? {
      ChangePauseAgreesIff(w, env.look, env.round, env.applies, true);
    }
    assert Agrees(Attempt(w, how, env).0);
  }

  lemma {:induction false} LoopAgrees(w: World, methods: seq<ShutdownMethod>, script: AttemptScript, from: nat,
                                      last: Result<(), VmError>)
    requires from <= |methods| && Agrees(w) && HonestLoop(w, methods, script, from)
    ensures Agrees(TryMethods(w, methods, script, from, last).0)
    decreases |methods| - from
  {
    if from == |methods| {
    } else {
      var (next, result) := TryMethod(w, methods[from], script(from));
      AttemptAgrees(w, methods[from], script(from));
      if result.Err? {
        LoopAgrees(next, methods, script, from + 1, result);
      }
    }
  }

  lemma HonestStepAgrees(x: Context, w: World, e: Event)
    requires Valid(w.vm.proc) && w.vm.proc.state.Rank() >= 2
    requires Agrees(w) && Honest(x, w, e)
    ensures Agrees(Step(x, w, e))
  {
    match e
    case Pause(m, r, applies) => ChangePauseAgreesIff(w, m, r, applies, true);
    case Resume(m, r, applies) => ChangePauseAgreesIff(w, m, r, applies, false);
    case ShutdownCall(m, methods, script) => LoopAgrees(Look(w, m), methods, script, 0, Ok(()));
    case StartCall(env) => ObserveEvolves(w.vm.proc, env.m);
    case _ =>
  }

  // ---------------------------------------------------------------- whole runs

  lemma {:induction false} HonestRunAgrees(x: Context, c: VmConfiguration, w: World, run: seq<Event>)
    requires Sound(c, w) && w.vm.proc.state.Rank() >= 2
    requires Agrees(w) && HonestRun(x, w, run)
    ensures Agrees(AfterRun(x, w, run))
  {
    if run == [] {
    } else {
      var shorter := run[..|run| - 1];
      HonestRunAgrees(x, c, w, shorter);
      RunKeepsSound(x, c, w, shorter);
      HonestStepAgrees(x, AfterRun(x, w, shorter), run[|run| - 1]);
    }
  }

  predicate Starts(w: World, env: StartEnv) {
    Start(w, env).1 == StartReturned(Ok(()))
  }

  /** A successful start consumes the configuration and leaves the flag as it was. */
  lemma StartFromAwaiting(c: VmConfiguration, w: World, env: StartEnv)
    requires Sound(c, w) && Starts(w, env)
    ensures w.vm.proc.state == AwaitingStart && w.vm.configuration == Some(c)
    ensures Start(w, env).0.vm.proc.state.Rank() >= 2
    ensures !Start(w, env).0.vm.isPaused && Start(w, env).0.guestPaused == GuestAfterStart(c)
  {
    ObserveEvolves(w.vm.proc, env.m);
    var a := Look(w, env.m);
    var taken := a.(vm := a.vm.(configuration := None));
    var invoked := WithProc(taken, Invoke(a.vm.proc, env.second, env.spawned).0);
    assert VmStateOf(a.vm) == NotStarted && a.vm.configuration == Some(c);
    assert Start(w, env) == FinishStart(invoked, c, env);
    FinishEvolves(invoked, c, env);
    FollowEvolves(Progress(invoked.vm.proc, [], []), InitPlan(c), env.script, 0);
  }

  /** A configuration under which the flag is right once the VM has started. */
  predicate ResumesOrBoots(c: VmConfiguration) {
    c.New? || c.loadSnapshot.resumeVm == Some(true)
  }

  /** After a successful start the flag is right exactly for new VMs and for restored ones that asked to be resumed. */
  lemma StartAgreesIff(x: Context, o: Origin, before: seq<Event>, env: StartEnv)
    requires Starts(AfterRun(x, Begin(o), before), env)
    ensures Agrees(Start(AfterRun(x, Begin(o), before), env).0) <==> ResumesOrBoots(o.configuration)
  {
    var w := Begin(o);
    RunKeepsSound(x, o.configuration, w, before);
    StartFromAwaiting(o.configuration, AfterRun(x, w, before), env);
  }

  /**
   * Pause agreement: whatever was called before a successful start, and in every honest run after it, a VM that lives
   * reports Paused when its guest is paused and Running when it is not.
   */
  lemma PausedIsReportedExactly(x: Context, o: Origin, before: seq<Event>, env: StartEnv, after: seq<Event>)
    requires Starts(AfterRun(x, Begin(o), before), env) && ResumesOrBoots(o.configuration)
    requires HonestRun(x, Start(AfterRun(x, Begin(o), before), env).0, after)
    ensures var w := AfterRun(x, Start(AfterRun(x, Begin(o), before), env).0, after);
            w.vm.proc.state == Started ==> VmStateOf(w.vm) == if w.guestPaused then Paused else Running
  {
    var w := AfterRun(x, Begin(o), before);
    RunKeepsSound(x, o.configuration, Begin(o), before);
    StartFromAwaiting(o.configuration, w, env);
    StepKeepsSound(x, o.configuration, w, StartCall(env));
    HonestRunAgrees(x, o.configuration, Start(w, env).0, after);
  }

  /** A VM restored without `resume_vm`: it reports Running while its guest is paused, and refuses to resume it. */
  lemma PausedGuestCannotBeResumed(c: VmConfiguration, w: World, env: StartEnv, m: Moment, r: Round, applies: bool)
    requires Sound(c, w) && Starts(w, env) && !ResumesOrBoots(c)
    ensures var started := Start(w, env).0;
            && started.guestPaused
            && (started.vm.proc.state == Started ==> VmStateOf(started.vm) == Running)
            && ChangePause(started, m, r, applies, false).1.Err?
            && ChangePause(started, m, r, applies, false).0.guestPaused
  {
    StartFromAwaiting(c, w, env);
    StartEvolves(w, env);
    ObserveEvolves(Start(w, env).0.vm.proc, m);
  }
}
