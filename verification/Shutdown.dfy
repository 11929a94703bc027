/**
 Shutting a VM down: methods are tried in order until one of them succeeds, each followed by a wait for the exit.
 */
module Shutdown {
  import opened Wrappers
  import opened Process
  import opened ProcessRuns
  import opened VmTypes
  import opened Api
  import opened VmMachine

  datatype ShutdownMethod = CtrlAltDel | PauseThenKill | Kill

  /** The environment of one attempt: every look at the child, the answers, and the end of the wait. */
  datatype AttemptEnv = AttemptEnv(
    look: Moment, round: Round, applies: bool, reply: Reply, kill: Moment, delivered: bool, wait: Moment, end: WaitEnd)

  function ToVm(out: Outcome<()>): Result<(), VmError> {
    match out
    case Panicked => Err(ProcessFailed(SigkillFailed))
    case Returned(Err(error)) => Err(ProcessFailed(error))
    case Returned(Ok(u)) => Ok(u)
  }

  /** The method itself, before the wait. */
  function Attempt(w: World, how: ShutdownMethod, env: AttemptEnv): (World, Result<(), VmError>) {
    match how
    case CtrlAltDel =>
      var (q, out) := SendCtrlAltDel(w.vm.proc, env.round.m, true, env.reply);
      (WithProc(w, q), ToVm(out))
    case PauseThenKill =>
      var (paused, result) := ChangePause(w, env.look, env.round, env.applies, true);
      if result.Err? then (paused, result)
      else
        var (q, out) := SendSigkill(paused.vm.proc, env.kill, env.delivered);
        (WithProc(paused, q), ToVm(out))
    case Kill =>
      var (q, out) := SendSigkill(w.vm.proc, env.kill, env.delivered);
      (WithProc(w, q), ToVm(out))
  }

  /** The wait with its timeout: whatever the wait itself returned counts as success, only the timeout does not. */
  function AwaitExit(w: World, env: AttemptEnv): (World, Result<(), VmError>) {
    var (q, out) := WaitForExit(w.vm.proc, env.wait, env.end);
    (WithProc(w, q), if out.None? then Err(TimedOut) else Ok(()))
  }

  function TryMethod(w: World, how: ShutdownMethod, env: AttemptEnv): (World, Result<(), VmError>) {
    var (a, result) := Attempt(w, how, env);
    if result.Err? then (a, result) else AwaitExit(a, env)
  }

  type AttemptScript = nat -> AttemptEnv

  /** The loop from method `from` on, with the last result so far; also how many methods have been tried. */
  function TryMethods(w: World, methods: seq<ShutdownMethod>, script: AttemptScript, from: nat,
                      last: Result<(), VmError>): (World, Result<(), VmError>, nat)
    requires from <= |methods|
    decreases |methods| - from
  {
    if from == |methods| then (w, last, from)
    else
      var (next, result) := TryMethod(w, methods[from], script(from));
      if result.Ok? then (next, result, from + 1) else TryMethods(next, methods, script, from + 1, result)
  }

  function ShutDown(w: World, m: Moment, methods: seq<ShutdownMethod>, script: AttemptScript):
    (World, Result<(), VmError>, nat)
  {
    var a := Look(w, m);
    if !PausedOrRunning(VmStateOf(a.vm)) then (a, Err(ExpectedPausedOrRunning(VmStateOf(a.vm))), 0)
    else TryMethods(a, methods, script, 0, Ok(()))
  }

  // ---------------------------------------------------------------- the program

  method RunAttempt(vm: VmObject, how: ShutdownMethod, env: AttemptEnv) returns (result: Result<(), VmError>)
    modifies vm, vm.process
    ensures (vm.View(), result) == Attempt(old(vm.View()), how, env)
  {
    match how {
      case CtrlAltDel =>
        var out := vm.process.CtrlAltDel(env.round.m, true, env.reply);
        result := ToVm(out);
      case PauseThenKill =>
        result := vm.ApiPause(env.look, env.round, env.applies);
        if result.Ok? {
          var out := vm.process.Sigkill(env.kill, env.delivered);
          result := ToVm(out);
        }
      case Kill =>
        var out := vm.process.Sigkill(env.kill, env.delivered);
        result := ToVm(out);
    }
  }

  /** One round of the loop: the method, and if it succeeded the wait. */
  method RunMethod(vm: VmObject, how: ShutdownMethod, env: AttemptEnv) returns (result: Result<(), VmError>)
    modifies vm, vm.process
    ensures (vm.View(), result) == TryMethod(old(vm.View()), how, env)
  {
    result := RunAttempt(vm, how, env);
    if result.Ok? {
      var out := vm.process.Wait(env.wait, env.end);
      result := if out.None? then Err(TimedOut) else Ok(());
    }
  }

  /** `shutdown`. */
  method ShutdownVm(vm: VmObject, m: Moment, methods: seq<ShutdownMethod>, script: AttemptScript)
    returns (result: Result<(), VmError>, ghost tried: nat)
    modifies vm, vm.process
    ensures (vm.View(), result, tried) == ShutDown(old(vm.View()), m, methods, script)
  {
    var s := vm.State(m);
    tried := 0;
    if !PausedOrRunning(s) {
      return Err(ExpectedPausedOrRunning(s)), 0;
    }
    var last: Result<(), VmError> := Ok(());
    ghost var whole := TryMethods(vm.View(), methods, script, 0, Ok(()));
    var i := 0;
    while i < |methods|
      invariant 0 <= i <= |methods|
      invariant whole == TryMethods(vm.View(), methods, script, i, last)
    {
      last := RunMethod(vm, methods[i], script(i));
      i := i + 1;
      if last.Ok? {
        return last, i;
      }
    }
    return last, i;
  }

  // ---------------------------------------------------------------- what shutting down guarantees

  /** The exit of the child has been collected: from now on every look sees it. */
  predicate Terminated(w: World) {
    Reaped(w.vm.proc)
  }

  lemma TerminatedIsSeen(w: World, m: Moment)
    requires Valid(w.vm.proc)
    ensures Terminated(w) ==> ExitedOrCrashed(VmStateOf(Look(w, m).vm))
    ensures VmStateOf(w.vm) != NotStarted && ExitedOrCrashed(VmStateOf(w.vm)) ==> Terminated(w)
  {
  }

  /** The process was started at some time. */
  predicate WasStarted(w: World) {
    Valid(w.vm.proc) && w.vm.proc.child.Some?
  }

  lemma ProcOfPause(w: World, m: Moment, r: Round, applies: bool, pause: bool)
    ensures var p, q := Observe(w.vm.proc, m), ChangePause(w, m, r, applies, pause).0.vm.proc;
            q == p || q == SendApiRequest(p, r.m, true, AsReply(r.exchange)).0
  {
  }

  lemma PauseEvolves(w: World, m: Moment, r: Round, applies: bool, pause: bool)
    requires Valid(w.vm.proc)
    ensures Evolves(w.vm.proc, ChangePause(w, m, r, applies, pause).0.vm.proc)
  {
    var p := Observe(w.vm.proc, m);
    ProcOfPause(w, m, r, applies, pause);
    ObserveEvolves(w.vm.proc, m);
    SendEvolves(p, r.m, AsReply(r.exchange));
    EvolvesFurther(w.vm.proc, p, SendApiRequest(p, r.m, true, AsReply(r.exchange)).0);
  }

  lemma AttemptEvolves(w: World, how: ShutdownMethod, env: AttemptEnv)
    requires Valid(w.vm.proc)
    ensures Evolves(w.vm.proc, Attempt(w, how, env).0.vm.proc)
  {
    var p := w.vm.proc;
    match how
    case CtrlAltDel => SendEvolves(p, env.round.m, env.reply);
    case Kill => SigkillEvolves(p, env.kill, env.delivered);
    case PauseThenKill =>
      var paused := ChangePause(w, env.look, env.round, env.applies, true).0.vm.proc;
      PauseEvolves(w, env.look, env.round, env.applies, true);
      SigkillEvolves(paused, env.kill, env.delivered);
      EvolvesFurther(p, paused, SendSigkill(paused, env.kill, env.delivered).0);
  }

  lemma TryEvolves(w: World, how: ShutdownMethod, env: AttemptEnv)
    requires Valid(w.vm.proc)
    ensures Evolves(w.vm.proc, TryMethod(w, how, env).0.vm.proc)
  {
    var tried := Attempt(w, how, env).0.vm.proc;
    AttemptEvolves(w, how, env);
    WaitEvolves(tried, env.wait, env.end);
    EvolvesFurther(w.vm.proc, tried, WaitForExit(tried, env.wait, env.end).0);
  }

  /** The one way in which a method succeeds without the process having terminated: the wait itself fails. */
  predicate WaitBreaks(w: World, how: ShutdownMethod, env: AttemptEnv) {
    var a := Attempt(w, how, env).0;
    env.end.OsWaitFails? && Observe(a.vm.proc, env.wait).state == Started
  }

  lemma SuccessTerminatesIff(w: World, how: ShutdownMethod, env: AttemptEnv)
    requires WasStarted(w) && TryMethod(w, how, env).1.Ok?
    ensures Terminated(TryMethod(w, how, env).0) <==> !WaitBreaks(w, how, env)
  {
    AttemptEvolves(w, how, env);
  }

  /** Every look and every wait of the attempt reports what the operating system knows. */
  predicate WaitsWork(env: AttemptEnv) {
    && !env.look.waitFails && !env.round.m.waitFails && !env.kill.waitFails && !env.wait.waitFails
    && !env.end.OsWaitFails?
  }

  /** A SIGKILL is delivered and ends the process before the timeout. */
  predicate KillWorks(env: AttemptEnv) {
    env.delivered && env.end.ExitsWith?
  }

  lemma KillTerminates(w: World, env: AttemptEnv)
    requires WasStarted(w) && WaitsWork(env) && KillWorks(env)
    ensures Terminated(TryMethod(w, Kill, env).0)
  {
  }

  lemma {:induction false} LoopEvolves(w: World, methods: seq<ShutdownMethod>, script: AttemptScript, from: nat,
                                       last: Result<(), VmError>)
    requires from <= |methods| && Valid(w.vm.proc)
    ensures Evolves(w.vm.proc, TryMethods(w, methods, script, from, last).0.vm.proc)
    decreases |methods| - from
  {
    if from == |methods| {
    } else {
      var (next, result) := TryMethod(w, methods[from], script(from));
      TryEvolves(w, methods[from], script(from));
      if result.Err? {
        LoopEvolves(next, methods, script, from + 1, result);
      }
    }
  }

  lemma {:induction false} LoopTerminates(w: World, methods: seq<ShutdownMethod>, script: AttemptScript, from: nat,
                                          last: Result<(), VmError>)
    requires from <= |methods| && WasStarted(w)
    requires forall i: nat :: i < |methods| ==> WaitsWork(script(i)) && (methods[i].Kill? ==> KillWorks(script(i)))
    ensures (Kill in methods[from..] || (from < |methods| && TryMethods(w, methods, script, from, last).1.Ok?)) ==>
              Terminated(TryMethods(w, methods, script, from, last).0)
    decreases |methods| - from
  {
    if from == |methods| {
    } else {
      var how, env := methods[from], script(from);
      var (next, result) := TryMethod(w, how, env);
      TryEvolves(w, how, env);
      if result.Ok? {
        SuccessTerminatesIff(w, how, env);
      } else {
        LoopTerminates(next, methods, script, from + 1, result);
        LoopEvolves(next, methods, script, from + 1, result);
        assert methods[from..] == [how] + methods[from + 1..];
        if how.Kill? {
          KillTerminates(w, env);
        } else if from + 1 == |methods| {
          assert methods[from + 1..] == [];
        }
      }
    }
  }

  /**
   * A VM that is paused or running, any methods that include `Kill`, and an operating system whose waits work and
   * whose SIGKILL ends the process in time: when `shutdown` returns, with Ok or with an error, the process has
   * terminated.  Without `Kill` an Ok from a non-empty list still says so.
   */
  lemma ShutdownTerminates(w: World, m: Moment, methods: seq<ShutdownMethod>, script: AttemptScript, later: Moment)
    requires Valid(w.vm.proc) && PausedOrRunning(VmStateOf(Look(w, m).vm))
    requires forall i: nat :: i < |methods| ==> WaitsWork(script(i)) && (methods[i].Kill? ==> KillWorks(script(i)))
    requires Kill in methods || (methods != [] && ShutDown(w, m, methods, script).1.Ok?)
    ensures ExitedOrCrashed(VmStateOf(Look(ShutDown(w, m, methods, script).0, later).vm))
  {
    var a := Look(w, m);
    ApplyKeepsValid(w.vm.proc, CallState(m));
    LoopTerminates(a, methods, script, 0, Ok(()));
    LoopEvolves(a, methods, script, 0, Ok(()));
    assert methods[0..] == methods;
    TerminatedIsSeen(ShutDown(w, m, methods, script).0, later);
  }

  /** The world after the first `k` methods have been tried, none of which stopped the loop. */
  function AfterTrying(w: World, methods: seq<ShutdownMethod>, script: AttemptScript, k: nat): World
    requires k <= |methods|
  {
    if k == 0 then w
    else TryMethod(AfterTrying(w, methods, script, k - 1), methods[k - 1], script(k - 1)).0
  }

  /** The result of the `k`-th method when all before it have been tried. */
  function ResultOf(w: World, methods: seq<ShutdownMethod>, script: AttemptScript, k: nat): Result<(), VmError>
    requires k < |methods|
  {
    TryMethod(AfterTrying(w, methods, script, k), methods[k], script(k)).1
  }

  ghost predicate FirstFailed(w: World, methods: seq<ShutdownMethod>, script: AttemptScript, k: nat)
    requires k <= |methods|
  {
    forall i :: 0 <= i < k ==> ResultOf(w, methods, script, i).Err?
  }

  lemma OneMethod(w: World, methods: seq<ShutdownMethod>, script: AttemptScript, k: nat, last: Result<(), VmError>)
    requires k < |methods|
    ensures TryMethods(AfterTrying(w, methods, script, k), methods, script, k, last)
            == if ResultOf(w, methods, script, k).Ok? then
                 (AfterTrying(w, methods, script, k + 1), ResultOf(w, methods, script, k), k + 1)
               else
                 TryMethods(AfterTrying(w, methods, script, k + 1), methods, script, k + 1,
                            ResultOf(w, methods, script, k))
  {
  }

  /** As long as all methods fail the loop goes on. */
  lemma {:induction false} LoopReaches(w: World, methods: seq<ShutdownMethod>, script: AttemptScript, k: nat)
    requires 0 < k <= |methods| && FirstFailed(w, methods, script, k)
    ensures TryMethods(w, methods, script, 0, Ok(()))
            == TryMethods(AfterTrying(w, methods, script, k), methods, script, k, ResultOf(w, methods, script, k - 1))
  {
    if k == 1 {
      OneMethod(w, methods, script, 0, Ok(()));
    } else {
      LoopReaches(w, methods, script, k - 1);
      OneMethod(w, methods, script, k - 1, ResultOf(w, methods, script, k - 2));
    }
  }

  /** The loop stops after `n` methods: the last of them is the first that worked, or all have been tried. */
  ghost predicate StopsAfter(w: World, methods: seq<ShutdownMethod>, script: AttemptScript, n: nat) {
    && n <= |methods|
    && if n == 0 then methods == []
       else FirstFailed(w, methods, script, n - 1) && (ResultOf(w, methods, script, n - 1).Ok? || n == |methods|)
  }

  /**
   * Methods are tried in order, and each only after all earlier ones failed.  The first that works is the last one
   * tried and decides the result; if none works, all have been tried and the result is the error of the last.  An empty
   * list returns Ok and has no effect beyond the look at the state.
   */
  lemma MethodsAreTriedInOrder(w: World, m: Moment, methods: seq<ShutdownMethod>, script: AttemptScript, n: nat)
    requires PausedOrRunning(VmStateOf(Look(w, m).vm)) && StopsAfter(Look(w, m), methods, script, n)
    ensures ShutDown(w, m, methods, script)
            == (AfterTrying(Look(w, m), methods, script, n),
                if n == 0 then Ok(()) else ResultOf(Look(w, m), methods, script, n - 1),
                n)
  {
    var a := Look(w, m);
    if n > 1 {
      LoopReaches(a, methods, script, n - 1);
    }
    if n > 0 {
      OneMethod(a, methods, script, n - 1, if n == 1 then Ok(()) else ResultOf(a, methods, script, n - 2));
    }
  }

  /** The hole: a delivered kill whose wait fails is reported as a success while the process still runs. */
  lemma BrokenWaitLooksLikeSuccess(w: World, env: AttemptEnv)
    requires WasStarted(w) && w.vm.proc.child.value.exit.None? && w.vm.proc.state == Started
    requires env.kill.exit.None? && env.wait.exit.None? && env.delivered && env.end.OsWaitFails?
    ensures TryMethod(w, Kill, env).1.Ok? && TryMethod(w, Kill, env).0.vm.proc.child.value.exit.None?
  {
  }
}
