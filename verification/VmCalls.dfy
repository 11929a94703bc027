/**
 Which calls of a VM succeed, and what they change, said of the fields: whether the process is up, the pause flag, and
 what the server answered.
 */
module VmCalls {
  import opened Wrappers
  import opened Paths
  import opened ExecutorTypes
  import opened Process
  import opened ProcessRuns
  import opened VmTypes
  import opened Api
  import opened VmMachine
  import opened Shutdown
  import opened VmRuns

  // ---------------------------------------------------------------- requests

  /** The server confirms: some status from 200 to 299, and nothing in the body but white space. */
  predicate Confirms(x: Exchange) {
    x.Answer? && 200 <= x.response.status <= 299 && Blank(x.response.body)
  }

  lemma SubmitSucceedsIff(p: Proc, r: Round)
    requires Valid(p)
    ensures SendExpectingNothing(p, r).1.Ok? <==> IsUp(p, r.m) && Confirms(r.exchange)
  {
  }

  /** A JSON document is not blank, while blanks and line ends are. */
  lemma BlankBodies(body: string)
    ensures (exists c :: c in body && 0x21 <= c as int <= 0x7E) ==> !Blank(body)
    ensures (forall c :: c in body ==> c == ' ' || c == '\t' || c == '\n' || c == '\r') ==> Blank(body)
  {
  }

  /** Why a request to a process that is up was no success. */
  lemma RequestErrors(p: Proc, r: Round)
    requires Valid(p) && IsUp(p, r.m) && !Confirms(r.exchange)
    ensures var result := SendExpectingNothing(p, r).1;
            match r.exchange
            case NotSerialised => result == Err(SerdeFailed)
            case SocketRefused =>
              result == Err(ProcessFailed(if p.client then RequestFailed else ExecutorFailed(ShellCommandFailed)))
            case LostOnTheWay => result == Err(ProcessFailed(RequestFailed))
            case BodyLost => result == Err(ApiResponseCouldNotBeReceived)
            case Answer(response, faultParses) =>
              if 200 <= response.status <= 299 then result == Err(ApiResponseExpectedEmpty(response.body))
              else result == Err(if faultParses then ApiRespondedWithFault(response.status) else SerdeFailed)
  {
  }

  // ---------------------------------------------------------------- the state of a VM

  /** What a VM reports at a look: not started, up and paused or not, or how its process ended. */
  lemma StateIs(w: World, m: Moment)
    requires Valid(w.vm.proc)
    ensures var s := VmStateOf(Look(w, m).vm);
            && (s == NotStarted <==> w.vm.proc.state.Rank() <= 1)
            && (s == Running <==> IsUp(w.vm.proc, m) && !w.vm.isPaused)
            && (s == Paused <==> IsUp(w.vm.proc, m) && w.vm.isPaused)
            && (s == VmExited ==> EndedWith(w.vm.proc, m) == Some(Code(0)))
            && (s.VmCrashed? ==> EndedWith(w.vm.proc, m) == Some(s.status) && s.status != Code(0))
            && (PausedOrRunning(s) <==> IsUp(w.vm.proc, m))
            && (ExitedOrCrashed(s) <==> w.vm.proc.state.Rank() >= 2 && !IsUp(w.vm.proc, m))
  {
  }

  // ---------------------------------------------------------------- the calls

  /** Between two looks of a call that found the process up. */
  predicate StaysUp(w: World, m: Moment, second: Moment) {
    IsUp(w.vm.proc, m) && IsUp(Observe(w.vm.proc, m), second)
  }

  /** Pausing and resuming: the flag decides who may ask, the server whether it happens; only an Ok moves the flag. */
  lemma PauseSucceedsIff(w: World, m: Moment, r: Round, applies: bool, pause: bool)
    requires Valid(w.vm.proc)
    ensures var (after, result) := ChangePause(w, m, r, applies, pause);
            && (result.Ok? <==> w.vm.isPaused != pause && StaysUp(w, m, r.m) && Confirms(r.exchange))
            && after.vm.isPaused == if result.Ok? then pause else w.vm.isPaused
  {
    ObserveKeepsValid(w.vm.proc, m);
    StateIs(w, m);
    SubmitSucceedsIff(Observe(w.vm.proc, m), r);
  }

  /** A custom request succeeds with every answer, and sets the flag as it was told to. */
  lemma CustomSucceedsIff(w: World, m: Moment, second: Moment, reply: Reply, newIsPaused: Option<bool>,
                          guestAfter: Option<bool>)
    requires Valid(w.vm.proc)
    ensures var (after, result) := Custom(w, m, second, reply, newIsPaused, guestAfter);
            && (result.Ok? <==> StaysUp(w, m, second) && reply.Answered?)
            && (result.Ok? ==> result.value == reply.response)
            && (after.vm.isPaused
                == if result.Ok? && newIsPaused.Some? then newIsPaused.value else w.vm.isPaused)
  {
    ObserveKeepsValid(w.vm.proc, m);
    StateIs(w, m);
    SendSucceedsIff(Observe(w.vm.proc, m), second, true, reply);
  }

  /** Every other request: paused or not, and any body is part of the result. */
  lemma OtherSucceedsIff(w: World, m: Moment, r: Round)
    requires Valid(w.vm.proc)
    ensures var result := OtherRequest(w, m, r).1;
            && (result.Ok? <==> StaysUp(w, m, r.m) && r.exchange.Answer? && 200 <= r.exchange.response.status <= 299)
            && (result.Ok? ==> result.value == r.exchange.response.body)
  {
    ObserveKeepsValid(w.vm.proc, m);
    StateIs(w, m);
  }

  /** A snapshot is taken of a paused VM only, and the paths it carries are those of the request seen from outside. */
  lemma SnapshotSucceedsIff(x: Context, w: World, m: Moment, r: Round, snapshot: PathBuf, memFile: PathBuf)
    requires Valid(w.vm.proc)
    ensures var result := CreateSnapshot(x, w, m, r, snapshot, memFile).1;
            && (result.Ok? <==> w.vm.isPaused && StaysUp(w, m, r.m) && Confirms(r.exchange))
            && (result.Ok? ==> result.value == SnapshotData(x.Outer(snapshot), x.Outer(memFile), w.vm.original))
  {
    ObserveKeepsValid(w.vm.proc, m);
    StateIs(w, m);
    SubmitSucceedsIff(Observe(w.vm.proc, m), r);
  }

  /** The pipes are handed out while the process is up and has all of them. */
  lemma PipesAreHandedOutIff(w: World, m: Moment, second: Moment)
    requires Valid(w.vm.proc)
    ensures var (after, result) := TakePipesOf(w, m, second);
            && (result.Ok? <==> StaysUp(w, m, second) && HasAllPipes(w.vm.proc))
            && (result.Ok? ==> HasNoPipe(after.vm.proc))
            && (!IsUp(w.vm.proc, m) ==> after == Look(w, m))
  {
    ObserveKeepsValid(w.vm.proc, m);
    StateIs(w, m);
    PipesAreTakenIff(Observe(w.vm.proc, m), second);
  }

  /** Cleaning up is for processes that have ended, and the executor's answer decides. */
  lemma CleanupSucceedsIff(w: World, m: Moment, second: Moment, cleaned: Result<(), ExecutorError>)
    requires Valid(w.vm.proc)
    ensures CleanUp(w, m, second, cleaned).1.Ok?
            <==> w.vm.proc.state.Rank() >= 2 && !IsUp(w.vm.proc, m) && cleaned.Ok?
  {
    StateIs(w, m);
    ObserveKeepsValid(w.vm.proc, m);
    ExecutorIsAskedIff(Observe(w.vm.proc, m), second, Err(IoError), Err(IoError), cleaned);
  }

  // ---------------------------------------------------------------- shutting down

  /** A VM that is not up refuses to be shut down, and no method is tried. */
  lemma ShutdownIsRefused(w: World, m: Moment, methods: seq<ShutdownMethod>, script: AttemptScript)
    requires Valid(w.vm.proc) && !IsUp(w.vm.proc, m)
    ensures ShutDown(w, m, methods, script)
            == (Look(w, m), Err(ExpectedPausedOrRunning(VmStateOf(Look(w, m).vm))), 0)
  {
    StateIs(w, m);
  }

  /** Each method by what it needs: an accepted request, a delivered signal, or an accepted pause and then a signal. */
  lemma AttemptSucceedsIff(w: World, how: ShutdownMethod, env: AttemptEnv)
    requires Valid(w.vm.proc)
    ensures Attempt(w, how, env).1.Ok?
            <==> match how
                 case CtrlAltDel =>
                   IsUp(w.vm.proc, env.round.m) && env.reply.Answered? && 200 <= env.reply.response.status <= 299
                 case Kill => IsUp(w.vm.proc, env.kill) && env.delivered
                 case PauseThenKill =>
                   && !w.vm.isPaused && StaysUp(w, env.look, env.round.m) && Confirms(env.round.exchange)
                   && IsUp(ChangePause(w, env.look, env.round, env.applies, true).0.vm.proc, env.kill)
                   && env.delivered
  {
    match how
    case CtrlAltDel => CtrlAltDelSucceedsIff(w.vm.proc, env.round.m, true, env.reply);
    case Kill => SigkillSucceedsIff(w.vm.proc, env.kill, env.delivered);
    case PauseThenKill =>
      var paused := ChangePause(w, env.look, env.round, env.applies, true).0.vm.proc;
      PauseSucceedsIff(w, env.look, env.round, env.applies, true);
      PauseEvolves(w, env.look, env.round, env.applies, true);
      SigkillSucceedsIff(paused, env.kill, env.delivered);
  }

  /** Ctrl+Alt+Del sends no signal, so what becomes of signals does not matter to it. */
  lemma CtrlAltDelSendsNoSignal(w: World, env: AttemptEnv, kill: Moment, delivered: bool)
    ensures Attempt(w, CtrlAltDel, env) == Attempt(w, CtrlAltDel, env.(kill := kill, delivered := delivered))
  {
  }

  /** A plain kill asks the server for nothing. */
  lemma KillSendsNoRequest(w: World, env: AttemptEnv, round: Round, reply: Reply)
    ensures Attempt(w, Kill, env) == Attempt(w, Kill, env.(round := round, reply := reply))
    ensures Attempt(w, Kill, env).0.vm.proc.client == w.vm.proc.client
    ensures Attempt(w, Kill, env).0.vm.isPaused == w.vm.isPaused
  {
  }

  /** A pause before the kill is seen on the flag. */
  lemma PauseThenKillPauses(w: World, env: AttemptEnv)
    requires Valid(w.vm.proc)
    ensures Attempt(w, PauseThenKill, env).1.Ok? ==> Attempt(w, PauseThenKill, env).0.vm.isPaused
  {
    PauseSucceedsIff(w, env.look, env.round, env.applies, true);
  }
}
