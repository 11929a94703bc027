/**
 The VMM process: a child of the operating system behind a small state machine.  The child may exit at any moment; the
 program notices when it looks.  A `Moment` is what the environment does at one such look, so quantifying over moments
 is quantifying over all behaviours of the child and of `try_wait`.
 */
module Process {
  import opened Wrappers
  import opened Paths
  import opened ExecutorTypes

  datatype ExitStatus = Code(code: int) | Signal(signal: nat) {
    predicate Success() {
      this == Code(0)
    }
  }

  /** Which of the three pipes the child still holds. */
  datatype Pipes = Pipes(stdin: bool, stdout: bool, stderr: bool)

  /** `exit` is what has become of the process, `reaped` whether a wait has collected it. */
  datatype Child = Child(exit: Option<ExitStatus>, reaped: bool, pipes: Pipes)

  datatype ProcessState = AwaitingPrepare | AwaitingStart | Started | Exited | Crashed(status: ExitStatus) {
    predicate Terminal() {
      Exited? || Crashed?
    }

    function Rank(): nat {
      match this
      case AwaitingPrepare => 0
      case AwaitingStart => 1
      case Started => 2
      case _ => 3
    }
  }

  type Mapping = map<PathBuf, PathBuf>

  /** `client` is whether the API client has been made, which happens on first use. */
  datatype Proc = Proc(state: ProcessState, child: Option<Child>, outerPaths: Option<seq<PathBuf>>, client: bool)

  datatype ProcessError =
    | ExpectedState(expected: ProcessState, actual: ProcessState)
    | ExpectedExitedOrCrashed(actual: ProcessState)
    | SocketWasDisabled
    | RequestFailed
    | SigkillFailed
    | CtrlAltDelRequestFailed(status: nat)
    | WaitFailed
    | ExecutorFailed(error: ExecutorError)
    | PipesNulledOrAlreadyTaken

  /** A call returns, or it runs into one of the `expect`s. */
  datatype Outcome<+T> = Returned(result: Result<T, ProcessError>) | Panicked {
    predicate Succeeds() {
      Returned? && result.Ok?
    }
  }

  function Good<T>(value: T): Outcome<T> {
    Returned(Ok(value))
  }

  function Bad<T>(error: ProcessError): Outcome<T> {
    Returned(Err(error))
  }

  // ---------------------------------------------------------------- looking at the child

  /** Between the last look and this one the child may have exited, and `try_wait` itself may fail. */
  datatype Moment = Moment(exit: Option<ExitStatus>, waitFails: bool)

  function StateOf(status: ExitStatus): ProcessState {
    if status.Success() then Exited else Crashed(status)
  }

  function Live(c: Child, m: Moment): Child {
    if c.exit.None? then c.(exit := m.exit) else c
  }

  /** `update_state`: once a status has been collected, every further `try_wait` repeats it. */
  function Observe(p: Proc, m: Moment): Proc {
    match p.child
    case None => p
    case Some(child) =>
      var c := Live(child, m);
      if c.exit.Some? && (c.reaped || !m.waitFails) then
        p.(child := Some(c.(reaped := true)), state := StateOf(c.exit.value))
      else
        p.(child := Some(c))
  }

  // ---------------------------------------------------------------- the calls

  function New(outer: seq<PathBuf>): Proc {
    Proc(AwaitingPrepare, None, Some(outer), false)
  }

  function Mismatch<T>(p: Proc, expected: ProcessState): (Proc, Outcome<T>) {
    (p, Bad(ExpectedState(expected, p.state)))
  }

  /** `prepare`, with what the executor answers if it is asked. */
  function Prepare(p: Proc, m: Moment, executor: Result<Mapping, ExecutorError>): (Proc, Outcome<Mapping>) {
    var q := Observe(p, m);
    if q.state != AwaitingPrepare then Mismatch(q, AwaitingPrepare)
    else if q.outerPaths.None? then (q, Panicked)
    else
      var taken := q.(outerPaths := None);
      match executor
      case Err(error) => (taken, Bad(ExecutorFailed(error)))
      case Ok(mapping) => (taken.(state := AwaitingStart), Good(mapping))
  }

  /** `invoke`, with the pipes of the child if the executor spawns one. */
  function Invoke(p: Proc, m: Moment, executor: Result<Pipes, ExecutorError>): (Proc, Outcome<()>) {
    var q := Observe(p, m);
    if q.state != AwaitingStart then Mismatch(q, AwaitingStart)
    else
      match executor
      case Err(error) => (q, Bad(ExecutorFailed(error)))
      case Ok(pipes) => (q.(child := Some(Child(None, false, pipes)), state := Started), Good(()))
  }

  datatype Response = Response(status: nat, body: string) {
    predicate IsSuccess() {
      200 <= status < 300
    }
  }

  /**
   * What becomes of a request: while there is no client yet, the socket may refuse to change its owner; otherwise the
   * request is lost on the way or answered.
   */
  datatype Reply = SocketNotOwned | Lost | Answered(response: Response)

  function SendApiRequest(p: Proc, m: Moment, socket: bool, reply: Reply): (Proc, Outcome<Response>) {
    var q := Observe(p, m);
    if q.state != Started then Mismatch(q, Started)
    else if !socket then (q, Bad(SocketWasDisabled))
    else if !q.client && reply.SocketNotOwned? then (q, Bad(ExecutorFailed(ShellCommandFailed)))
    else
      var r := q.(client := true);
      match reply
      case Answered(response) => (r, Good(response))
      case _ => (r, Bad(RequestFailed))
  }

  function SendCtrlAltDel(p: Proc, m: Moment, socket: bool, reply: Reply): (Proc, Outcome<()>) {
    var (q, out) := SendApiRequest(p, m, socket, reply);
    match out
    case Panicked => (q, Panicked)
    case Returned(Err(error)) => (q, Bad(error))
    case Returned(Ok(response)) =>
      if response.IsSuccess() then (q, Good(())) else (q, Bad(CtrlAltDelRequestFailed(response.status)))
  }

  /** `take_pipes` takes stdin, stdout and stderr in turn and gives up at the first that is gone. */
  function TakePipes(p: Proc, m: Moment): (Proc, Outcome<()>) {
    var q := Observe(p, m);
    if q.state != Started then Mismatch(q, Started)
    else
      match q.child
      case None => (q, Panicked)
      case Some(c) =>
        if !c.pipes.stdin then (q, Bad(PipesNulledOrAlreadyTaken))
        else if !c.pipes.stdout then
          (q.(child := Some(c.(pipes := c.pipes.(stdin := false)))), Bad(PipesNulledOrAlreadyTaken))
        else if !c.pipes.stderr then
          (q.(child := Some(c.(pipes := Pipes(false, false, false)))), Bad(PipesNulledOrAlreadyTaken))
        else
          (q.(child := Some(c.(pipes := Pipes(false, false, false)))), Good(()))
  }

  /** `send_sigkill`: the signal is delivered or refused; the exit itself comes at some later moment. */
  function SendSigkill(p: Proc, m: Moment, delivered: bool): (Proc, Outcome<()>) {
    var q := Observe(p, m);
    if q.state != Started then Mismatch(q, Started)
    else if q.child.None? then (q, Panicked)
    else if delivered then (q, Good(()))
    else (q, Bad(SigkillFailed))
  }

  datatype WaitEnd = ExitsWith(status: ExitStatus) | OsWaitFails | StillRunning

  /** `wait_for_exit`; no outcome when the caller stops waiting first.  The `state` field is not updated here. */
  function WaitForExit(p: Proc, m: Moment, end: WaitEnd): (Proc, Option<Outcome<ExitStatus>>) {
    var q := Observe(p, m);
    if q.state != Started then (q, Some(Bad(ExpectedState(Started, q.state))))
    else
      match q.child
      case None => (q, Some(Panicked))
      case Some(c) =>
        match end
        case StillRunning => (q, None)
        case OsWaitFails => (q, Some(Bad(WaitFailed)))
        case ExitsWith(status) =>
          var final := if c.exit.Some? then c.exit.value else status;
          (q.(child := Some(c.(exit := Some(final), reaped := true))), Some(Good(final)))
  }

  function Cleanup(p: Proc, m: Moment, executor: Result<(), ExecutorError>): (Proc, Outcome<()>) {
    var q := Observe(p, m);
    if !q.state.Terminal() then (q, Bad(ExpectedExitedOrCrashed(q.state)))
    else
      match executor
      case Err(error) => (q, Bad(ExecutorFailed(error)))
      case Ok(_) => (q, Good(()))
  }

  // ---------------------------------------------------------------- the object

  /** `VmmProcess`: the fields the methods update; `View` is their value. */
  class VmmProcess {
    var state: ProcessState
    var child: Option<Child>
    var outerPaths: Option<seq<PathBuf>>
    var client: bool

    function View(): Proc
      reads this
    {
      Proc(state, child, outerPaths, client)
    }

    constructor (outer: seq<PathBuf>)
      ensures View() == New(outer)
    {
      state, child, outerPaths, client := AwaitingPrepare, None, Some(outer), false;
    }

    method UpdateState(m: Moment)
      modifies this
      ensures View() == Observe(old(View()), m)
    {
      if child.Some? {
        var c := Live(child.value, m);
        if c.exit.Some? && (c.reaped || !m.waitFails) {
          c := c.(reaped := true);
          state := StateOf(c.exit.value);
        }
        child := Some(c);
      }
    }

    method EnsureState(m: Moment, expected: ProcessState) returns (error: Option<ProcessError>)
      modifies this
      ensures View() == Observe(old(View()), m)
      ensures error == if View().state == expected then None else Some(ExpectedState(expected, View().state))
    {
      UpdateState(m);
      error := if state == expected then None else Some(ExpectedState(expected, state));
    }

    /** The paths, if the state allows handing them to the executor; afterwards the object no longer has them. */
    method TakeOuterPaths(m: Moment) returns (out: Outcome<seq<PathBuf>>)
      modifies this
      ensures out.Succeeds() ==>
                forall answer :: Prepare(old(View()), m, answer).0
                                 == View().(state := if answer.Ok? then AwaitingStart else AwaitingPrepare)
      ensures out.Succeeds() ==> View().outerPaths == None && old(View()).outerPaths == Some(out.result.value)
      ensures !out.Succeeds() ==>
                forall answer :: Prepare(old(View()), m, answer)
                                 == (View(), if out.Panicked? then Panicked else Bad(out.result.error))
    {
      var error := EnsureState(m, AwaitingPrepare);
      if error.Some? {
        return Bad(error.value);
      }
      if outerPaths.None? {
        return Panicked;
      }
      out := Good(outerPaths.value);
      outerPaths := None;
    }

    method FinishPrepare()
      modifies this
      ensures View() == old(View()).(state := AwaitingStart)
    {
      state := AwaitingStart;
    }

    method InvokeChild(m: Moment, executor: Result<Pipes, ExecutorError>) returns (out: Outcome<()>)
      modifies this
      ensures (View(), out) == Invoke(old(View()), m, executor)
    {
      var error := EnsureState(m, AwaitingStart);
      if error.Some? {
        return Bad(error.value);
      }
      match executor {
        case Err(e) => out := Bad(ExecutorFailed(e));
        case Ok(pipes) =>
          child := Some(Child(None, false, pipes));
          state := Started;
          out := Good(());
      }
    }

    method Send(m: Moment, socket: bool, reply: Reply) returns (out: Outcome<Response>)
      modifies this
      ensures (View(), out) == SendApiRequest(old(View()), m, socket, reply)
    {
      var error := EnsureState(m, Started);
      if error.Some? {
        return Bad(error.value);
      }
      if !socket {
        return Bad(SocketWasDisabled);
      }
      if !client {
        if reply.SocketNotOwned? {
          return Bad(ExecutorFailed(ShellCommandFailed));
        }
        client := true;
      }
      out := match reply case Answered(response) => Good(response) case _ => Bad(RequestFailed);
    }

    method CtrlAltDel(m: Moment, socket: bool, reply: Reply) returns (out: Outcome<()>)
      modifies this
      ensures (View(), out) == SendCtrlAltDel(old(View()), m, socket, reply)
    {
      var sent := Send(m, socket, reply);
      out := match sent
        case Panicked => Panicked
        case Returned(Err(error)) => Bad(error)
        case Returned(Ok(response)) =>
          if response.IsSuccess() then Good(()) else Bad(CtrlAltDelRequestFailed(response.status));
    }

    method Sigkill(m: Moment, delivered: bool) returns (out: Outcome<()>)
      modifies this
      ensures (View(), out) == SendSigkill(old(View()), m, delivered)
    {
      var error := EnsureState(m, Started);
      if error.Some? {
        return Bad(error.value);
      }
      out := if child.None? then Panicked else if delivered then Good(()) else Bad(SigkillFailed);
    }

    method Wait(m: Moment, end: WaitEnd) returns (out: Option<Outcome<ExitStatus>>)
      modifies this
      ensures (View(), out) == WaitForExit(old(View()), m, end)
    {
      var error := EnsureState(m, Started);
      if error.Some? {
        return Some(Bad(error.value));
      }
      if child.None? {
        return Some(Panicked);
      }
      match end {
        case StillRunning => out := None;
        case OsWaitFails => out := Some(Bad(WaitFailed));
        case ExitsWith(status) =>
          var final := if child.value.exit.Some? then child.value.exit.value else status;
          child := Some(child.value.(exit := Some(final), reaped := true));
          out := Some(Good(final));
      }
    }

    method TakeAllPipes(m: Moment) returns (out: Outcome<()>)
      modifies this
      ensures (View(), out) == TakePipes(old(View()), m)
    {
      var error := EnsureState(m, Started);
      if error.Some? {
        return Bad(error.value);
      }
      if child.None? {
        return Panicked;
      }
      var c := child.value;
      if !c.pipes.stdin {
        return Bad(PipesNulledOrAlreadyTaken);
      }
      child := Some(c.(pipes := Pipes(false, c.pipes.stdout, c.pipes.stderr)));
      if !c.pipes.stdout {
        return Bad(PipesNulledOrAlreadyTaken);
      }
      child := Some(c.(pipes := Pipes(false, false, c.pipes.stderr)));
      if !c.pipes.stderr {
        return Bad(PipesNulledOrAlreadyTaken);
      }
      child := Some(c.(pipes := Pipes(false, false, false)));
      out := Good(());
    }
  }
}
