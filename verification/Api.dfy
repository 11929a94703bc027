/** One request to the API server of the VMM, as the VM layer sends it and judges its answer. */
module Api {
  import opened Wrappers
  import opened Process
  import opened VmTypes

  /** What the environment makes of one request. */
  datatype Exchange =
    | NotSerialised                                      // the body cannot be printed, nothing is sent
    | SocketRefused                                      // there is no client yet, and the socket keeps its owner
    | LostOnTheWay                                       // sent, and no response arrives
    | BodyLost                                           // the response's body cannot be received
    | Answer(response: Response, faultParses: bool)      // a response; `faultParses` matters for refusals

  /** The environment's part in one call: the child at the look before sending, and the exchange. */
  datatype Round = Round(m: Moment, exchange: Exchange)

  predicate Whitespace(c: char) {
    var n := c as int;
    || 0x09 <= n <= 0x0D || n == 0x20 || n == 0x85 || n == 0xA0 || n == 0x1680 || 0x2000 <= n <= 0x200A
    || n == 0x2028 || n == 0x2029 || n == 0x202F || n == 0x205F || n == 0x3000
  }

  /** `trim().is_empty()`. */
  predicate Blank(body: string) {
    forall c :: c in body ==> Whitespace(c)
  }

  /** The request leaves the program: it is printed and there is a running child to send it to. */
  predicate IsSent(p: Proc, r: Round) {
    !r.exchange.NotSerialised? && Observe(p, r.m).state == Started && (p.client || !r.exchange.SocketRefused?)
  }

  /** The exchange as the process sees it: a response without its body is a response. */
  function AsReply(x: Exchange): Reply {
    match x
    case SocketRefused => SocketNotOwned
    case Answer(response, _) => Answered(response)
    case BodyLost => Answered(Response(200, ""))
    case _ => Lost
  }

  /** The server says that it has done what was asked. */
  predicate IsAccepted(p: Proc, r: Round) {
    IsSent(p, r) && r.exchange.Answer? && r.exchange.response.IsSuccess()
  }

  /** `send_api_request_internal`. */
  function SendRequest(p: Proc, r: Round): (Proc, Result<string, VmError>) {
    if r.exchange.NotSerialised? then (p, Err(SerdeFailed))
    else
      var (q, out) := SendApiRequest(p, r.m, true, AsReply(r.exchange));
      match out
      case Panicked => (q, Err(ProcessFailed(RequestFailed)))
      case Returned(Err(error)) => (q, Err(ProcessFailed(error)))
      case Returned(Ok(_)) => (q, Judge(r.exchange))
  }

  function Judge(x: Exchange): Result<string, VmError> {
    match x
    case NotSerialised => Err(SerdeFailed)
    case LostOnTheWay => Err(ProcessFailed(RequestFailed))
    case SocketRefused => Err(ProcessFailed(RequestFailed))
    case BodyLost => Err(ApiResponseCouldNotBeReceived)
    case Answer(response, faultParses) =>
      if response.IsSuccess() then Ok(response.body)
      else if faultParses then Err(ApiRespondedWithFault(response.status))
      else Err(SerdeFailed)
  }

  /** `send_api_request`: a body where none is expected is an error, whatever the status. */
  function SendExpectingNothing(p: Proc, r: Round): (Proc, Result<(), VmError>) {
    var (q, result) := SendRequest(p, r);
    match result
    case Err(error) => (q, Err(error))
    case Ok(body) => if Blank(body) then (q, Ok(())) else (q, Err(ApiResponseExpectedEmpty(body)))
  }

  /** The success rule: Ok means a running child, a success status and a blank body, and only that. */
  lemma OkMeansAccepted(p: Proc, r: Round)
    ensures SendExpectingNothing(p, r).1.Ok?
            <==> IsAccepted(p, r) && Blank(r.exchange.response.body)
  {
  }

  /** `send_api_request_internal` on the process object. */
  method Converse(process: VmmProcess, r: Round) returns (result: Result<string, VmError>)
    modifies process
    ensures (process.View(), result) == SendRequest(old(process.View()), r)
  {
    if r.exchange.NotSerialised? {
      return Err(SerdeFailed);
    }
    var out := process.Send(r.m, true, AsReply(r.exchange));
    result := match out
      case Panicked => Err(ProcessFailed(RequestFailed))
      case Returned(Err(error)) => Err(ProcessFailed(error))
      case Returned(Ok(_)) => Judge(r.exchange);
  }

  method Submit(process: VmmProcess, r: Round) returns (result: Result<(), VmError>)
    modifies process
    ensures (process.View(), result) == SendExpectingNothing(old(process.View()), r)
  {
    var received := Converse(process, r);
    result := match received
      case Err(error) => Err(error)
      case Ok(body) => if Blank(body) then Ok(()) else Err(ApiResponseExpectedEmpty(body));
  }
}
