/** What holds of a VMM process over every run: any sequence of public calls against any child. */
module ProcessRuns {
  import opened Wrappers
  import opened Paths
  import opened ExecutorTypes
  import opened Process

  /** A public call together with what the environment does while it runs. */
  datatype Call =
    | CallPrepare(m: Moment, mapped: Result<Mapping, ExecutorError>)
    | CallInvoke(m: Moment, spawned: Result<Pipes, ExecutorError>)
    | CallSend(m: Moment, socket: bool, reply: Reply)
    | CallCtrlAltDel(m: Moment, socket: bool, reply: Reply)
    | CallTakePipes(m: Moment)
    | CallSigkill(m: Moment, delivered: bool)
    | CallWait(m: Moment, end: WaitEnd)
    | CallState(m: Moment)
    | CallCleanup(m: Moment, cleaned: Result<(), ExecutorError>)

  function Apply(p: Proc, c: Call): Proc {
    match c
    case CallPrepare(m, mapped) => Prepare(p, m, mapped).0
    case CallInvoke(m, spawned) => Invoke(p, m, spawned).0
    case CallSend(m, socket, reply) => SendApiRequest(p, m, socket, reply).0
    case CallCtrlAltDel(m, socket, reply) => SendCtrlAltDel(p, m, socket, reply).0
    case CallTakePipes(m) => TakePipes(p, m).0
    case CallSigkill(m, delivered) => SendSigkill(p, m, delivered).0
    case CallWait(m, end) => WaitForExit(p, m, end).0
    case CallState(m) => Observe(p, m)
    case CallCleanup(m, cleaned) => Process.Cleanup(p, m, cleaned).0
  }

  /** The process after a run that began with a new object. */
  function After(outer: seq<PathBuf>, run: seq<Call>): Proc {
    if run == [] then New(outer) else Apply(After(outer, run[..|run| - 1]), run[|run| - 1])
  }

  predicate Valid(p: Proc) {
    && (p.child.Some? <==> p.state.Rank() >= 2)
    && (p.child.Some? && p.child.value.reaped ==> p.child.value.exit.Some?)
    && (p.state.Terminal() ==> p.child.value.reaped && p.state == StateOf(p.child.value.exit.value))
    && (p.state.Rank() >= 1 ==> p.outerPaths.None?)
    && (p.client ==> p.state.Rank() >= 2)
  }

  lemma ObserveKeepsValid(p: Proc, m: Moment)
    requires Valid(p)
    ensures var q := Observe(p, m);
            && Valid(q) && p.state.Rank() <= q.state.Rank() && q.outerPaths == p.outerPaths && q.client == p.client
            && (p.state.Terminal() ==> q.state == p.state)
  {
  }

  lemma SendKeepsValid(p: Proc, m: Moment, socket: bool, reply: Reply)
    requires Valid(p)
    ensures var q, r := Observe(p, m), SendApiRequest(p, m, socket, reply).0;
            r == q || (q.state == Started && r == q.(client := true))
    ensures SendCtrlAltDel(p, m, socket, reply).0 == SendApiRequest(p, m, socket, reply).0
    ensures SendApiRequest(p, m, socket, reply).1.Succeeds() ==> SendApiRequest(p, m, socket, reply).0.client
  {
  }

  lemma ApplyKeepsValid(p: Proc, c: Call)
    requires Valid(p)
    ensures Valid(Apply(p, c))
    ensures p.state.Rank() <= Apply(p, c).state.Rank()
    ensures p.state.Terminal() ==> Apply(p, c).state == p.state
    ensures p.outerPaths.None? ==> Apply(p, c).outerPaths.None?
    ensures p.client ==> Apply(p, c).client
  {
    ObserveKeepsValid(p, c.m);
    if c.CallSend? || c.CallCtrlAltDel? {
      SendKeepsValid(p, c.m, c.socket, c.reply);
    }
  }

  /** The exit of the child has been collected. */
  predicate Reaped(p: Proc) {
    p.child.Some? && p.child.value.reaped
  }

  /** What a process may become: nothing that is known about it is ever undone. */
  predicate Evolves(p: Proc, q: Proc) {
    && Valid(q)
    && p.state.Rank() <= q.state.Rank()
    && (p.state.Terminal() ==> q.state == p.state)
    && (p.outerPaths.None? ==> q.outerPaths.None?)
    && (Reaped(p) ==> Reaped(q))
    && (p.client ==> q.client)
  }

  lemma ApplyEvolves(p: Proc, c: Call)
    requires Valid(p)
    ensures Evolves(p, Apply(p, c))
  {
    ApplyKeepsValid(p, c);
  }

  lemma EvolvesFurther(p: Proc, q: Proc, r: Proc)
    requires Evolves(p, q) && Evolves(q, r)
    ensures Evolves(p, r)
  {
  }

  lemma ObserveEvolves(p: Proc, m: Moment)
    requires Valid(p)
    ensures Evolves(p, Observe(p, m))
  {
    ApplyEvolves(p, CallState(m));
  }

  lemma SendEvolves(p: Proc, m: Moment, reply: Reply)
    requires Valid(p)
    ensures Evolves(p, SendApiRequest(p, m, true, reply).0)
    ensures Evolves(p, SendCtrlAltDel(p, m, true, reply).0)
  {
    ApplyEvolves(p, CallSend(m, true, reply));
    ApplyEvolves(p, CallCtrlAltDel(m, true, reply));
  }

  lemma SigkillEvolves(p: Proc, m: Moment, delivered: bool)
    requires Valid(p)
    ensures Evolves(p, SendSigkill(p, m, delivered).0)
  {
    ApplyEvolves(p, CallSigkill(m, delivered));
  }

  lemma WaitEvolves(p: Proc, m: Moment, end: WaitEnd)
    requires Valid(p)
    ensures Evolves(p, WaitForExit(p, m, end).0)
  {
    ApplyEvolves(p, CallWait(m, end));
  }

  /** In every reachable state there is a child exactly from the start on. */
  lemma {:induction false} EveryRunIsValid(outer: seq<PathBuf>, run: seq<Call>)
    ensures Valid(After(outer, run))
  {
    if run == [] {
    } else {
      EveryRunIsValid(outer, run[..|run| - 1]);
      ApplyKeepsValid(After(outer, run[..|run| - 1]), run[|run| - 1]);
    }
  }

  /** The `expect`s on the child cannot be reached. */
  lemma ChildExpectsAreUnreachable(outer: seq<PathBuf>, run: seq<Call>, m: Moment, delivered: bool, end: WaitEnd)
    ensures !TakePipes(After(outer, run), m).1.Panicked?
    ensures !SendSigkill(After(outer, run), m, delivered).1.Panicked?
    ensures WaitForExit(After(outer, run), m, end).1 != Some(Panicked)
  {
    EveryRunIsValid(outer, run);
  }

  /** States only move forward; a terminal state, with the status it carries, is final. */
  lemma {:induction false} RunsMoveForward(outer: seq<PathBuf>, run: seq<Call>, i: nat)
    requires i <= |run|
    ensures After(outer, run[..i]).state.Rank() <= After(outer, run).state.Rank()
    ensures After(outer, run[..i]).state.Terminal() ==> After(outer, run).state == After(outer, run[..i]).state
    ensures After(outer, run[..i]).outerPaths.None? ==> After(outer, run).outerPaths.None?
    ensures After(outer, run[..i]).client ==> After(outer, run).client
  {
    if i == |run| {
      assert run[..i] == run;
    } else {
      var shorter := run[..|run| - 1];
      assert shorter[..i] == run[..i];
      RunsMoveForward(outer, shorter, i);
      EveryRunIsValid(outer, shorter);
      ApplyKeepsValid(After(outer, shorter), run[|run| - 1]);
    }
  }

  predicate PrepareSucceeds(p: Proc, c: Call) {
    c.CallPrepare? && Prepare(p, c.m, c.mapped).1.Succeeds()
  }

  predicate InvokeSucceeds(p: Proc, c: Call) {
    c.CallInvoke? && Invoke(p, c.m, c.spawned).1.Succeeds()
  }

  /** Prepare and invoke succeed at most once each, and in this order. */
  lemma EachSucceedsOnce(outer: seq<PathBuf>, run: seq<Call>, i: nat, j: nat)
    requires i < j < |run|
    ensures PrepareSucceeds(After(outer, run[..i]), run[i]) ==> !PrepareSucceeds(After(outer, run[..j]), run[j])
    ensures InvokeSucceeds(After(outer, run[..i]), run[i]) ==>
              !InvokeSucceeds(After(outer, run[..j]), run[j]) && !PrepareSucceeds(After(outer, run[..j]), run[j])
  {
    StepOfRun(outer, run, i);
    assert run[..j][..i + 1] == run[..i + 1];
    RunsMoveForward(outer, run[..j], i + 1);
    EveryRunIsValid(outer, run[..i]);
    EveryRunIsValid(outer, run[..j]);
  }

  /** The call makes the client, after the socket has changed its owner. */
  predicate MakesClient(p: Proc, c: Call) {
    !p.client && Apply(p, c).client
  }

  /** The client is made at most once in a run, and before any request is answered. */
  lemma ClientIsMadeOnce(outer: seq<PathBuf>, run: seq<Call>, i: nat, j: nat, m: Moment, reply: Reply)
    requires i < j < |run|
    ensures MakesClient(After(outer, run[..i]), run[i]) ==> !MakesClient(After(outer, run[..j]), run[j])
    ensures SendApiRequest(After(outer, run), m, true, reply).1.Succeeds() ==>
              SendApiRequest(After(outer, run), m, true, reply).0.client
  {
    StepOfRun(outer, run, i);
    assert run[..j][..i + 1] == run[..i + 1];
    RunsMoveForward(outer, run[..j], i + 1);
    EveryRunIsValid(outer, run);
    SendKeepsValid(After(outer, run), m, true, reply);
  }

  lemma StepOfRun(outer: seq<PathBuf>, run: seq<Call>, i: nat)
    requires i < |run|
    ensures After(outer, run[..i + 1]) == Apply(After(outer, run[..i]), run[i])
  {
    assert run[..i + 1][..i] == run[..i];
  }

  /** The call is a `prepare` whose executor failed. */
  predicate PrepareFailsInExecutor(p: Proc, c: Call) {
    && c.CallPrepare?
    && Prepare(p, c.m, c.mapped).1.Returned?
    && Prepare(p, c.m, c.mapped).1.result.Err?
    && Prepare(p, c.m, c.mapped).1.result.error.ExecutorFailed?
  }

  predicate PrepareFailedAt(outer: seq<PathBuf>, run: seq<Call>, i: nat)
    requires i < |run|
  {
    PrepareFailsInExecutor(After(outer, run[..i]), run[i])
  }

  ghost predicate SomePrepareFailed(outer: seq<PathBuf>, run: seq<Call>) {
    exists i :: 0 <= i < |run| && PrepareFailedAt(outer, run, i)
  }

  lemma PrepareFailedEarlier(outer: seq<PathBuf>, run: seq<Call>, i: nat)
    requires i < |run| - 1
    ensures PrepareFailedAt(outer, run[..|run| - 1], i) <==> PrepareFailedAt(outer, run, i)
  {
    assert run[..|run| - 1][..i] == run[..i];
  }

  lemma SomePrepareFailedSplit(outer: seq<PathBuf>, run: seq<Call>)
    requires run != []
    ensures var last := |run| - 1;
            SomePrepareFailed(outer, run)
            <==> SomePrepareFailed(outer, run[..last]) || PrepareFailedAt(outer, run, last)
  {
    var before := run[..|run| - 1];
    if SomePrepareFailed(outer, run) {
      var i :| 0 <= i < |run| && PrepareFailedAt(outer, run, i);
      if i < |before| {
        PrepareFailedEarlier(outer, run, i);
      }
    }
    if SomePrepareFailed(outer, before) {
      var i :| 0 <= i < |before| && PrepareFailedAt(outer, before, i);
      PrepareFailedEarlier(outer, run, i);
    }
  }

  predicate Stuck(p: Proc) {
    p.state == AwaitingPrepare && p.outerPaths.None?
  }

  lemma StuckStep(p: Proc, c: Call)
    requires Valid(p)
    ensures Stuck(Apply(p, c)) <==> Stuck(p) || PrepareFailsInExecutor(p, c)
  {
  }

  /** The object has lost its paths without having been prepared exactly when some executor failed to prepare. */
  lemma {:induction false} StuckIff(outer: seq<PathBuf>, run: seq<Call>)
    ensures Stuck(After(outer, run)) <==> SomePrepareFailed(outer, run)
  {
    if run == [] {
    } else {
      var before := run[..|run| - 1];
      SomePrepareFailedSplit(outer, run);
      EveryRunIsValid(outer, before);
      StuckIff(outer, before);
      StuckStep(After(outer, before), run[|run| - 1]);
    }
  }

  /** The `expect` on the outer paths is reached exactly by a `prepare` that comes after one whose executor failed. */
  lemma PathsExpectReachedIff(outer: seq<PathBuf>, run: seq<Call>, m: Moment, mapped: Result<Mapping, ExecutorError>)
    ensures Prepare(After(outer, run), m, mapped).1.Panicked? <==> SomePrepareFailed(outer, run)
  {
    EveryRunIsValid(outer, run);
    StuckIff(outer, run);
  }

  // ---------------------------------------------------------------- what a look reports

  /** The process has ended with this status, and the program has seen it. */
  predicate Reports(p: Proc, status: ExitStatus) {
    p.state == if status == Code(0) then Exited else Crashed(status)
  }

  /** The status with which the child has ended by the time of a look. */
  function EndedWith(p: Proc, m: Moment): Option<ExitStatus> {
    if p.child.None? then None
    else if p.child.value.exit.Some? then p.child.value.exit
    else m.exit
  }

  /**
   * A look sees that the child has ended unless the wait itself fails: code 0 is an exit, every other code and every
   * signal a crash with that status.  Otherwise the state stays, and the status of a child never changes.
   */
  lemma LookReports(p: Proc, m: Moment)
    ensures var q, ended := Observe(p, m), EndedWith(p, m);
            && (ended.Some? && !m.waitFails ==> Reports(q, ended.value))
            && (ended.None? || (m.waitFails && !Reaped(p)) ==> q.state == p.state)
            && (p.child.Some? ==> q.child.Some? && q.child.value.exit == ended)
  {
  }

  /** What the state says of the child is true of it. */
  predicate TellsTheTruth(p: Proc) {
    && (p.state == Exited ==> p.child.Some? && p.child.value.exit == Some(Code(0)))
    && (p.state.Crashed? ==>
          p.state.status != Code(0) && p.child.Some? && p.child.value.exit == Some(p.state.status))
  }

  lemma ValidTellsTheTruth(p: Proc)
    requires Valid(p)
    ensures TellsTheTruth(p)
  {
  }

  /** Over every run: Exited means that the child has ended with code 0, Crashed that it has ended otherwise. */
  lemma StatesTellTheTruth(outer: seq<PathBuf>, run: seq<Call>)
    ensures TellsTheTruth(After(outer, run))
  {
    EveryRunIsValid(outer, run);
  }

  lemma CallKeepsExit(p: Proc, c: Call)
    requires Valid(p) && p.child.Some? && p.child.value.exit.Some?
    ensures Apply(p, c).child.Some? && Apply(p, c).child.value.exit == p.child.value.exit
  {
    if c.CallSend? || c.CallCtrlAltDel? {
      SendKeepsValid(p, c.m, c.socket, c.reply);
    }
  }

  /** A child has one exit status, and it is not forgotten. */
  lemma {:induction false} ExitIsFinal(outer: seq<PathBuf>, run: seq<Call>, i: nat)
    requires i <= |run|
    requires After(outer, run[..i]).child.Some? && After(outer, run[..i]).child.value.exit.Some?
    ensures After(outer, run).child.Some?
    ensures After(outer, run).child.value.exit == After(outer, run[..i]).child.value.exit
  {
    if i == |run| {
      assert run[..i] == run;
    } else {
      var shorter := run[..|run| - 1];
      assert shorter[..i] == run[..i];
      ExitIsFinal(outer, shorter, i);
      EveryRunIsValid(outer, shorter);
      CallKeepsExit(After(outer, shorter), run[|run| - 1]);
    }
  }

  // ---------------------------------------------------------------- which calls succeed

  /** The child has been started and no look has seen its end. */
  predicate IsUp(p: Proc, m: Moment) {
    p.state == Started && (EndedWith(p, m).None? || (m.waitFails && !Reaped(p)))
  }

  /** A signal goes out exactly to a process that is up, when the operating system delivers it. */
  lemma SigkillSucceedsIff(p: Proc, m: Moment, delivered: bool)
    requires Valid(p)
    ensures SendSigkill(p, m, delivered).1.Succeeds() <==> IsUp(p, m) && delivered
  {
  }

  /** A request gets a response exactly when the process is up, there is a socket and the request is answered. */
  lemma SendSucceedsIff(p: Proc, m: Moment, socket: bool, reply: Reply)
    requires Valid(p)
    ensures var out := SendApiRequest(p, m, socket, reply).1;
            && (out.Succeeds() <==> IsUp(p, m) && socket && reply.Answered?)
            && (out.Succeeds() ==> out.result.value == reply.response)
  {
  }

  /** Ctrl+Alt+Del counts as sent when the answer has a status from 200 to 299. */
  lemma CtrlAltDelSucceedsIff(p: Proc, m: Moment, socket: bool, reply: Reply)
    requires Valid(p)
    ensures SendCtrlAltDel(p, m, socket, reply).1.Succeeds()
            <==> IsUp(p, m) && socket && reply.Answered? && 200 <= reply.response.status <= 299
  {
    SendSucceedsIff(p, m, socket, reply);
  }

  /** Waiting reports the status with which the child ended, which every later look reports too. */
  lemma WaitReports(p: Proc, m: Moment, end: WaitEnd, later: Moment)
    requires Valid(p) && IsUp(p, m)
    ensures var (q, out) := WaitForExit(p, m, end);
            match end
            case StillRunning => out == None
            case OsWaitFails => out == Some(Bad(WaitFailed))
            case ExitsWith(status) =>
              var ended := if EndedWith(p, m).Some? then EndedWith(p, m).value else status;
              out == Some(Good(ended)) && Reports(Observe(q, later), ended)
  {
  }

  predicate HasAllPipes(p: Proc) {
    p.child.Some? && p.child.value.pipes == Pipes(true, true, true)
  }

  predicate HasNoPipe(p: Proc) {
    p.child.Some? && p.child.value.pipes == Pipes(false, false, false)
  }

  /** Pipes can be taken exactly while the process is up and has all three of them, and are gone afterwards. */
  lemma PipesAreTakenIff(p: Proc, m: Moment)
    requires Valid(p)
    ensures var (q, out) := TakePipes(p, m);
            (out.Succeeds() <==> IsUp(p, m) && HasAllPipes(p)) && (out.Succeeds() ==> HasNoPipe(q))
  {
  }

  lemma CallKeepsPipesAway(p: Proc, c: Call)
    requires Valid(p) && HasNoPipe(p)
    ensures HasNoPipe(Apply(p, c))
  {
    if c.CallSend? || c.CallCtrlAltDel? {
      SendKeepsValid(p, c.m, c.socket, c.reply);
    }
  }

  lemma {:induction false} PipesStayAway(outer: seq<PathBuf>, run: seq<Call>, i: nat)
    requires i <= |run| && HasNoPipe(After(outer, run[..i]))
    ensures HasNoPipe(After(outer, run))
  {
    if i == |run| {
      assert run[..i] == run;
    } else {
      var shorter := run[..|run| - 1];
      assert shorter[..i] == run[..i];
      PipesStayAway(outer, shorter, i);
      EveryRunIsValid(outer, shorter);
      CallKeepsPipesAway(After(outer, shorter), run[|run| - 1]);
    }
  }

  predicate TakesPipes(p: Proc, c: Call) {
    c.CallTakePipes? && TakePipes(p, c.m).1.Succeeds()
  }

  /** The pipes are handed out at most once in a run. */
  lemma PipesAreTakenOnce(outer: seq<PathBuf>, run: seq<Call>, i: nat, j: nat)
    requires i < j < |run|
    ensures TakesPipes(After(outer, run[..i]), run[i]) ==> !TakesPipes(After(outer, run[..j]), run[j])
  {
    EveryRunIsValid(outer, run[..i]);
    EveryRunIsValid(outer, run[..j]);
    StepOfRun(outer, run, i);
    assert run[..j][..i + 1] == run[..i + 1];
    if TakesPipes(After(outer, run[..i]), run[i]) {
      PipesAreTakenIff(After(outer, run[..i]), run[i].m);
      PipesStayAway(outer, run[..j], i + 1);
      PipesAreTakenIff(After(outer, run[..j]), run[j].m);
    }
  }

  /** The executor's answer decides over a call that the state allows; it is asked in no other state. */
  lemma ExecutorIsAskedIff(p: Proc, m: Moment, mapped: Result<Mapping, ExecutorError>,
                           spawned: Result<Pipes, ExecutorError>, cleaned: Result<(), ExecutorError>)
    requires Valid(p)
    ensures Prepare(p, m, mapped).1.Succeeds() <==> p.state == AwaitingPrepare && p.outerPaths.Some? && mapped.Ok?
    ensures Prepare(p, m, mapped).1.Succeeds() ==>
              Prepare(p, m, mapped).1.result == Ok(mapped.value) && Prepare(p, m, mapped).0.state == AwaitingStart
    ensures Invoke(p, m, spawned).1.Succeeds() <==> p.state == AwaitingStart && spawned.Ok?
    ensures Invoke(p, m, spawned).1.Succeeds() ==>
              Invoke(p, m, spawned).0.child == Some(Child(None, false, spawned.value))
              && Invoke(p, m, spawned).0.state == Started
    ensures Process.Cleanup(p, m, cleaned).1.Succeeds()
            <==> p.state.Rank() >= 2 && !IsUp(p, m) && cleaned.Ok?
  {
  }
}
