/**
 The metrics task: it follows a growing file line by line, parses each line and sends the result into a bounded
 channel.  Writer, task and consumer take their steps in any order.
 */
module MetricsPump {
  import opened Wrappers

  /** The entries of `serde_json::from_str::<Metrics>`; the fields do not matter here. */
  type Metrics = string

  type Parser = string -> Option<Metrics>

  // ---------------------------------------------------------------- lines of a file

  const NEWLINE := '\n'

  function IndexOfNewline(s: string): (k: nat)
    ensures k <= |s| && (k < |s| ==> s[k] == NEWLINE)
  {
    if s == "" || s[0] == NEWLINE then 0 else IndexOfNewline(s[1..]) + 1
  }

  /** A carriage return before the newline belongs to the line end. */
  function WithoutReturn(line: string): string {
    if line != "" && line[|line| - 1] == '\r' then line[..|line| - 1] else line
  }

  /** The lines of a text; what follows the last newline is a line of its own. */
  function Lines(text: string): seq<string> {
    if text == "" then []
    else
      var k := IndexOfNewline(text);
      if k == |text| then [text] else [WithoutReturn(text[..k])] + Lines(text[k + 1..])
  }

  /** The text consists of whole lines, each with its newline. */
  predicate Whole(text: string) {
    text == "" || text[|text| - 1] == NEWLINE
  }

  /**
   * `next_line` on what is left of the file, with the number of characters it passes: at the end of the file there is
   * no line now, and an unfinished last line is returned as it is.
   */
  function NextLine(rest: string): (r: Option<(string, nat)>)
    ensures r.Some? ==> r.value.1 <= |rest|
  {
    var k := IndexOfNewline(rest);
    if rest == "" then None
    else if k == |rest| then Some((rest, k))
    else Some((WithoutReturn(rest[..k]), k + 1))
  }

  lemma {:induction false} NewlineComesFirst(a: string, b: string)
    requires IndexOfNewline(a) < |a|
    ensures IndexOfNewline(a + b) == IndexOfNewline(a)
  {
    if a[0] == NEWLINE {
    } else {
      assert (a + b)[1..] == a[1..] + b;
      NewlineComesFirst(a[1..], b);
    }
  }

  lemma {:induction false} NewlineEndsPiece(text: string, k: nat)
    requires k < |text| && k == IndexOfNewline(text)
    ensures IndexOfNewline(text[..k + 1]) == k
  {
    if text[0] == NEWLINE {
    } else {
      assert text[..k + 1][1..] == text[1..][..k];
      NewlineEndsPiece(text[1..], k - 1);
    }
  }

  lemma {:induction false} WholeHasNewline(a: string)
    requires Whole(a) && a != ""
    ensures IndexOfNewline(a) < |a|
  {
    if a[0] == NEWLINE {
    } else {
      WholeHasNewline(a[1..]);
    }
  }

  lemma RestIsWhole(text: string, k: nat)
    requires Whole(text) && k < |text|
    ensures Whole(text[k + 1..])
  {
  }

  /** The first line of a whole text, and the text behind it. */
  lemma FirstLine(text: string, k: nat)
    requires Whole(text) && text != "" && k == IndexOfNewline(text)
    ensures k < |text| && Whole(text[k + 1..])
    ensures Lines(text) == [WithoutReturn(text[..k])] + Lines(text[k + 1..])
  {
    WholeHasNewline(text);
    RestIsWhole(text, k);
  }

  lemma CutFirst(a: string, b: string, k: nat)
    requires k < |a|
    ensures (a + b)[..k] == a[..k] && (a + b)[k + 1..] == a[k + 1..] + b
  {
  }

  lemma LinesUnfold(text: string, k: nat)
    requires k == IndexOfNewline(text) && k < |text|
    ensures Lines(text) == [WithoutReturn(text[..k])] + Lines(text[k + 1..])
  {
  }

  /** The first line stays the first when more text follows. */
  lemma FirstLineStays(a: string, b: string, k: nat)
    requires Whole(a) && a != "" && k == IndexOfNewline(a)
    ensures k < |a| && Lines(a + b) == [WithoutReturn(a[..k])] + Lines(a[k + 1..] + b)
  {
    WholeHasNewline(a);
    NewlineComesFirst(a, b);
    CutFirst(a, b, k);
    LinesUnfold(a + b, k);
  }

  lemma Regroup(first: seq<string>, middle: seq<string>, last: seq<string>)
    ensures first + (middle + last) == first + middle + last
  {
  }

  lemma {:induction false} LinesOfConcat(a: string, b: string)
    requires Whole(a)
    ensures Lines(a + b) == Lines(a) + Lines(b)
    decreases |a|
  {
    if a == "" {
      assert a + b == b;
    } else {
      var k := IndexOfNewline(a);
      FirstLine(a, k);
      FirstLineStays(a, b, k);
      var rest := a[k + 1..];
      LinesOfConcat(rest, b);
      Regroup([WithoutReturn(a[..k])], Lines(rest), Lines(b));
    }
  }

  lemma OneLine(piece: string)
    requires Whole(piece) && piece != "" && IndexOfNewline(piece) == |piece| - 1
    ensures Lines(piece) == [WithoutReturn(piece[..|piece| - 1])]
  {
    assert piece[|piece|..] == "";
  }

  lemma FirstPiece(text: string, k: nat)
    requires Whole(text) && text != "" && k == IndexOfNewline(text)
    ensures k < |text| && Whole(text[..k + 1])
    ensures Lines(text[..k + 1]) == [WithoutReturn(text[..k])]
  {
    WholeHasNewline(text);
    var piece := text[..k + 1];
    NewlineEndsPiece(text, k);
    OneLine(piece);
    assert piece[..k] == text[..k];
  }

  /** Reading one line of whole lines passes exactly that line. */
  lemma NextLineIsFirst(rest: string)
    requires Whole(rest) && rest != ""
    ensures NextLine(rest).Some? && Lines(rest) != [] && NextLine(rest).value.0 == Lines(rest)[0]
    ensures var n := NextLine(rest).value.1;
            Whole(rest[..n]) && Whole(rest[n..]) && Lines(rest[..n]) == [NextLine(rest).value.0]
  {
    var k := IndexOfNewline(rest);
    FirstLine(rest, k);
    FirstPiece(rest, k);
  }

  // ---------------------------------------------------------------- the parties

  datatype Status = Reading | FailedToRead | FailedToParse | FailedToSend

  /**
   * The file is `passed + rest`, with the reader in between; `inHand` is the entry that `send` holds while the channel
   * is full.
   */
  datatype State = State(
    passed: string, rest: string, status: Status, inHand: Option<Metrics>, buffer: seq<Metrics>, received: seq<Metrics>,
    receiverDropped: bool)

  datatype Action =
    | Append(text: string)   // the writer
    | ReadLine               // the task reads and parses a line, or finds none
    | ReadFails
    | Send                   // the task hands its entry over, if there is room
    | Receive                // the consumer
    | DropReceiver

  function ReadStep(s: State, parse: Parser): State {
    match NextLine(s.rest)
    case None => s
    case Some((line, n)) =>
      match parse(line)
      case None => s.(status := FailedToParse)
      case Some(entry) => s.(passed := s.passed + s.rest[..n], rest := s.rest[n..], inHand := Some(entry))
  }

  function SendStep(s: State, bound: nat): State {
    if s.inHand.None? then s
    else if s.receiverDropped then s.(status := FailedToSend)
    else if |s.buffer| < bound then s.(buffer := s.buffer + [s.inHand.value], inHand := None)
    else s
  }

  /** One step of one party; a party that cannot move stays where it is. */
  function Step(s: State, a: Action, parse: Parser, bound: nat): State {
    match a
    case Append(text) => s.(rest := s.rest + text)
    case ReadLine => if s.status == Reading && s.inHand.None? then ReadStep(s, parse) else s
    case ReadFails => if s.status == Reading && s.inHand.None? then s.(status := FailedToRead) else s
    case Send => if s.status == Reading then SendStep(s, bound) else s
    case Receive =>
      if s.receiverDropped || s.buffer == [] then s
      else s.(received := s.received + [s.buffer[0]], buffer := s.buffer[1..])
    case DropReceiver => s.(receiverDropped := true)
  }

  function Initial(file: string): State {
    State("", file, Reading, None, [], [], false)
  }

  function After(file: string, run: seq<Action>, parse: Parser, bound: nat): State {
    if run == [] then Initial(file) else Step(After(file, run[..|run| - 1], parse, bound), run[|run| - 1], parse, bound)
  }

  // ---------------------------------------------------------------- the task as an object

  /** The loop of the task over its reader and its sender; the other parties reach the same fields. */
  class Pump {
    var passed: string
    var rest: string
    var status: Status
    var inHand: Option<Metrics>
    var buffer: seq<Metrics>
    var received: seq<Metrics>
    var receiverDropped: bool
    const bound: nat
    const parse: Parser

    function View(): State
      reads this
    {
      State(passed, rest, status, inHand, buffer, received, receiverDropped)
    }

    constructor (file: string, bound: nat, parse: Parser)
      ensures View() == Initial(file) && this.bound == bound && this.parse == parse
    {
      this.rest, this.bound, this.parse := file, bound, parse;
      passed, status, inHand, buffer, received, receiverDropped := "", Reading, None, [], [], false;
    }

    /** The first half of an iteration: `next_line` and `from_str`. */
    method ReadAndParse()
      requires status == Reading && inHand.None?
      modifies this
      ensures View() == Step(old(View()), ReadLine, parse, bound)
    {
      var found := NextLine(rest);
      if found.None? {
        return;
      }
      var entry := parse(found.value.0);
      if entry.None? {
        status := FailedToParse;
        return;
      }
      passed, rest, inHand := passed + rest[..found.value.1], rest[found.value.1..], entry;
    }

    /** The second half: `send`, which waits while the channel is full. */
    method TrySend()
      requires status == Reading && inHand.Some?
      modifies this
      ensures View() == Step(old(View()), Send, parse, bound)
    {
      if receiverDropped {
        status := FailedToSend;
      } else if |buffer| < bound {
        buffer := buffer + [inHand.value];
        inHand := None;
      }
    }

    /** All parties under one schedule. */
    method Execute(run: seq<Action>)
      requires View() == Initial(rest)
      modifies this
      ensures View() == After(old(rest), run, parse, bound)
    {
      var i := 0;
      assert run[..0] == [];
      while i < |run|
        invariant 0 <= i <= |run|
        invariant View() == After(old(rest), run[..i], parse, bound)
      {
        assert run[..i + 1][..i] == run[..i];
        match run[i] {
          case Append(text) => rest := rest + text;
          case ReadLine =>
            if status == Reading && inHand.None? {
              ReadAndParse();
            }
          case ReadFails =>
            if status == Reading && inHand.None? {
              status := FailedToRead;
            }
          case Send =>
            if status == Reading && inHand.Some? {
              TrySend();
            }
          case Receive =>
            if !receiverDropped && buffer != [] {
              received, buffer := received + [buffer[0]], buffer[1..];
            }
          case DropReceiver => receiverDropped := true;
        }
        i := i + 1;
      }
      assert run[..|run|] == run;
    }
  }

  // ---------------------------------------------------------------- what is delivered

  predicate AllParse(parse: Parser, lines: seq<string>) {
    forall line :: line in lines ==> parse(line).Some?
  }

  function Parsed(parse: Parser, lines: seq<string>): seq<Metrics>
    requires AllParse(parse, lines)
  {
    seq(|lines|, i requires 0 <= i < |lines| => parse(lines[i]).value)
  }

  function InHand(s: State): seq<Metrics> {
    if s.inHand.None? then [] else [s.inHand.value]
  }

  /** Everything that has left the file, in order. */
  function Delivered(s: State): seq<Metrics> {
    s.received + s.buffer + InHand(s)
  }

  /** The lines before the position of the reader have been parsed, and their entries are on their way in order. */
  ghost predicate Pumped(s: State, parse: Parser, bound: nat) {
    && Whole(s.passed) && Whole(s.rest)
    && AllParse(parse, Lines(s.passed))
    && Delivered(s) == Parsed(parse, Lines(s.passed))
    && |s.buffer| <= bound
    && (s.status == FailedToParse ==> Lines(s.rest) != [] && parse(Lines(s.rest)[0]).None?)
  }

  lemma AppendKeeps(s: State, text: string, parse: Parser, bound: nat)
    requires Pumped(s, parse, bound) && Whole(text)
    ensures Pumped(Step(s, Append(text), parse, bound), parse, bound)
  {
    LinesOfConcat(s.rest, text);
  }

  lemma ParsedOneMore(parse: Parser, before: seq<string>, line: string)
    requires AllParse(parse, before) && parse(line).Some?
    ensures AllParse(parse, before + [line])
    ensures Parsed(parse, before + [line]) == Parsed(parse, before) + [parse(line).value]
  {
  }

  lemma PassedOneMore(passed: string, rest: string)
    requires Whole(passed) && Whole(rest) && rest != ""
    ensures var (line, n) := NextLine(rest).value;
            && Whole(passed + rest[..n]) && Whole(rest[n..])
            && Lines(passed + rest[..n]) == Lines(passed) + [line]
  {
    NextLineIsFirst(rest);
    LinesOfConcat(passed, rest[..NextLine(rest).value.1]);
  }

  lemma ReadKeeps(s: State, parse: Parser, bound: nat)
    requires Pumped(s, parse, bound)
    ensures Pumped(Step(s, ReadLine, parse, bound), parse, bound)
  {
    if s.status == Reading && s.inHand.None? && s.rest != "" {
      NextLineIsFirst(s.rest);
      var (line, n) := NextLine(s.rest).value;
      if parse(line).Some? {
        PassedOneMore(s.passed, s.rest);
        ParsedOneMore(parse, Lines(s.passed), line);
      }
    }
  }

  /** Handing an entry on, or failing to, leaves the file and the order of the entries alone. */
  lemma HandingOnKeepsOrder(s: State, a: Action, parse: Parser, bound: nat)
    requires !a.Append? && !a.ReadLine? && |s.buffer| <= bound
    ensures var t := Step(s, a, parse, bound);
            && t.passed == s.passed && t.rest == s.rest && Delivered(t) == Delivered(s) && |t.buffer| <= bound
            && (t.status == FailedToParse ==> s.status == FailedToParse)
  {
  }

  lemma StepKeeps(s: State, a: Action, parse: Parser, bound: nat)
    requires Pumped(s, parse, bound) && (a.Append? ==> Whole(a.text))
    ensures Pumped(Step(s, a, parse, bound), parse, bound)
  {
    match a
    case Append(text) => AppendKeeps(s, text, parse, bound);
    case ReadLine => ReadKeeps(s, parse, bound);
    case _ => HandingOnKeepsOrder(s, a, parse, bound);
  }

  ghost predicate WritesWholeLines(run: seq<Action>) {
    forall i :: 0 <= i < |run| && run[i].Append? ==> Whole(run[i].text)
  }

  lemma {:induction false} RunKeepsPumped(file: string, run: seq<Action>, parse: Parser, bound: nat)
    requires Whole(file) && WritesWholeLines(run)
    ensures Pumped(After(file, run, parse, bound), parse, bound)
  {
    if run == [] {
    } else {
      RunKeepsPumped(file, run[..|run| - 1], parse, bound);
      StepKeeps(After(file, run[..|run| - 1], parse, bound), run[|run| - 1], parse, bound);
    }
  }

  function File(s: State): string {
    s.passed + s.rest
  }

  /**
   * In every interleaving: what was received, is buffered and is in hand is together the parse of a prefix of the
   * lines of the file, in order; the buffer keeps its bound; no line from the first unparsable one on is in it.
   */
  lemma PumpDeliversAPrefix(file: string, run: seq<Action>, parse: Parser, bound: nat) returns (n: nat)
    requires Whole(file) && WritesWholeLines(run)
    ensures var s := After(file, run, parse, bound); var lines := Lines(File(s));
            && n <= |lines|
            && AllParse(parse, lines[..n])
            && Delivered(s) == Parsed(parse, lines[..n])
            && |s.buffer| <= bound
            && (s.status == FailedToParse ==> n < |lines| && parse(lines[n]).None?)
            && (forall k :: 0 <= k < |lines| && parse(lines[k]).None? ==> n <= k)
  {
    var s := After(file, run, parse, bound);
    RunKeepsPumped(file, run, parse, bound);
    LinesOfConcat(s.passed, s.rest);
    n := |Lines(s.passed)|;
    assert Lines(File(s))[..n] == Lines(s.passed);
    assert forall k :: 0 <= k < n ==> Lines(File(s))[k] in Lines(s.passed);
  }

  /** The file holds what it held and what was written; no step of the task loses any of it. */
  lemma {:induction false} FileGrowsByWrites(file: string, run: seq<Action>, parse: Parser, bound: nat)
    ensures File(After(file, run, parse, bound)) == file + Written(run)
  {
    if run == [] {
    } else {
      FileGrowsByWrites(file, run[..|run| - 1], parse, bound);
      StepKeepsFile(After(file, run[..|run| - 1], parse, bound), run[|run| - 1], parse, bound);
    }
  }

  function Written(run: seq<Action>): string {
    if run == [] then ""
    else
      var last := run[|run| - 1];
      Written(run[..|run| - 1]) + if last.Append? then last.text else ""
  }

  lemma StepKeepsFile(s: State, a: Action, parse: Parser, bound: nat)
    ensures File(Step(s, a, parse, bound)) == File(s) + if a.Append? then a.text else ""
  {
  }

  /** Once the reader is at the end and nothing is on its way, the consumer has everything. */
  lemma AtRestAllIsReceived(file: string, run: seq<Action>, parse: Parser, bound: nat)
    requires Whole(file) && WritesWholeLines(run)
    requires var s := After(file, run, parse, bound); s.rest == "" && s.buffer == [] && s.inHand.None?
    ensures var lines := Lines(file + Written(run));
            AllParse(parse, lines) && After(file, run, parse, bound).received == Parsed(parse, lines)
  {
    var s := After(file, run, parse, bound);
    RunKeepsPumped(file, run, parse, bound);
    FileGrowsByWrites(file, run, parse, bound);
    assert File(s) == s.passed && Delivered(s) == s.received;
  }

  /** Whole lines are needed: reading a line before it is finished ends the task, even if the finished line parses. */
  lemma HalfALineEndsTheTask(a: string, parse: Parser, bound: nat)
    requires a != "" && NEWLINE !in a && parse(a).None?
    ensures After("", [Append(a), ReadLine], parse, bound).status == FailedToParse
  {
    var run := [Append(a), ReadLine];
    assert run[..1] == [Append(a)] && run[..1][..0] == [] && "" + a == a;
    assert After("", run[..1], parse, bound) == Initial("").(rest := a);
  }

  // ---------------------------------------------------------------- lines as the writer means them

  /** Lines as they are written, each with the same line end. */
  function Printed(lines: seq<string>, end: string): string {
    if lines == [] then "" else lines[0] + end + Printed(lines[1..], end)
  }

  /** The text can be a line: there is no newline in it, nor a return where only the newline follows. */
  predicate IsLine(line: string, end: string) {
    && NEWLINE !in line
    && (end == "\r\n" || (end == "\n" && (line == "" || line[|line| - 1] != '\r')))
  }

  lemma {:induction false} NewlineBehind(line: string, rest: string)
    requires NEWLINE !in line
    ensures IndexOfNewline(line + [NEWLINE] + rest) == |line|
  {
    if line == "" {
    } else {
      assert (line + [NEWLINE] + rest)[1..] == line[1..] + [NEWLINE] + rest;
      NewlineBehind(line[1..], rest);
    }
  }

  lemma LineReadsBack(line: string, end: string)
    requires IsLine(line, end)
    ensures Whole(line + end) && Lines(line + end) == [line]
  {
    var body := if end == "\n" then line else line + "\r";
    assert line + end == body + [NEWLINE] + "" == body + [NEWLINE];
    NewlineBehind(body, "");
    OneLine(line + end);
    assert (line + end)[..|body|] == body;
    assert end == "\r\n" ==> body[..|body| - 1] == line;
  }

  /** What was written line by line is read as these lines, with either line end. */
  lemma {:induction false} PrintedLinesReadBack(lines: seq<string>, end: string)
    requires forall line :: line in lines ==> IsLine(line, end)
    ensures Whole(Printed(lines, end)) && Lines(Printed(lines, end)) == lines
  {
    if lines == [] {
    } else {
      var first, rest := lines[0] + end, Printed(lines[1..], end);
      LineReadsBack(lines[0], end);
      PrintedLinesReadBack(lines[1..], end);
      LinesOfConcat(first, rest);
      assert rest == "" ==> first + rest == first;
      assert lines == [lines[0]] + lines[1..];
    }
  }

  // ---------------------------------------------------------------- what can still happen

  /** A task that has ended stays as it ended, with the entry it may have in hand. */
  lemma EndedStaysEnded(s: State, a: Action, parse: Parser, bound: nat)
    requires s.status != Reading
    ensures var t := Step(s, a, parse, bound);
            t.status == s.status && t.passed == s.passed && t.inHand == s.inHand
  {
  }

  /** Handing an entry to a dropped receiver ends the task. */
  lemma DroppedReceiverEndsTheTask(s: State, parse: Parser, bound: nat)
    requires s.status == Reading && s.inHand.Some? && s.receiverDropped
    ensures Step(s, Send, parse, bound).status == FailedToSend
  {
  }

  function Steps(s: State, run: seq<Action>, parse: Parser, bound: nat): State
    decreases |run|
  {
    if run == [] then s else Step(Steps(s, run[..|run| - 1], parse, bound), run[|run| - 1], parse, bound)
  }

  lemma {:induction false} StepsConcat(s: State, a: seq<Action>, b: seq<Action>, parse: Parser, bound: nat)
    ensures Steps(s, a + b, parse, bound) == Steps(Steps(s, a, parse, bound), b, parse, bound)
    decreases |b|
  {
    if b == [] {
      assert a + b == a;
    } else {
      var n := |b| - 1;
      assert (a + b)[..|a + b| - 1] == a + b[..n];
      StepsConcat(s, a, b[..n], parse, bound);
    }
  }

  lemma {:induction false} AfterIsSteps(file: string, run: seq<Action>, parse: Parser, bound: nat)
    ensures After(file, run, parse, bound) == Steps(Initial(file), run, parse, bound)
    decreases |run|
  {
    if run == [] {
    } else {
      AfterIsSteps(file, run[..|run| - 1], parse, bound);
    }
  }

  /** Steps of the task and the consumer that neither write nor fail. */
  ghost predicate Working(run: seq<Action>) {
    forall a :: a in run ==> a.ReadLine? || a.Send? || a.Receive?
  }

  lemma OneStep(s: State, a: Action, parse: Parser, bound: nat)
    ensures Steps(s, [a], parse, bound) == Step(s, a, parse, bound)
  {
    assert [a][..0] == [];
  }

  /** One step and then more. */
  lemma StepThen(s: State, a: Action, run: seq<Action>, parse: Parser, bound: nat)
    requires Working(run) && (a.ReadLine? || a.Send? || a.Receive?)
    ensures Working([a] + run)
    ensures Steps(s, [a] + run, parse, bound) == Steps(Step(s, a, parse, bound), run, parse, bound)
  {
    OneStep(s, a, parse, bound);
    StepsConcat(s, [a], run, parse, bound);
  }

  /** The task is at work, its receiver is there, and what is left of the file parses. */
  ghost predicate CanGoOn(s: State, parse: Parser, bound: nat) {
    && Pumped(s, parse, bound) && bound > 0
    && s.status == Reading && !s.receiverDropped && AllParse(parse, Lines(s.rest))
  }

  /** All has been read and received. */
  predicate IsAtRest(s: State) {
    s.rest == "" && s.buffer == [] && s.inHand.None?
  }

  /** The consumer can empty the buffer, the entry in hand can follow, and then the next line can be read. */
  lemma {:induction false} CanComeToRest(s: State, parse: Parser, bound: nat) returns (run: seq<Action>)
    requires CanGoOn(s, parse, bound)
    ensures Working(run) && IsAtRest(Steps(s, run, parse, bound))
    decreases |s.rest|, if s.inHand.Some? then 1 else 0, |s.buffer|
  {
    if IsAtRest(s) {
      run := [];
    } else {
      var a := if s.buffer != [] then Receive else if s.inHand.Some? then Send else ReadLine;
      var t := Step(s, a, parse, bound);
      StepKeeps(s, a, parse, bound);
      if a.ReadLine? {
        ReadingGoesOn(s, parse, bound);
      }
      var rest := CanComeToRest(t, parse, bound);
      StepThen(s, a, rest, parse, bound);
      run := [a] + rest;
    }
  }

  lemma ReadingGoesOn(s: State, parse: Parser, bound: nat)
    requires CanGoOn(s, parse, bound) && s.inHand.None? && s.rest != ""
    ensures var t := Step(s, ReadLine, parse, bound);
            t.status == Reading && |t.rest| < |s.rest| && AllParse(parse, Lines(t.rest))
  {
    var (line, n) := NextLine(s.rest).value;
    FirstOfMany(s.rest, parse);
    assert Step(s, ReadLine, parse, bound).rest == s.rest[n..];
  }

  /** Behind the first line there is less, and it parses if all does. */
  lemma FirstOfMany(rest: string, parse: Parser)
    requires Whole(rest) && rest != "" && AllParse(parse, Lines(rest))
    ensures NextLine(rest).Some? && parse(NextLine(rest).value.0).Some?
    ensures |rest[NextLine(rest).value.1..]| < |rest| && AllParse(parse, Lines(rest[NextLine(rest).value.1..]))
  {
    var n := NextLine(rest).value.1;
    NextLineIsFirst(rest);
    CutLines(rest, n);
    AllParseParts(parse, Lines(rest[..n]), Lines(rest[n..]));
    assert n > 0;
  }

  lemma CutLines(text: string, n: nat)
    requires n <= |text| && Whole(text[..n])
    ensures Lines(text) == Lines(text[..n]) + Lines(text[n..])
  {
    LinesOfConcat(text[..n], text[n..]);
    assert text[..n] + text[n..] == text;
  }

  lemma AllParseParts(parse: Parser, a: seq<string>, b: seq<string>)
    requires AllParse(parse, a + b)
    ensures AllParse(parse, a) && AllParse(parse, b)
  {
    assert forall line :: line in a || line in b ==> line in a + b;
  }

  /**
   * As long as the task reads and somebody listens, nothing is stuck: with no more than reading, sending and receiving
   * the consumer can come to have the entries of everything that was written.
   */
  lemma ConsumerCanCatchUp(file: string, run: seq<Action>, parse: Parser, bound: nat) returns (more: seq<Action>)
    requires Whole(file) && WritesWholeLines(run) && bound > 0
    requires var s := After(file, run, parse, bound); s.status == Reading && !s.receiverDropped
    requires AllParse(parse, Lines(file + Written(run)))
    ensures Working(more)
    ensures After(file, run + more, parse, bound).received == Parsed(parse, Lines(file + Written(run)))
  {
    GoesOnAfter(file, run, parse, bound);
    more := CanComeToRest(After(file, run, parse, bound), parse, bound);
    AfterLongerRun(file, run, more, parse, bound);
    WorkingWritesNothing(run, more);
    AtRestAllIsReceived(file, run + more, parse, bound);
  }

  lemma GoesOnAfter(file: string, run: seq<Action>, parse: Parser, bound: nat)
    requires Whole(file) && WritesWholeLines(run) && bound > 0
    requires var s := After(file, run, parse, bound); s.status == Reading && !s.receiverDropped
    requires AllParse(parse, Lines(file + Written(run)))
    ensures CanGoOn(After(file, run, parse, bound), parse, bound)
  {
    var s := After(file, run, parse, bound);
    RunKeepsPumped(file, run, parse, bound);
    FileGrowsByWrites(file, run, parse, bound);
    LinesOfConcat(s.passed, s.rest);
    forall line | line in Lines(s.rest)
      ensures parse(line).Some?
    {
      assert line in Lines(s.passed) + Lines(s.rest);
    }
  }

  lemma AfterLongerRun(file: string, run: seq<Action>, more: seq<Action>, parse: Parser, bound: nat)
    ensures After(file, run + more, parse, bound) == Steps(After(file, run, parse, bound), more, parse, bound)
  {
    AfterIsSteps(file, run, parse, bound);
    AfterIsSteps(file, run + more, parse, bound);
    StepsConcat(Initial(file), run, more, parse, bound);
  }

  lemma {:induction false} WorkingWritesNothing(run: seq<Action>, more: seq<Action>)
    requires Working(more)
    ensures Written(run + more) == Written(run)
    ensures WritesWholeLines(run) ==> WritesWholeLines(run + more)
    decreases |more|
  {
    if more == [] {
      assert run + more == run;
    } else {
      var n := |more| - 1;
      assert (run + more)[..|run + more| - 1] == run + more[..n];
      assert more[n] in more;
      WorkingWritesNothing(run, more[..n]);
    }
  }
}
