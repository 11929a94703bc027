/**
 Printing an option map as one string and reading it back.  The printer walks a hash map, so the order of the options
 is arbitrary; the reader is the receiving program: it gets the pieces between single spaces and knows which options
 take a value.
 */
module CommandLine {
  import opened Wrappers

  /** The options of the two binaries. */
  datatype Opt =
    | NoApi | ApiSock | ConfigFile | Level | LogPath | ShowLogOrigin | Module | ShowLevel | BootTimer
    | HttpApiMaxPayloadSize | Metadata | MetricsPath | MmdsSizeLimit | NoSeccomp | SeccompFilter
    | ExecFile | Uid | Gid | Id | Cgroup | CgroupVersion | ChrootBaseDir | Daemonize | Netns | NewPidNs
    | ParentCgroup | ResourceLimit
  {
    function Name(): string {
      match this
      case NoApi => "no-api"
      case ApiSock => "api-sock"
      case ConfigFile => "config-file"
      case Level => "level"
      case LogPath => "log-path"
      case ShowLogOrigin => "show-log-origin"
      case Module => "module"
      case ShowLevel => "show-level"
      case BootTimer => "boot-timer"
      case HttpApiMaxPayloadSize => "http-api-max-payload-size"
      case Metadata => "metadata"
      case MetricsPath => "metrics-path"
      case MmdsSizeLimit => "mmds-size-limit"
      case NoSeccomp => "no-seccomp"
      case SeccompFilter => "seccomp-filter"
      case ExecFile => "exec-file"
      case Uid => "uid"
      case Gid => "gid"
      case Id => "id"
      case Cgroup => "cgroup"
      case CgroupVersion => "cgroup-version"
      case ChrootBaseDir => "chroot-base-dir"
      case Daemonize => "daemonize"
      case Netns => "netns"
      case NewPidNs => "new-pid-ns"
      case ParentCgroup => "parent-cgroup"
      case ResourceLimit => "resource-limit"
    }

    /** Options that stand alone. */
    predicate Flag() {
      match this
      case NoApi | ShowLogOrigin | ShowLevel | BootTimer | NoSeccomp | Daemonize | NewPidNs => true
      case _ => false
    }

    /** Options of the VMM's own line; the others belong to the jailer's. */
    predicate ForVmm() {
      match this
      case ExecFile | Uid | Gid | Id | Cgroup | CgroupVersion | ChrootBaseDir | Daemonize | Netns | NewPidNs
        | ParentCgroup | ResourceLimit => false
      case _ => true
    }

    function Token(): string {
      "--" + Name()
    }
  }

  datatype ArgValue =
    | Bare
    | Borrowed(text: string)
    | One(text: string)
    | Many(texts: seq<string>)

  // ---------------------------------------------------------------- splitting

  const SPACE := ' '

  predicate SpaceFree(s: string) {
    SPACE !in s
  }

  predicate AllSpaceFree(tokens: seq<string>) {
    forall t :: t in tokens ==> SpaceFree(t)
  }

  /** `str::split(' ')`: one piece more than there are spaces. */
  function Split(s: string): (r: seq<string>)
    ensures r != [] && AllSpaceFree(r)
  {
    SplitFrom(s, "")
  }

  /** `piece` is what has been read of the current piece. */
  function SplitFrom(s: string, piece: string): (r: seq<string>)
    requires SpaceFree(piece)
    ensures r != [] && AllSpaceFree(r)
  {
    if s == "" then [piece]
    else if s[0] == SPACE then [piece] + SplitFrom(s[1..], "")
    else SplitFrom(s[1..], piece + [s[0]])
  }

  /** The tokens with one space between neighbours. */
  function Joined(tokens: seq<string>): string {
    if tokens == [] then ""
    else if |tokens| == 1 then tokens[0]
    else tokens[0] + [SPACE] + Joined(tokens[1..])
  }

  lemma {:induction false} SplitFromPrefix(a: string, rest: string, piece: string)
    requires SpaceFree(piece) && SpaceFree(a)
    ensures SpaceFree(piece + a)
    ensures SplitFrom(a + rest, piece) == SplitFrom(rest, piece + a)
  {
    if a == "" {
      assert a + rest == rest && piece + a == piece;
    } else {
      assert a[0] in a;
      assert (a + rest)[1..] == a[1..] + rest;
      assert piece + [a[0]] + a[1..] == piece + a;
      SplitFromPrefix(a[1..], rest, piece + [a[0]]);
    }
  }

  lemma {:induction false} SplitOfJoined(tokens: seq<string>)
    requires tokens != [] && AllSpaceFree(tokens)
    ensures Split(Joined(tokens)) == tokens
  {
    var t := tokens[0];
    assert SpaceFree(t) && "" + t == t;
    if |tokens| == 1 {
      SplitFromPrefix(t, "", "");
      assert t + "" == t;
    } else {
      var rest := [SPACE] + Joined(tokens[1..]);
      assert Joined(tokens) == t + rest;
      SplitFromPrefix(t, rest, "");
      assert rest[1..] == Joined(tokens[1..]);
      SplitOfJoined(tokens[1..]);
      assert tokens == [t] + tokens[1..];
    }
  }

  /** A command line reads back as its tokens exactly when none of them contains a space. */
  lemma SplitRecoversIff(tokens: seq<string>)
    requires tokens != []
    ensures Split(Joined(tokens)) == tokens <==> AllSpaceFree(tokens)
  {
    if AllSpaceFree(tokens) {
      SplitOfJoined(tokens);
    }
  }

  lemma {:induction false} JoinedOfConcat(a: seq<string>, b: seq<string>)
    requires a != [] && b != []
    ensures Joined(a + b) == Joined(a) + [SPACE] + Joined(b)
  {
    if |a| == 1 {
      assert (a + b)[1..] == b;
    } else {
      assert (a + b)[1..] == a[1..] + b;
      JoinedOfConcat(a[1..], b);
    }
  }

  lemma AllSpaceFreeOfConcat(a: seq<string>, b: seq<string>)
    requires AllSpaceFree(a) && AllSpaceFree(b)
    ensures AllSpaceFree(a + b)
  {
  }

  /** Words in front of a list of tokens. */
  lemma SplitWithPrefix(a: seq<string>, b: seq<string>)
    requires a != [] && b != [] && AllSpaceFree(a) && AllSpaceFree(b)
    ensures Split(Joined(a) + [SPACE] + Joined(b)) == a + b
  {
    AllSpaceFreeOfConcat(a, b);
    JoinedOfConcat(a, b);
    SplitOfJoined(a + b);
  }

  // ---------------------------------------------------------------- printing

  /** The tokens one entry of the map becomes; an empty list of values leaves an empty piece. */
  function EntryTokens(key: Opt, value: ArgValue): (r: seq<string>)
    ensures r != []
  {
    match value
    case Bare => [key.Token()]
    case Borrowed(text) => [key.Token(), text]
    case One(text) => [key.Token(), text]
    case Many(texts) => if texts == [] then [""] else RepeatedTokens(key, texts)
  }

  function RepeatedTokens(key: Opt, texts: seq<string>): (r: seq<string>)
    ensures |r| == 2 * |texts|
  {
    if texts == [] then [] else [key.Token(), texts[0]] + RepeatedTokens(key, texts[1..])
  }

  function Tokens(order: seq<Opt>, args: map<Opt, ArgValue>): (r: seq<string>)
    requires forall k :: k in order ==> k in args
    ensures order != [] ==> r != []
  {
    if order == [] then [] else EntryTokens(order[0], args[order[0]]) + Tokens(order[1..], args)
  }

  /** `order` lists the keys of the map, each once: one of the orders a hash map may be walked in. */
  ghost predicate Enumerates(order: seq<Opt>, args: map<Opt, ArgValue>) {
    && (forall k :: k in order <==> k in args)
    && (forall i, j :: 0 <= i < j < |order| ==> order[i] != order[j])
  }

  /** The values of a repeated option, each behind its own key. */
  method JoinRepeated(key: Opt, texts: seq<string>) returns (piece: string)
    ensures piece == Joined(RepeatedTokens(key, texts))
  {
    piece := "";
    var i := |texts|;
    while i > 0
      invariant 0 <= i <= |texts|
      invariant piece == Joined(RepeatedTokens(key, texts[i..]))
    {
      i := i - 1;
      assert texts[i..][1..] == texts[i + 1..];
      var entry := key.Token() + [SPACE] + texts[i];
      assert entry == Joined([key.Token(), texts[i]]);
      if i + 1 < |texts| {
        JoinedOfConcat([key.Token(), texts[i]], RepeatedTokens(key, texts[i + 1..]));
        piece := entry + [SPACE] + piece;
      } else {
        assert RepeatedTokens(key, texts[i..]) == [key.Token(), texts[i]];
        piece := entry;
      }
    }
    assert texts[0..] == texts;
  }

  method JoinEntry(key: Opt, value: ArgValue) returns (piece: string)
    ensures piece == Joined(EntryTokens(key, value))
  {
    match value {
      case Bare => piece := key.Token();
      case Borrowed(text) => piece := key.Token() + [SPACE] + text;
      case One(text) => piece := key.Token() + [SPACE] + text;
      case Many(texts) => piece := JoinRepeated(key, texts);
    }
  }

  /** `join_args`: every entry followed by a space, and the last space popped. */
  method JoinArgs(args: map<Opt, ArgValue>) returns (output: string)
    ensures exists order :: Enumerates(order, args) && output == Joined(Tokens(order, args))
  {
    output := "";
    var left := args.Keys;
    ghost var order: seq<Opt> := [];
    while left != {}
      invariant left <= args.Keys
      invariant forall k :: k in order <==> k in args && k !in left
      invariant forall i, j :: 0 <= i < j < |order| ==> order[i] != order[j]
      invariant output == if order == [] then "" else Joined(Tokens(order, args)) + [SPACE]
      decreases |left|
    {
      var key :| key in left;
      var piece := JoinEntry(key, args[key]);
      TokensOfSnoc(order, key, args);
      if order == [] {
        assert Tokens(order, args) + EntryTokens(key, args[key]) == EntryTokens(key, args[key]);
      } else {
        JoinedOfConcat(Tokens(order, args), EntryTokens(key, args[key]));
      }
      output := output + piece + [SPACE];
      order := order + [key];
      left := left - {key};
    }
    assert Enumerates(order, args);
    if output != "" {
      output := output[..|output| - 1];
    }
  }

  lemma {:induction false} TokensOfSnoc(order: seq<Opt>, key: Opt, args: map<Opt, ArgValue>)
    requires key in args && forall k :: k in order ==> k in args
    ensures forall k :: k in order + [key] ==> k in args
    ensures Tokens(order + [key], args) == Tokens(order, args) + EntryTokens(key, args[key])
  {
    if order == [] {
      assert [key][1..] == [];
    } else {
      assert (order + [key])[1..] == order[1..] + [key];
      TokensOfSnoc(order[1..], key, args);
    }
  }

  // ---------------------------------------------------------------- reading

  /** What a reader has gathered: for every option seen, the values it was given. */
  type Reading = map<Opt, multiset<string>>

  ghost function Gather(r: Reading, key: Opt, values: multiset<string>): Reading {
    r[key := (if key in r then r[key] else multiset{}) + values]
  }

  function ByName(name: string): Option<Opt> {
    match |name|
    case 2 => (if name == "id" then Some(Id) else None)
    case 3 =>
      (if name == "uid" then Some(Uid)
       else if name == "gid" then Some(Gid)
       else None)
    case 5 =>
      (if name == "level" then Some(Level)
       else if name == "netns" then Some(Netns)
       else None)
    case 6 =>
      (if name == "no-api" then Some(NoApi)
       else if name == "module" then Some(Module)
       else if name == "cgroup" then Some(Cgroup)
       else None)
    case 8 =>
      (if name == "api-sock" then Some(ApiSock)
       else if name == "log-path" then Some(LogPath)
       else if name == "metadata" then Some(Metadata)
       else None)
    case 9 =>
      (if name == "exec-file" then Some(ExecFile)
       else if name == "daemonize" then Some(Daemonize)
       else None)
    case 10 =>
      (if name == "show-level" then Some(ShowLevel)
       else if name == "boot-timer" then Some(BootTimer)
       else if name == "no-seccomp" then Some(NoSeccomp)
       else if name == "new-pid-ns" then Some(NewPidNs)
       else None)
    case 11 => (if name == "config-file" then Some(ConfigFile) else None)
    case 12 => (if name == "metrics-path" then Some(MetricsPath) else None)
    case 13 => (if name == "parent-cgroup" then Some(ParentCgroup) else None)
    case 14 =>
      (if name == "seccomp-filter" then Some(SeccompFilter)
       else if name == "cgroup-version" then Some(CgroupVersion)
       else if name == "resource-limit" then Some(ResourceLimit)
       else None)
    case 15 =>
      (if name == "show-log-origin" then Some(ShowLogOrigin)
       else if name == "mmds-size-limit" then Some(MmdsSizeLimit)
       else if name == "chroot-base-dir" then Some(ChrootBaseDir)
       else None)
    case 25 => (if name == "http-api-max-payload-size" then Some(HttpApiMaxPayloadSize) else None)
    case _ => None
  }

  /** The option a token names, if it names one. */
  function Named(token: string): Option<Opt> {
    if |token| > 2 && token[..2] == "--" then ByName(token[2..]) else None
  }

  lemma ByNameOfNameOfVmm(key: Opt)
    requires key.ForVmm()
    ensures ByName(key.Name()) == Some(key)
  {
    match key
    case NoApi =>
    case ApiSock =>
    case ConfigFile =>
    case Level =>
    case LogPath =>
    case ShowLogOrigin =>
    case Module =>
    case ShowLevel =>
    case BootTimer =>
    case HttpApiMaxPayloadSize =>
    case Metadata =>
    case MetricsPath =>
    case MmdsSizeLimit =>
    case NoSeccomp =>
    case SeccompFilter =>
  }

  lemma ByNameOfNameOfJailer(key: Opt)
    requires !key.ForVmm()
    ensures ByName(key.Name()) == Some(key)
  {
    match key
    case ExecFile =>
    case Uid =>
    case Gid =>
    case Id =>
    case Cgroup =>
    case CgroupVersion =>
    case ChrootBaseDir =>
    case Daemonize =>
    case Netns =>
    case NewPidNs =>
    case ParentCgroup =>
    case ResourceLimit =>
  }

  lemma ByNameOfName(key: Opt)
    ensures ByName(key.Name()) == Some(key)
  {
    if key.ForVmm() {
      ByNameOfNameOfVmm(key);
    } else {
      ByNameOfNameOfJailer(key);
    }
  }

  lemma NamedOfToken(key: Opt)
    ensures Named(key.Token()) == Some(key)
  {
    assert key.Name() != "";
    assert key.Token()[..2] == "--" && key.Token()[2..] == key.Name();
    ByNameOfName(key);
  }

  /** Left to right: a flag stands alone, any other option takes the next token whatever it looks like. */
  ghost function Parse(tokens: seq<string>): Option<Reading> {
    if tokens == [] then Some(map[])
    else
      match Named(tokens[0])
      case None => None
      case Some(key) =>
        if key.Flag() then Gathered(key, multiset{}, Parse(tokens[1..]))
        else if |tokens| == 1 then None
        else Gathered(key, multiset{tokens[1]}, Parse(tokens[2..]))
  }

  ghost function Gathered(key: Opt, values: multiset<string>, rest: Option<Reading>): Option<Reading> {
    match rest
    case None => None
    case Some(r) => Some(Gather(r, key, values))
  }

  /** What an entry of the printed map means to the reader. */
  function Values(value: ArgValue): multiset<string> {
    match value
    case Bare => multiset{}
    case Borrowed(text) => multiset{text}
    case One(text) => multiset{text}
    case Many(texts) => multiset(texts)
  }

  ghost function Meaning(args: map<Opt, ArgValue>): Reading {
    map k | k in args :: Values(args[k])
  }

  /** Flags have no value, the other options have one or a non-empty list. */
  predicate Conforms(args: map<Opt, ArgValue>) {
    forall k :: k in args ==> (if k.Flag() then args[k].Bare? else !args[k].Bare?) && args[k] != Many([])
  }

  function ValueTexts(value: ArgValue): seq<string> {
    match value
    case Bare => []
    case Borrowed(text) => [text]
    case One(text) => [text]
    case Many(texts) => texts
  }

  ghost predicate ValuesSpaceFree(args: map<Opt, ArgValue>) {
    forall k, v :: k in args && v in ValueTexts(args[k]) ==> SpaceFree(v)
  }

  ghost predicate ValuesNonEmpty(args: map<Opt, ArgValue>) {
    forall k, v :: k in args && v in ValueTexts(args[k]) ==> v != ""
  }

  lemma ParsePair(key: Opt, text: string, rest: seq<string>, r: Reading)
    requires !key.Flag() && Parse(rest) == Some(r)
    ensures Parse([key.Token(), text] + rest) == Some(Gather(r, key, multiset{text}))
  {
    NamedOfToken(key);
    assert ([key.Token(), text] + rest)[2..] == rest;
  }

  lemma GatherTwice(r: Reading, key: Opt, a: multiset<string>, b: multiset<string>)
    ensures Gather(Gather(r, key, a), key, b) == Gather(r, key, b + a)
  {
    var before := if key in r then r[key] else multiset{};
    assert (before + a) + b == before + (b + a);
  }

  lemma {:induction false} ParseRepeated(key: Opt, texts: seq<string>, rest: seq<string>, r: Reading)
    requires !key.Flag() && texts != [] && Parse(rest) == Some(r)
    ensures Parse(RepeatedTokens(key, texts) + rest) == Some(Gather(r, key, multiset(texts)))
  {
    MultisetOfCons(texts);
    RepeatedTokensUnfold(key, texts, rest);
    if |texts| == 1 {
      ParsePair(key, texts[0], rest, r);
    } else {
      ParseRepeated(key, texts[1..], rest, r);
      ParsePair(key, texts[0], RepeatedTokens(key, texts[1..]) + rest, Gather(r, key, multiset(texts[1..])));
      GatherTwice(r, key, multiset(texts[1..]), multiset{texts[0]});
    }
  }

  lemma RepeatedTokensUnfold(key: Opt, texts: seq<string>, rest: seq<string>)
    requires texts != []
    ensures RepeatedTokens(key, texts) + rest
            == [key.Token(), texts[0]] + (RepeatedTokens(key, texts[1..]) + rest)
    ensures |texts| == 1 ==> RepeatedTokens(key, texts[1..]) + rest == rest
  {
    ConcatAssociates([key.Token(), texts[0]], RepeatedTokens(key, texts[1..]), rest);
    if |texts| == 1 {
      assert texts[1..] == [];
    }
  }

  lemma ConcatAssociates<T>(a: seq<T>, b: seq<T>, c: seq<T>)
    ensures (a + b) + c == a + (b + c)
  {
  }

  lemma MultisetOfCons(texts: seq<string>)
    requires texts != []
    ensures multiset(texts) == multiset{texts[0]} + multiset(texts[1..])
    ensures |texts| == 1 ==> multiset(texts) == multiset{texts[0]}
  {
    assert texts == [texts[0]] + texts[1..];
  }

  lemma ParseEntry(key: Opt, value: ArgValue, rest: seq<string>, r: Reading)
    requires if key.Flag() then value.Bare? else !value.Bare?
    requires value != Many([]) && Parse(rest) == Some(r)
    ensures Parse(EntryTokens(key, value) + rest) == Some(Gather(r, key, Values(value)))
  {
    NamedOfToken(key);
    var tokens := EntryTokens(key, value) + rest;
    match value {
      case Bare => assert tokens[1..] == rest;
      case Borrowed(text) => assert tokens[2..] == rest;
      case One(text) => assert tokens[2..] == rest;
      case Many(texts) => ParseRepeated(key, texts, rest, r);
    }
  }

  ghost function MeaningOf(order: seq<Opt>, args: map<Opt, ArgValue>): Reading
    requires forall k :: k in order ==> k in args
  {
    map k | k in order :: Values(args[k])
  }

  lemma MeaningOfCons(key: Opt, order: seq<Opt>, args: map<Opt, ArgValue>)
    requires key in args && key !in order && forall k :: k in order ==> k in args
    ensures Gather(MeaningOf(order, args), key, Values(args[key])) == MeaningOf([key] + order, args)
  {
    assert multiset{} + Values(args[key]) == Values(args[key]);
  }

  lemma {:induction false} ParseOfTokens(order: seq<Opt>, args: map<Opt, ArgValue>)
    requires Conforms(args)
    requires forall k :: k in order ==> k in args
    requires forall i, j :: 0 <= i < j < |order| ==> order[i] != order[j]
    ensures Parse(Tokens(order, args)) == Some(MeaningOf(order, args))
  {
    if order == [] {
    } else {
      var key, rest := order[0], order[1..];
      ParseOfTokens(rest, args);
      ParseEntry(key, args[key], Tokens(rest, args), MeaningOf(rest, args));
      assert key !in rest;
      MeaningOfCons(key, rest, args);
      assert [key] + rest == order;
    }
  }

  lemma NameHasNoSpaceOfVmm(key: Opt)
    requires key.ForVmm()
    ensures SpaceFree(key.Name()) && key.Name() != ""
  {
    match key
    case NoApi =>
    case ApiSock =>
    case ConfigFile =>
    case Level =>
    case LogPath =>
    case ShowLogOrigin =>
    case Module =>
    case ShowLevel =>
    case BootTimer =>
    case HttpApiMaxPayloadSize =>
    case Metadata =>
    case MetricsPath =>
    case MmdsSizeLimit =>
    case NoSeccomp =>
    case SeccompFilter =>
  }

  lemma NameHasNoSpaceOfJailer(key: Opt)
    requires !key.ForVmm()
    ensures SpaceFree(key.Name()) && key.Name() != ""
  {
    match key
    case ExecFile =>
    case Uid =>
    case Gid =>
    case Id =>
    case Cgroup =>
    case CgroupVersion =>
    case ChrootBaseDir =>
    case Daemonize =>
    case Netns =>
    case NewPidNs =>
    case ParentCgroup =>
    case ResourceLimit =>
  }

  lemma NameHasNoSpace(key: Opt)
    ensures SpaceFree(key.Name()) && key.Name() != ""
  {
    if key.ForVmm() {
      NameHasNoSpaceOfVmm(key);
    } else {
      NameHasNoSpaceOfJailer(key);
    }
  }

  lemma TokenIsOrdinary(key: Opt)
    ensures SpaceFree(key.Token()) && |key.Token()| > 2
  {
    NameHasNoSpace(key);
  }

  lemma {:induction false} RepeatedTokensAre(key: Opt, texts: seq<string>, t: string)
    ensures t in RepeatedTokens(key, texts) <==> t in texts || (texts != [] && t == key.Token())
  {
    if texts == [] {
    } else {
      RepeatedTokensAre(key, texts[1..], t);
      assert texts == [texts[0]] + texts[1..];
    }
  }

  /** The tokens of a printed map are its option tokens and its values. */
  lemma {:induction false} TokensAre(order: seq<Opt>, args: map<Opt, ArgValue>, t: string)
    requires Conforms(args) && forall k :: k in order ==> k in args
    ensures t in Tokens(order, args) <==> exists k :: k in order && (t == k.Token() || t in ValueTexts(args[k]))
  {
    if order == [] {
    } else {
      var k := order[0];
      TokensAre(order[1..], args, t);
      assert order == [k] + order[1..];
      assert t in EntryTokens(k, args[k]) <==> t == k.Token() || t in ValueTexts(args[k]) by {
        if args[k].Many? {
          RepeatedTokensAre(k, args[k].texts, t);
        }
      }
    }
  }

  lemma TokensSpaceFreeIff(order: seq<Opt>, args: map<Opt, ArgValue>)
    requires Conforms(args) && Enumerates(order, args)
    ensures AllSpaceFree(Tokens(order, args)) <==> ValuesSpaceFree(args)
    ensures "" !in Tokens(order, args) <==> ValuesNonEmpty(args)
  {
    forall t
      ensures t in Tokens(order, args) <==> exists k :: k in args && (t == k.Token() || t in ValueTexts(args[k]))
    {
      TokensAre(order, args, t);
    }
    forall k: Opt
      ensures SpaceFree(k.Token()) && k.Token() != ""
    {
      TokenIsOrdinary(k);
    }
  }

  /**
   * In every order the map may be walked in, the printed line splits into the printed tokens exactly when no value
   * contains a space, has no empty piece exactly when moreover no value is empty, and reads back as the same options
   * with the same values.
   */
  lemma PrintedLineReadsBack(order: seq<Opt>, args: map<Opt, ArgValue>)
    requires Conforms(args) && Enumerates(order, args) && args != map[]
    ensures Split(Joined(Tokens(order, args))) == Tokens(order, args) <==> ValuesSpaceFree(args)
    ensures ValuesSpaceFree(args) ==> Parse(Split(Joined(Tokens(order, args)))) == Some(Meaning(args))
    ensures ValuesSpaceFree(args) ==> ("" !in Split(Joined(Tokens(order, args))) <==> ValuesNonEmpty(args))
  {
    assert order != [] by {
      var k :| k in args;
      assert k in order;
    }
    SplitRecoversIff(Tokens(order, args));
    TokensSpaceFreeIff(order, args);
    ParseOfTokens(order, args);
    assert Meaning(args) == MeaningOf(order, args);
  }
}
