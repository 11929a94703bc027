/**
 The commands handed to the shell spawner, with an empty chain of command modifiers: the jailed one, and the
 unrestricted one with its optional identifier.
 */
module Invocation {
  import opened Wrappers
  import opened CommandLine
  import opened Arguments
  import opened JailerLine

  // ---------------------------------------------------------------- identifiers

  datatype VmmId = VmmId(text: string)

  datatype VmmIdParseError = TooShort | TooLong | ContainsInvalidCharacter

  function Utf8Length(c: char): nat {
    if c as int < 0x80 then 1 else if c as int < 0x800 then 2 else if c as int < 0x1_0000 then 3 else 4
  }

  /** `String::len`: bytes, not characters. */
  function ByteLength(s: string): nat {
    if s == "" then 0 else Utf8Length(s[0]) + ByteLength(s[1..])
  }

  predicate IdCharacter(c: char) {
    'a' <= c <= 'z' || 'A' <= c <= 'Z' || '0' <= c <= '9' || c == '-'
  }

  predicate IdCharacters(s: string) {
    forall c :: c in s ==> IdCharacter(c)
  }

  function NewVmmId(id: string): Result<VmmId, VmmIdParseError> {
    if ByteLength(id) < 5 then Err(TooShort)
    else if ByteLength(id) > 60 then Err(TooLong)
    else if !IdCharacters(id) then Err(ContainsInvalidCharacter)
    else Ok(VmmId(id))
  }

  lemma {:induction false} ByteLengthOfId(s: string)
    requires IdCharacters(s)
    ensures ByteLength(s) == |s|
  {
    if s == "" {
    } else {
      assert s[0] in s && forall c :: c in s[1..] ==> c in s;
      ByteLengthOfId(s[1..]);
    }
  }

  /** Accepted are exactly the texts of 5 to 60 letters, digits and dashes; such a text is one token of a command. */
  lemma VmmIdAcceptsExactly(id: string)
    ensures NewVmmId(id).Ok? <==> 5 <= |id| <= 60 && IdCharacters(id)
    ensures NewVmmId(id).Ok? ==> NewVmmId(id).value.text == id && SpaceFree(id) && id != ""
  {
    if IdCharacters(id) {
      ByteLengthOfId(id);
    }
  }

  // ---------------------------------------------------------------- the jailed command

  ghost predicate IsJailedCommand(jailerPath: string, j: JailerArguments, exec: string, a: VmmArguments,
                                  override: ConfigOverride, command: string) {
    exists jailerArgs, vmmArgs ::
      && IsJailerLine(j, exec, jailerArgs)
      && IsVmmLine(a, EffectiveConfig(a, override), vmmArgs)
      && command == jailerPath + [SPACE] + jailerArgs + " -- " + vmmArgs
  }

  method JailedCommand(jailerPath: string, j: JailerArguments, exec: string, a: VmmArguments, override: ConfigOverride)
    returns (command: string)
    ensures IsJailedCommand(jailerPath, j, exec, a, override, command)
  {
    var jailerArgs := JoinJailer(j, exec);
    var vmmArgs := JoinVmm(a, override);
    command := jailerPath + [SPACE] + jailerArgs + " -- " + vmmArgs;
  }

  /** Where the first lone `--` stands, or the length. */
  function FirstDashes(tokens: seq<string>): (n: nat)
    ensures n <= |tokens|
    ensures SEPARATOR !in tokens[..n]
    ensures n < |tokens| ==> tokens[n] == SEPARATOR
  {
    if tokens == [] || tokens[0] == SEPARATOR then 0 else 1 + FirstDashes(tokens[1..])
  }

  lemma {:induction false} FirstDashesOfConcat(before: seq<string>, after: seq<string>)
    ensures FirstDashes(before + [SEPARATOR] + after) == |before| <==> SEPARATOR !in before
  {
    var tokens := before + [SEPARATOR] + after;
    if before == [] || before[0] == SEPARATOR {
    } else {
      assert tokens[1..] == before[1..] + [SEPARATOR] + after;
      FirstDashesOfConcat(before[1..], after);
      assert before == [before[0]] + before[1..];
    }
  }

  lemma CommandPieces(path: string, jailer: string, vmm: string, tail: string)
    requires tail == jailer + [SPACE] + (SEPARATOR + [SPACE] + vmm)
    ensures path + [SPACE] + jailer + " -- " + vmm == Joined([path]) + [SPACE] + tail
  {
    assert " -- " == [SPACE] + SEPARATOR + [SPACE];
  }

  lemma JoinedAroundDashes(jailer: seq<string>, vmm: seq<string>)
    requires AllSpaceFree(jailer) && AllSpaceFree(vmm) && jailer != [] && vmm != []
    ensures Joined(jailer + ([SEPARATOR] + vmm)) == Joined(jailer) + [SPACE] + (SEPARATOR + [SPACE] + Joined(vmm))
    ensures AllSpaceFree(jailer + ([SEPARATOR] + vmm))
  {
    JoinedOfConcat([SEPARATOR], vmm);
    JoinedOfConcat(jailer, [SEPARATOR] + vmm);
    AllSpaceFreeOfConcat([SEPARATOR], vmm);
    AllSpaceFreeOfConcat(jailer, [SEPARATOR] + vmm);
  }

  lemma JailedCommandTokens(jailerPath: string, jailer: seq<string>, vmm: seq<string>)
    requires SpaceFree(jailerPath) && AllSpaceFree(jailer) && AllSpaceFree(vmm) && jailer != [] && vmm != []
    ensures Split(jailerPath + [SPACE] + Joined(jailer) + " -- " + Joined(vmm))
            == [jailerPath] + (jailer + [SEPARATOR] + vmm)
  {
    var tail := jailer + ([SEPARATOR] + vmm);
    JoinedAroundDashes(jailer, vmm);
    ConcatAssociates(jailer, [SEPARATOR], vmm);
    CommandPieces(jailerPath, Joined(jailer), Joined(vmm), Joined(tail));
    SplitWithPrefix([jailerPath], tail);
  }

  /** What a receiver of the jailer's tokens makes of them. */
  ghost predicate JailerTokens(j: JailerArguments, exec: string, tokens: seq<string>) {
    Parse(tokens).Some? && ReadJailer(Parse(tokens).value) == JailerAsReading(j, exec)
  }

  lemma VmmLineTokens(a: VmmArguments, override: ConfigOverride, line: string) returns (tokens: seq<string>)
    requires IsVmmLine(a, EffectiveConfig(a, override), line) && VmmSpaceFree(a, EffectiveConfig(a, override))
    ensures tokens != [] && AllSpaceFree(tokens) && line == Joined(tokens) && VmmTokens(a, override, tokens)
  {
    var config := EffectiveConfig(a, override);
    var args, order :|
      IsVmmMap(a, config, args) && Enumerates(order, args) && line == Joined(Tokens(order, args));
    VmmMapConforms(a, config, args);
    VmmValuesSpaceFree(a, config, args);
    PrintedLineReadsBack(order, args);
    VmmMapReadsBack(a, config, args);
    tokens := Tokens(order, args);
  }

  lemma JailerLineTokens(j: JailerArguments, exec: string, line: string) returns (tokens: seq<string>)
    requires IsJailerLine(j, exec, line) && JailerSpaceFree(j, exec)
    requires KeysPlain(j.cgroupValues) && KeysPlain(j.resourceLimits)
    ensures tokens != [] && AllSpaceFree(tokens) && line == Joined(tokens) && JailerTokens(j, exec, tokens)
    ensures SEPARATOR in tokens <==> !NoLoneDashes(j, exec)
  {
    var cgroups, limits, args, order :|
      IsJailerMap(j, exec, cgroups, limits, args) && Enumerates(order, args) && line == Joined(Tokens(order, args));
    JailerMapConforms(j, exec, cgroups, limits, args);
    JailerValuesSpaceFree(j, exec, cgroups, limits, args);
    PrintedLineReadsBack(order, args);
    JailerMapReadsBack(j, exec, cgroups, limits, args);
    DashesAmongTokensIff(j, exec, cgroups, limits, args, order);
    tokens := Tokens(order, args);
  }

  /**
   * The jailed command splits into the jailer's path, tokens that read back as the jailer's arguments, a lone `--` and
   * tokens that read back as the binary's arguments.  The first lone `--` after the path is that separator exactly
   * when no value of the jailer is a lone `--`.
   */
  lemma JailedCommandReadsBack(jailerPath: string, j: JailerArguments, exec: string, a: VmmArguments,
                               override: ConfigOverride, command: string)
    requires IsJailedCommand(jailerPath, j, exec, a, override, command)
    requires SpaceFree(jailerPath) && JailerSpaceFree(j, exec) && VmmSpaceFree(a, EffectiveConfig(a, override))
    requires KeysPlain(j.cgroupValues) && KeysPlain(j.resourceLimits)
    ensures exists jailer, vmm ::
              && Split(command) == [jailerPath] + (jailer + [SEPARATOR] + vmm)
              && JailerTokens(j, exec, jailer)
              && VmmTokens(a, override, vmm)
              && (FirstDashes(jailer + [SEPARATOR] + vmm) == |jailer| <==> NoLoneDashes(j, exec))
  {
    var jailerArgs, vmmArgs :|
      && IsJailerLine(j, exec, jailerArgs)
      && IsVmmLine(a, EffectiveConfig(a, override), vmmArgs)
      && command == jailerPath + [SPACE] + jailerArgs + " -- " + vmmArgs;
    var jailer := JailerLineTokens(j, exec, jailerArgs);
    var vmm := VmmLineTokens(a, override, vmmArgs);
    JailedCommandTokens(jailerPath, jailer, vmm);
    FirstDashesOfConcat(jailer, vmm);
  }

  lemma CutApart(path: string, before: seq<string>, after: seq<string>)
    ensures ([path] + (before + [SEPARATOR] + after))[1..] == before + [SEPARATOR] + after
    ensures (before + [SEPARATOR] + after)[..|before|] == before
    ensures (before + [SEPARATOR] + after)[|before| + 1..] == after
  {
  }

  /** A receiver that cuts at the first lone `--` gets both sides back. */
  lemma ReceiverCutsAtDashes(jailerPath: string, j: JailerArguments, exec: string, a: VmmArguments,
                             override: ConfigOverride, command: string)
    requires IsJailedCommand(jailerPath, j, exec, a, override, command) && NoLoneDashes(j, exec)
    requires SpaceFree(jailerPath) && JailerSpaceFree(j, exec) && VmmSpaceFree(a, EffectiveConfig(a, override))
    requires KeysPlain(j.cgroupValues) && KeysPlain(j.resourceLimits)
    ensures var tokens := Split(command)[1..]; var n := FirstDashes(tokens);
            && n < |tokens|
            && JailerTokens(j, exec, tokens[..n])
            && VmmTokens(a, override, tokens[n + 1..])
  {
    JailedCommandReadsBack(jailerPath, j, exec, a, override, command);
    var jailer, vmm :|
      && Split(command) == [jailerPath] + (jailer + [SEPARATOR] + vmm)
      && JailerTokens(j, exec, jailer)
      && VmmTokens(a, override, vmm)
      && (FirstDashes(jailer + [SEPARATOR] + vmm) == |jailer| <==> NoLoneDashes(j, exec));
    CutApart(jailerPath, jailer, vmm);
  }

  // ---------------------------------------------------------------- the unrestricted command

  ghost predicate IsUnrestrictedCommand(path: string, a: VmmArguments, id: Option<VmmId>, override: ConfigOverride,
                                        command: string) {
    exists vmmArgs ::
      && IsVmmLine(a, EffectiveConfig(a, override), vmmArgs)
      && command == path + [SPACE] + vmmArgs + if id.Some? then " --id " + id.value.text else ""
  }

  method UnrestrictedCommand(path: string, a: VmmArguments, id: Option<VmmId>, override: ConfigOverride)
    returns (command: string)
    ensures IsUnrestrictedCommand(path, a, id, override, command)
  {
    var vmmArgs := JoinVmm(a, override);
    command := path + [SPACE] + vmmArgs;
    if id.Some? {
      command := command + " --id ";
      command := command + id.value.text;
    }
    assert command == path + [SPACE] + vmmArgs + if id.Some? then " --id " + id.value.text else "";
  }

  lemma ReadVmmIgnoresId(r: Reading, more: Reading)
    requires forall key :: key != Id ==> (key in r <==> key in more) && TextOf(r, key) == TextOf(more, key)
    ensures ReadVmm(r) == ReadVmm(more)
  {
  }

  lemma IdIsInvisible(args: map<Opt, ArgValue>, id: string)
    ensures ReadVmm(Meaning(args[Id := One(id)])) == ReadVmm(Meaning(args))
    ensures TextOf(Meaning(args[Id := One(id)]), Id) == Some(id)
  {
    var r, more := Meaning(args), Meaning(args[Id := One(id)]);
    forall key | key != Id
      ensures (key in r <==> key in more) && TextOf(r, key) == TextOf(more, key)
    {
      assert key in r ==> r[key] == more[key];
    }
    ReadVmmIgnoresId(r, more);
    TextOfMeaning(args[Id := One(id)], Id, Some(id));
  }

  lemma {:induction false} TokensIgnoreOtherKeys(order: seq<Opt>, args: map<Opt, ArgValue>, key: Opt, value: ArgValue)
    requires key !in order && forall k :: k in order ==> k in args
    ensures Tokens(order, args[key := value]) == Tokens(order, args)
  {
    if order == [] {
    } else {
      assert order[0] in order && forall k :: k in order[1..] ==> k in order;
      TokensIgnoreOtherKeys(order[1..], args, key, value);
    }
  }

  lemma WithIdentifier(order: seq<Opt>, args: map<Opt, ArgValue>, id: string)
    requires Conforms(args) && Enumerates(order, args) && Id !in args
    ensures Enumerates(order + [Id], args[Id := One(id)]) && Conforms(args[Id := One(id)])
  {
  }

  lemma TokensThenIdentifier(order: seq<Opt>, args: map<Opt, ArgValue>, id: string)
    requires Enumerates(order, args) && Id !in args
    ensures Tokens(order + [Id], args[Id := One(id)]) == Tokens(order, args) + [Id.Token(), id]
  {
    TokensOfSnoc(order, Id, args[Id := One(id)]);
    TokensIgnoreOtherKeys(order, args, Id, One(id));
  }

  /** The identifier comes after the printed options and is one more option to the reader. */
  lemma UnrestrictedCommandReadsBack(path: string, a: VmmArguments, id: VmmId, override: ConfigOverride,
                                     command: string)
    requires IsUnrestrictedCommand(path, a, Some(id), override, command)
    requires SpaceFree(path) && VmmSpaceFree(a, EffectiveConfig(a, override)) && NewVmmId(id.text) == Ok(id)
    ensures Split(command)[0] == path
    ensures VmmTokens(a, override, Split(command)[1..])
    ensures TextOf(Parse(Split(command)[1..]).value, Id) == Some(id.text)
  {
    var config := EffectiveConfig(a, override);
    VmmIdAcceptsExactly(id.text);
    var vmmArgs :| IsVmmLine(a, config, vmmArgs) && command == path + [SPACE] + vmmArgs + " --id " + id.text;
    var args, order :|
      IsVmmMap(a, config, args) && Enumerates(order, args) && vmmArgs == Joined(Tokens(order, args));
    VmmMapConforms(a, config, args);
    VmmValuesSpaceFree(a, config, args);
    TokensSpaceFreeIff(order, args);
    CommandWithIdentifier(path, Tokens(order, args), id.text);
    DropPath(path, Tokens(order, args) + [Id.Token(), id.text]);
    TokensWithIdentifier(a, override, order, args, id.text);
  }

  /** Without an identifier the options stand alone behind the path. */
  lemma PlainCommandReadsBack(path: string, a: VmmArguments, override: ConfigOverride, command: string)
    requires IsUnrestrictedCommand(path, a, None, override, command)
    requires SpaceFree(path) && VmmSpaceFree(a, EffectiveConfig(a, override))
    ensures Split(command)[0] == path
    ensures VmmTokens(a, override, Split(command)[1..])
  {
    var config := EffectiveConfig(a, override);
    var vmmArgs :| IsVmmLine(a, config, vmmArgs) && command == path + [SPACE] + vmmArgs + "";
    var tokens := VmmLineTokens(a, override, vmmArgs);
    assert command == path + [SPACE] + Joined(tokens);
    PathThenTokens(path, tokens);
  }

  lemma PathThenTokens(path: string, tokens: seq<string>)
    requires SpaceFree(path) && AllSpaceFree(tokens) && tokens != []
    ensures Split(path + [SPACE] + Joined(tokens))[0] == path
    ensures Split(path + [SPACE] + Joined(tokens))[1..] == tokens
  {
    assert Joined([path]) == path;
    SplitWithPrefix([path], tokens);
    DropPath(path, tokens);
  }

  lemma TokensWithIdentifier(a: VmmArguments, override: ConfigOverride, order: seq<Opt>, args: map<Opt, ArgValue>,
                             id: string)
    requires IsVmmMap(a, EffectiveConfig(a, override), args) && Conforms(args) && Enumerates(order, args)
    ensures VmmTokens(a, override, Tokens(order, args) + [Id.Token(), id])
    ensures TextOf(Parse(Tokens(order, args) + [Id.Token(), id]).value, Id) == Some(id)
  {
    var config := EffectiveConfig(a, override);
    assert VmmEntry(a, config, Id) == None;
    ParseWithIdentifier(order, args, id);
    IdIsInvisible(args, id);
    VmmMapReadsBack(a, config, args);
  }

  lemma DropPath(path: string, tokens: seq<string>)
    ensures ([path] + tokens)[1..] == tokens
  {
  }

  lemma ParseWithIdentifier(order: seq<Opt>, args: map<Opt, ArgValue>, id: string)
    requires Conforms(args) && Enumerates(order, args) && Id !in args
    ensures Parse(Tokens(order, args) + [Id.Token(), id]) == Some(Meaning(args[Id := One(id)]))
  {
    WithIdentifier(order, args, id);
    TokensThenIdentifier(order, args, id);
    var more, longer := args[Id := One(id)], order + [Id];
    ParseOfTokens(longer, more);
    assert MeaningOf(longer, more) == Meaning(more);
  }

  lemma PathThenIdentifier(path: string, line: string, id: string)
    ensures path + [SPACE] + (line + [SPACE] + (Id.Token() + [SPACE] + id)) == path + [SPACE] + line + " --id " + id
  {
    assert " --id " == [SPACE] + Id.Token() + [SPACE];
  }

  lemma CommandWithIdentifier(path: string, tokens: seq<string>, id: string)
    requires SpaceFree(path) && AllSpaceFree(tokens) && tokens != [] && SpaceFree(id)
    ensures Split(path + [SPACE] + Joined(tokens) + " --id " + id) == [path] + (tokens + [Id.Token(), id])
  {
    TokenIsOrdinary(Id);
    var tail := [Id.Token(), id];
    JoinedOfConcat([Id.Token()], [id]);
    assert [Id.Token()] + [id] == tail;
    assert Joined(tail) == Id.Token() + [SPACE] + id;
    JoinedOfConcat(tokens, tail);
    AllSpaceFreeOfConcat(tokens, tail);
    SplitWithPrefix([path], tokens + tail);
    PathThenIdentifier(path, Joined(tokens), id);
  }
}
