/**
 The argument structures of the two binaries.  `join` fills a hash map entry by entry and prints it; `ReadVmm` is the
 inverse a receiver would apply, and the round-trip lemmas say that every order the map may be printed in reads back as
 the structure that was joined.  The jailer's own line follows in a module of its own.
 */
module Arguments {
  import opened Wrappers
  import opened CommandLine

  type u32 = n: int | 0 <= n < 0x1_0000_0000

  datatype ApiSocket = Disabled | Enabled(path: string)

  datatype LogLevel = Off | Trace | Debug | Info | Warn | Error {
    function Text(): string {
      match this
      case Off => "Off"
      case Trace => "Trace"
      case Debug => "Debug"
      case Info => "Info"
      case Warn => "Warn"
      case Error => "Error"
    }
  }

  datatype CgroupVersion = V1 | V2 {
    function Text(): string {
      if V1? then "1" else "2"
    }
  }

  datatype ConfigOverride = NoOverride | Disable | Enable(path: string)

  datatype VmmArguments = VmmArguments(
    apiSocket: ApiSocket,
    configPath: Option<string>,
    logLevel: Option<LogLevel>,
    logPath: Option<string>,
    showLogOrigin: bool,
    logModule: Option<string>,
    showLogLevel: bool,
    enableBootTimer: bool,
    apiMaxPayloadBytes: Option<u32>,
    metadataPath: Option<string>,
    metricsPath: Option<string>,
    mmdsSizeLimit: Option<u32>,
    disableSeccomp: bool,
    seccompPath: Option<string>
  )

  datatype JailerArguments = JailerArguments(
    uid: u32,
    gid: u32,
    jailId: string,
    cgroupValues: map<string, string>,
    cgroupVersion: Option<CgroupVersion>,
    chrootBaseDir: Option<string>,
    daemonize: bool,
    networkNamespacePath: Option<string>,
    execInNewPidNs: bool,
    parentCgroup: Option<string>,
    resourceLimits: map<string, string>
  )

  // ---------------------------------------------------------------- numbers

  function Digit(n: nat): char
    requires n < 10
  {
    '0' + n as char
  }

  function Decimal(n: nat): string {
    if n < 10 then [Digit(n)] else Decimal(n / 10) + [Digit(n % 10)]
  }

  function FromDecimal(s: string): int {
    if s == "" then 0 else 10 * FromDecimal(s[..|s| - 1]) + (s[|s| - 1] as int - '0' as int)
  }

  lemma {:induction false} DecimalReadsBack(n: nat)
    ensures FromDecimal(Decimal(n)) == n
    ensures SpaceFree(Decimal(n)) && Decimal(n) != "" && Decimal(n)[0] != '-'
  {
    if n < 10 {
      assert [Digit(n)][..0] == "";
    } else {
      DecimalReadsBack(n / 10);
      assert (Decimal(n / 10) + [Digit(n % 10)])[..|Decimal(n / 10)|] == Decimal(n / 10);
    }
  }

  // ---------------------------------------------------------------- firecracker

  function Entry(text: Option<string>): Option<ArgValue> {
    match text
    case None => None
    case Some(t) => Some(One(t))
  }

  function FlagEntry(on: bool): Option<ArgValue> {
    if on then Some(Bare) else None
  }

  function Number(n: Option<u32>): Option<string> {
    match n
    case None => None
    case Some(k) => Some(Decimal(k))
  }

  /** The configuration file the binary is told about. */
  function EffectiveConfig(a: VmmArguments, override: ConfigOverride): Option<string> {
    match override
    case NoOverride => a.configPath
    case Disable => None
    case Enable(path) => Some(path)
  }

  /** The entry of the joined map for each option. */
  function VmmEntry(a: VmmArguments, config: Option<string>, key: Opt): Option<ArgValue> {
    match key
    case NoApi => FlagEntry(a.apiSocket.Disabled?)
    case ApiSock => Entry(if a.apiSocket.Enabled? then Some(a.apiSocket.path) else None)
    case ConfigFile => Entry(config)
    case Level => Entry(if a.logLevel.Some? then Some(a.logLevel.value.Text()) else None)
    case LogPath => Entry(a.logPath)
    case ShowLogOrigin => FlagEntry(a.showLogOrigin)
    case Module => if a.logModule.Some? then Some(Borrowed(a.logModule.value)) else None
    case ShowLevel => FlagEntry(a.showLogLevel)
    case BootTimer => FlagEntry(a.enableBootTimer)
    case HttpApiMaxPayloadSize => Entry(Number(a.apiMaxPayloadBytes))
    case Metadata => Entry(a.metadataPath)
    case MetricsPath => Entry(a.metricsPath)
    case MmdsSizeLimit => Entry(Number(a.mmdsSizeLimit))
    case NoSeccomp => FlagEntry(a.disableSeccomp)
    case SeccompFilter => Entry(a.seccompPath)
    case _ => None
  }

  ghost predicate IsVmmMap(a: VmmArguments, config: Option<string>, args: map<Opt, ArgValue>) {
    && (forall k :: k in args <==> VmmEntry(a, config, k).Some?)
    && (forall k :: k in args ==> args[k] == VmmEntry(a, config, k).value)
  }

  /** The section of `join` that settles an option. */
  function Section(key: Opt): nat {
    match key
    case NoApi | ApiSock | ConfigFile => 0
    case Level | LogPath | ShowLogOrigin => 1
    case Module | ShowLevel | BootTimer => 2
    case HttpApiMaxPayloadSize | Metadata | MetricsPath => 3
    case MmdsSizeLimit | NoSeccomp | SeccompFilter => 4
    case _ => 5
  }

  /** The map once the first sections have run. */
  ghost predicate Settled(a: VmmArguments, config: Option<string>, args: map<Opt, ArgValue>, sections: nat) {
    && (forall k :: k in args <==> Section(k) < sections && VmmEntry(a, config, k).Some?)
    && (forall k :: k in args ==> args[k] == VmmEntry(a, config, k).value)
  }

  /** The socket and the configuration file. */
  method CollectMain(a: VmmArguments, override: ConfigOverride) returns (args: map<Opt, ArgValue>)
    ensures Settled(a, EffectiveConfig(a, override), args, 1)
  {
    args := map[];
    match a.apiSocket {
      case Disabled => args := args[NoApi := Bare];
      case Enabled(path) => args := args[ApiSock := One(path)];
    }
    match override {
      case NoOverride =>
        if a.configPath.Some? {
          args := args[ConfigFile := One(a.configPath.value)];
        }
      case Disable =>
      case Enable(path) =>
        args := args[ConfigFile := One(path)];
    }
  }

  method CollectLogging(a: VmmArguments, ghost config: Option<string>, before: map<Opt, ArgValue>)
    returns (args: map<Opt, ArgValue>)
    requires Settled(a, config, before, 1)
    ensures Settled(a, config, args, 2)
  {
    args := before;
    if a.logLevel.Some? {
      args := args[Level := One(a.logLevel.value.Text())];
    }
    if a.logPath.Some? {
      args := args[LogPath := One(a.logPath.value)];
    }
    if a.showLogOrigin {
      args := args[ShowLogOrigin := Bare];
    }
  }

  method CollectDetail(a: VmmArguments, ghost config: Option<string>, before: map<Opt, ArgValue>)
    returns (args: map<Opt, ArgValue>)
    requires Settled(a, config, before, 2)
    ensures Settled(a, config, args, 3)
  {
    args := before;
    if a.logModule.Some? {
      args := args[Module := Borrowed(a.logModule.value)];
    }
    if a.showLogLevel {
      args := args[ShowLevel := Bare];
    }
    if a.enableBootTimer {
      args := args[BootTimer := Bare];
    }
  }

  method CollectMetadata(a: VmmArguments, ghost config: Option<string>, before: map<Opt, ArgValue>)
    returns (args: map<Opt, ArgValue>)
    requires Settled(a, config, before, 3)
    ensures Settled(a, config, args, 4)
  {
    args := before;
    if a.apiMaxPayloadBytes.Some? {
      args := args[HttpApiMaxPayloadSize := One(Decimal(a.apiMaxPayloadBytes.value))];
    }
    if a.metadataPath.Some? {
      args := args[Metadata := One(a.metadataPath.value)];
    }
    if a.metricsPath.Some? {
      args := args[MetricsPath := One(a.metricsPath.value)];
    }
  }

  method CollectRest(a: VmmArguments, ghost config: Option<string>, before: map<Opt, ArgValue>)
    returns (args: map<Opt, ArgValue>)
    requires Settled(a, config, before, 4)
    ensures Settled(a, config, args, 5)
  {
    args := before;
    if a.mmdsSizeLimit.Some? {
      args := args[MmdsSizeLimit := One(Decimal(a.mmdsSizeLimit.value))];
    }
    if a.disableSeccomp {
      args := args[NoSeccomp := Bare];
    }
    if a.seccompPath.Some? {
      args := args[SeccompFilter := One(a.seccompPath.value)];
    }
  }

  /** The insertions of `VmmArguments::join` in program order. */
  method CollectVmm(a: VmmArguments, override: ConfigOverride) returns (args: map<Opt, ArgValue>)
    ensures IsVmmMap(a, EffectiveConfig(a, override), args)
    ensures override.Enable? ==> ConfigFile in args && args[ConfigFile] == One(override.path)
    ensures override.Disable? ==> ConfigFile !in args
    ensures override.NoOverride? && a.configPath.Some? ==>
              ConfigFile in args && args[ConfigFile] == One(a.configPath.value)
    ensures override.NoOverride? && a.configPath.None? ==> ConfigFile !in args
  {
    ghost var config := EffectiveConfig(a, override);
    args := CollectMain(a, override);
    args := CollectLogging(a, config, args);
    args := CollectDetail(a, config, args);
    args := CollectMetadata(a, config, args);
    args := CollectRest(a, config, args);
  }

  /** `VmmArguments::join`. */
  method JoinVmm(a: VmmArguments, override: ConfigOverride) returns (line: string)
    ensures IsVmmLine(a, EffectiveConfig(a, override), line)
  {
    var args := CollectVmm(a, override);
    line := JoinArgs(args);
  }

  /** `line` prints the entries of `a` in one of the orders their map may be walked in. */
  ghost predicate IsVmmLine(a: VmmArguments, config: Option<string>, line: string) {
    exists args, order :: IsVmmMap(a, config, args) && Enumerates(order, args) && line == Joined(Tokens(order, args))
  }

  // ---------------------------------------------------------------- reading back

  /** The only member, if there is exactly one. */
  ghost function Sole(values: multiset<string>): Option<string> {
    if exists v :: values == multiset{v} then
      var v :| values == multiset{v}; Some(v)
    else None
  }

  lemma SoleOfOne(v: string)
    ensures Sole(multiset{v}) == Some(v)
  {
    var w :| multiset{v} == multiset{w} && Sole(multiset{v}) == Some(w);
    assert v in multiset{v};
  }

  /** The value of an option that was given exactly once. */
  ghost function TextOf(r: Reading, key: Opt): Option<string> {
    if key in r then Sole(r[key]) else None
  }

  ghost function NumberOf(r: Reading, key: Opt): Option<int> {
    match TextOf(r, key)
    case None => None
    case Some(t) => Some(FromDecimal(t))
  }

  function LevelOf(text: Option<string>): Option<LogLevel> {
    match text
    case None => None
    case Some(t) =>
      if t == "Off" then Some(Off)
      else if t == "Trace" then Some(Trace)
      else if t == "Debug" then Some(Debug)
      else if t == "Info" then Some(Info)
      else if t == "Warn" then Some(Warn)
      else if t == "Error" then Some(Error)
      else None
  }

  /** What the receiving binary takes a reading to mean; the limits are plain integers here. */
  datatype VmmReading = VmmReading(
    noApi: bool, apiSocket: ApiSocket, configPath: Option<string>, logLevel: Option<LogLevel>, logPath: Option<string>,
    showLogOrigin: bool, logModule: Option<string>, showLogLevel: bool, enableBootTimer: bool,
    apiMaxPayloadBytes: Option<int>, metadataPath: Option<string>, metricsPath: Option<string>,
    mmdsSizeLimit: Option<int>, disableSeccomp: bool, seccompPath: Option<string>)

  ghost function ReadVmm(r: Reading): VmmReading {
    VmmReading(
      NoApi in r, (match TextOf(r, ApiSock) case Some(path) => Enabled(path) case None => Disabled),
      TextOf(r, ConfigFile), LevelOf(TextOf(r, Level)), TextOf(r, LogPath),
      ShowLogOrigin in r, TextOf(r, Module), ShowLevel in r, BootTimer in r,
      NumberOf(r, HttpApiMaxPayloadSize), TextOf(r, Metadata), TextOf(r, MetricsPath),
      NumberOf(r, MmdsSizeLimit), NoSeccomp in r, TextOf(r, SeccompFilter))
  }

  /** The structure as a reading, with the given configuration file. */
  function AsReading(a: VmmArguments, config: Option<string>): VmmReading {
    VmmReading(a.apiSocket.Disabled?, a.apiSocket, config, a.logLevel, a.logPath, a.showLogOrigin, a.logModule,
               a.showLogLevel, a.enableBootTimer, a.apiMaxPayloadBytes, a.metadataPath, a.metricsPath,
               a.mmdsSizeLimit, a.disableSeccomp, a.seccompPath)
  }

  lemma TextOfMeaning(args: map<Opt, ArgValue>, key: Opt, text: Option<string>)
    requires key in args <==> text.Some?
    requires key in args ==> args[key] == One(text.value) || args[key] == Borrowed(text.value)
    ensures TextOf(Meaning(args), key) == text
  {
    if text.Some? {
      SoleOfOne(text.value);
    }
  }

  lemma LevelReadsBack(level: LogLevel)
    ensures LevelOf(Some(level.Text())) == Some(level) && SpaceFree(level.Text()) && level.Text() != ""
  {
    match level
    case Off =>
    case Trace =>
    case Debug =>
    case Info =>
    case Warn =>
    case Error =>
  }

  /** Every option of the map reads back as the text of its entry, and a flag as its presence. */
  lemma EntryIsRead(a: VmmArguments, config: Option<string>, args: map<Opt, ArgValue>, key: Opt)
    requires IsVmmMap(a, config, args)
    ensures key in Meaning(args) <==> VmmEntry(a, config, key).Some?
    ensures TextOf(Meaning(args), key) == EntryText(VmmEntry(a, config, key))
  {
    if key in args && args[key] != Bare {
      TextOfMeaning(args, key, EntryText(VmmEntry(a, config, key)));
    }
  }

  function EntryText(entry: Option<ArgValue>): Option<string> {
    match entry
    case Some(One(text)) => Some(text)
    case Some(Borrowed(text)) => Some(text)
    case _ => None
  }

  lemma PathsAreRead(a: VmmArguments, config: Option<string>, args: map<Opt, ArgValue>)
    requires IsVmmMap(a, config, args)
    ensures TextOf(Meaning(args), ApiSock) == if a.apiSocket.Enabled? then Some(a.apiSocket.path) else None
    ensures TextOf(Meaning(args), ConfigFile) == config
    ensures TextOf(Meaning(args), LogPath) == a.logPath
    ensures TextOf(Meaning(args), Module) == a.logModule
  {
    EntryIsRead(a, config, args, ApiSock);
    EntryIsRead(a, config, args, ConfigFile);
    EntryIsRead(a, config, args, LogPath);
    EntryIsRead(a, config, args, Module);
  }

  lemma MorePathsAreRead(a: VmmArguments, config: Option<string>, args: map<Opt, ArgValue>)
    requires IsVmmMap(a, config, args)
    ensures TextOf(Meaning(args), Metadata) == a.metadataPath
    ensures TextOf(Meaning(args), MetricsPath) == a.metricsPath
    ensures TextOf(Meaning(args), SeccompFilter) == a.seccompPath
  {
    EntryIsRead(a, config, args, Metadata);
    EntryIsRead(a, config, args, MetricsPath);
    EntryIsRead(a, config, args, SeccompFilter);
  }

  lemma LevelIsRead(a: VmmArguments, config: Option<string>, args: map<Opt, ArgValue>)
    requires IsVmmMap(a, config, args)
    ensures LevelOf(TextOf(Meaning(args), Level)) == a.logLevel
  {
    EntryIsRead(a, config, args, Level);
    if a.logLevel.Some? {
      LevelReadsBack(a.logLevel.value);
    }
  }

  lemma LimitIsRead(args: map<Opt, ArgValue>, key: Opt, n: Option<u32>)
    requires TextOf(Meaning(args), key) == Number(n)
    ensures NumberOf(Meaning(args), key) == n
  {
    if n.Some? {
      DecimalReadsBack(n.value);
    }
  }

  lemma LimitsAreRead(a: VmmArguments, config: Option<string>, args: map<Opt, ArgValue>)
    requires IsVmmMap(a, config, args)
    ensures NumberOf(Meaning(args), HttpApiMaxPayloadSize) == a.apiMaxPayloadBytes
    ensures NumberOf(Meaning(args), MmdsSizeLimit) == a.mmdsSizeLimit
  {
    EntryIsRead(a, config, args, HttpApiMaxPayloadSize);
    LimitIsRead(args, HttpApiMaxPayloadSize, a.apiMaxPayloadBytes);
    EntryIsRead(a, config, args, MmdsSizeLimit);
    LimitIsRead(args, MmdsSizeLimit, a.mmdsSizeLimit);
  }

  lemma FlagsAreRead(a: VmmArguments, config: Option<string>, args: map<Opt, ArgValue>)
    requires IsVmmMap(a, config, args)
    ensures NoApi in Meaning(args) <==> a.apiSocket.Disabled?
    ensures ShowLogOrigin in Meaning(args) <==> a.showLogOrigin
    ensures ShowLevel in Meaning(args) <==> a.showLogLevel
    ensures BootTimer in Meaning(args) <==> a.enableBootTimer
    ensures NoSeccomp in Meaning(args) <==> a.disableSeccomp
  {
    EntryIsRead(a, config, args, NoApi);
    EntryIsRead(a, config, args, ShowLogOrigin);
    EntryIsRead(a, config, args, ShowLevel);
    EntryIsRead(a, config, args, BootTimer);
    EntryIsRead(a, config, args, NoSeccomp);
  }

  /** The option map of the binary determines every field. */
  lemma VmmMapReadsBack(a: VmmArguments, config: Option<string>, args: map<Opt, ArgValue>)
    requires IsVmmMap(a, config, args)
    ensures ReadVmm(Meaning(args)) == AsReading(a, config)
  {
    PathsAreRead(a, config, args);
    MorePathsAreRead(a, config, args);
    LevelIsRead(a, config, args);
    LimitsAreRead(a, config, args);
    FlagsAreRead(a, config, args);
  }

  // ---------------------------------------------------------------- the round trip

  predicate OptionalSpaceFree(text: Option<string>) {
    text.Some? ==> SpaceFree(text.value)
  }

  /** No text the caller supplied contains a space. */
  predicate VmmSpaceFree(a: VmmArguments, config: Option<string>) {
    && (a.apiSocket.Enabled? ==> SpaceFree(a.apiSocket.path))
    && OptionalSpaceFree(config) && OptionalSpaceFree(a.logPath) && OptionalSpaceFree(a.logModule)
    && OptionalSpaceFree(a.metadataPath) && OptionalSpaceFree(a.metricsPath) && OptionalSpaceFree(a.seccompPath)
  }

  lemma VmmValuesSpaceFree(a: VmmArguments, config: Option<string>, args: map<Opt, ArgValue>)
    requires IsVmmMap(a, config, args) && VmmSpaceFree(a, config)
    ensures ValuesSpaceFree(args)
  {
    forall k, v | k in args && v in ValueTexts(args[k])
      ensures SpaceFree(v)
    {
      EntrySpaceFree(a, config, k);
    }
  }

  lemma EntrySpaceFree(a: VmmArguments, config: Option<string>, key: Opt)
    requires VmmSpaceFree(a, config) && VmmEntry(a, config, key).Some?
    ensures var value := VmmEntry(a, config, key).value;
            && (if key.Flag() then value.Bare? else value.One? || value.Borrowed?)
            && (forall v :: v in ValueTexts(value) ==> SpaceFree(v))
  {
    if a.logLevel.Some? {
      LevelReadsBack(a.logLevel.value);
    }
    if a.apiMaxPayloadBytes.Some? {
      DecimalReadsBack(a.apiMaxPayloadBytes.value);
    }
    if a.mmdsSizeLimit.Some? {
      DecimalReadsBack(a.mmdsSizeLimit.value);
    }
  }

  lemma VmmMapConforms(a: VmmArguments, config: Option<string>, args: map<Opt, ArgValue>)
    requires IsVmmMap(a, config, args)
    ensures Conforms(args) && args != map[]
  {
    assert NoApi in args || ApiSock in args;
    forall k | k in args
      ensures if k.Flag() then args[k].Bare? else args[k].One? || args[k].Borrowed?
    {
    }
  }

  /** The configuration file the binary is told about: that of the override, none, or that of the arguments. */
  predicate ConfigChosen(a: VmmArguments, override: ConfigOverride, told: Option<string>) {
    match override
    case Enable(path) => told == Some(path)
    case Disable => told.None?
    case NoOverride => told == a.configPath
  }

  /**
   * What a receiver makes of tokens: all fields of the arguments, with the configuration file that the override says,
   * whatever the arguments say of it.
   */
  ghost predicate VmmTokens(a: VmmArguments, override: ConfigOverride, tokens: seq<string>) {
    && Parse(tokens).Some?
    && var r := Parse(tokens).value;
       ReadVmm(r) == AsReading(a, TextOf(r, ConfigFile)) && ConfigChosen(a, override, TextOf(r, ConfigFile))
  }

  /** A joined line splits and parses, in every order of its options, to the structure it was joined from. */
  lemma VmmLineReadsBack(a: VmmArguments, override: ConfigOverride, line: string)
    requires IsVmmLine(a, EffectiveConfig(a, override), line)
    requires VmmSpaceFree(a, EffectiveConfig(a, override))
    ensures VmmTokens(a, override, Split(line))
  {
    var config := EffectiveConfig(a, override);
    var args, order :|
      IsVmmMap(a, config, args) && Enumerates(order, args) && line == Joined(Tokens(order, args));
    VmmMapConforms(a, config, args);
    VmmValuesSpaceFree(a, config, args);
    PrintedLineReadsBack(order, args);
    VmmMapReadsBack(a, config, args);
  }
}
