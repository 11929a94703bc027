/**
 The jailer's side of the command line: its options, among them the two lists printed from hash maps, and the whole
 command in which a lone `--` separates the jailer's options from those of the jailed binary.
 */
module JailerLine {
  import opened Wrappers
  import opened CommandLine
  import opened Arguments

  const EQUALS := '='

  // ---------------------------------------------------------------- key-value lists

  function EntryOf(key: string, value: string): string {
    key + [EQUALS] + value
  }

  /** `texts` are the entries of the map, each once, in one of the orders it may be walked in. */
  ghost predicate Lists(texts: seq<string>, m: map<string, string>) {
    if texts == [] then m == map[]
    else exists k :: k in m && texts[0] == EntryOf(k, m[k]) && Lists(texts[1..], m - {k})
  }

  lemma ListsMore(key: string, rest: seq<string>, m: map<string, string>)
    requires key in m && Lists(rest, m - {key})
    ensures Lists([EntryOf(key, m[key])] + rest, m)
  {
    assert ([EntryOf(key, m[key])] + rest)[1..] == rest;
  }

  method ListEntries(m: map<string, string>) returns (texts: seq<string>)
    ensures Lists(texts, m)
    ensures texts == [] <==> m == map[]
  {
    texts := [];
    var left := m;
    assert forall rest: seq<string> :: texts + rest == rest;
    while left != map[]
      invariant forall rest :: Lists(rest, left) ==> Lists(texts + rest, m)
      decreases |left|
    {
      var key :| key in left;
      ghost var before := texts;
      texts := texts + [EntryOf(key, left[key])];
      forall rest | Lists(rest, left - {key})
        ensures Lists(texts + rest, m)
      {
        ListsMore(key, rest, left);
        assert texts + rest == before + ([EntryOf(key, left[key])] + rest);
      }
      assert |left - {key}| < |left| by {
        assert (left - {key}).Keys == left.Keys - {key};
      }
      left := left - {key};
    }
    assert Lists([], left) && texts + [] == texts;
  }

  /** Where the first `=` is, or the length. */
  function KeyLength(entry: string): (n: nat)
    ensures n <= |entry|
  {
    if entry == "" || entry[0] == EQUALS then 0 else 1 + KeyLength(entry[1..])
  }

  function KeyOf(entry: string): string {
    entry[..KeyLength(entry)]
  }

  function ValueOf(entry: string): string {
    if KeyLength(entry) < |entry| then entry[KeyLength(entry) + 1..] else ""
  }

  lemma {:induction false} EntryReadsBack(key: string, value: string)
    requires EQUALS !in key
    ensures KeyLength(EntryOf(key, value)) == |key|
    ensures KeyOf(EntryOf(key, value)) == key && ValueOf(EntryOf(key, value)) == value
  {
    if key == "" {
    } else {
      assert EntryOf(key, value)[1..] == EntryOf(key[1..], value);
      EntryReadsBack(key[1..], value);
    }
  }

  ghost function ReadEntries(entries: set<string>): map<string, string> {
    var keys := set e | e in entries :: KeyOf(e);
    map k | k in keys :: PickValue(entries, k)
  }

  ghost function PickValue(entries: set<string>, key: string): string
    requires exists e :: e in entries && KeyOf(e) == key
  {
    var e :| e in entries && KeyOf(e) == key;
    ValueOf(e)
  }

  lemma {:induction false} ListedEntryIsOf(texts: seq<string>, m: map<string, string>, e: string) returns (k: string)
    requires Lists(texts, m) && e in texts
    ensures k in m && e == EntryOf(k, m[k])
  {
    k :| k in m && texts[0] == EntryOf(k, m[k]) && Lists(texts[1..], m - {k});
    if e == texts[0] {
    } else {
      k := ListedEntryIsOf(texts[1..], m - {k}, e);
    }
  }

  lemma {:induction false} EveryKeyIsListed(texts: seq<string>, m: map<string, string>, k: string)
    requires Lists(texts, m) && k in m
    ensures EntryOf(k, m[k]) in texts
  {
    var first :| first in m && texts[0] == EntryOf(first, m[first]) && Lists(texts[1..], m - {first});
    if k == first {
    } else {
      EveryKeyIsListed(texts[1..], m - {first}, k);
    }
  }

  /** A listed map is recovered from its entries in any order when no key contains an equals sign. */
  lemma EntriesReadBack(texts: seq<string>, m: map<string, string>)
    requires Lists(texts, m) && forall k :: k in m ==> EQUALS !in k
    ensures ReadEntries(set e | e in texts) == m
  {
    var entries := set e | e in texts;
    forall e | e in entries
      ensures KeyOf(e) in m && ValueOf(e) == m[KeyOf(e)]
    {
      var k := ListedEntryIsOf(texts, m, e);
      EntryReadsBack(k, m[k]);
    }
    forall k | k in m
      ensures exists e :: e in entries && KeyOf(e) == k
    {
      EveryKeyIsListed(texts, m, k);
      EntryReadsBack(k, m[k]);
    }
    EntriesDetermineMap(entries, m);
  }

  lemma EntriesDetermineMap(entries: set<string>, m: map<string, string>)
    requires forall e :: e in entries ==> KeyOf(e) in m && ValueOf(e) == m[KeyOf(e)]
    requires forall k :: k in m ==> exists e :: e in entries && KeyOf(e) == k
    ensures ReadEntries(entries) == m
  {
    var r := ReadEntries(entries);
    forall k | k in m
      ensures k in r
    {
      var e :| e in entries && KeyOf(e) == k;
    }
  }

  lemma {:induction false} EntriesSpaceFree(texts: seq<string>, m: map<string, string>)
    requires Lists(texts, m) && forall k :: k in m ==> SpaceFree(k) && SpaceFree(m[k])
    ensures AllSpaceFree(texts)
  {
    if texts == [] {
    } else {
      var k :| k in m && texts[0] == EntryOf(k, m[k]) && Lists(texts[1..], m - {k});
      EntriesSpaceFree(texts[1..], m - {k});
      assert texts == [texts[0]] + texts[1..];
    }
  }

  // ---------------------------------------------------------------- the options

  function ListEntry(texts: seq<string>): Option<ArgValue> {
    if texts == [] then None else Some(Many(texts))
  }

  function JailerEntry(j: JailerArguments, exec: string, cgroups: seq<string>, limits: seq<string>, key: Opt):
    Option<ArgValue>
  {
    match key
    case ExecFile => Some(One(exec))
    case Uid => Some(One(Decimal(j.uid)))
    case Gid => Some(One(Decimal(j.gid)))
    case Id => Some(One(j.jailId))
    case Cgroup => ListEntry(cgroups)
    case CgroupVersion => Entry(if j.cgroupVersion.Some? then Some(j.cgroupVersion.value.Text()) else None)
    case ChrootBaseDir => Entry(j.chrootBaseDir)
    case Daemonize => FlagEntry(j.daemonize)
    case Netns => Entry(j.networkNamespacePath)
    case NewPidNs => FlagEntry(j.execInNewPidNs)
    case ParentCgroup => if j.parentCgroup.Some? then Some(Borrowed(j.parentCgroup.value)) else None
    case ResourceLimit => ListEntry(limits)
    case _ => None
  }

  function JailerSection(key: Opt): nat {
    match key
    case ExecFile | Uid | Gid | Id => 0
    case Cgroup | CgroupVersion | ChrootBaseDir => 1
    case Daemonize | Netns | NewPidNs => 2
    case _ => 3
  }

  ghost predicate JailerSettled(j: JailerArguments, exec: string, cgroups: seq<string>, limits: seq<string>,
                                args: map<Opt, ArgValue>, sections: nat) {
    && (forall k :: k in args <==> JailerSection(k) < sections && JailerEntry(j, exec, cgroups, limits, k).Some?)
    && (forall k :: k in args ==> args[k] == JailerEntry(j, exec, cgroups, limits, k).value)
  }

  ghost predicate IsJailerMap(j: JailerArguments, exec: string, cgroups: seq<string>, limits: seq<string>,
                              args: map<Opt, ArgValue>) {
    && Lists(cgroups, j.cgroupValues) && Lists(limits, j.resourceLimits)
    && (forall k :: k in args <==> JailerEntry(j, exec, cgroups, limits, k).Some?)
    && (forall k :: k in args ==> args[k] == JailerEntry(j, exec, cgroups, limits, k).value)
  }

  method CollectIdentity(j: JailerArguments, exec: string, ghost cgroups: seq<string>, ghost limits: seq<string>)
    returns (args: map<Opt, ArgValue>)
    ensures JailerSettled(j, exec, cgroups, limits, args, 1)
  {
    args := map[];
    args := args[ExecFile := One(exec)];
    args := args[Uid := One(Decimal(j.uid))];
    args := args[Gid := One(Decimal(j.gid))];
    args := args[Id := One(j.jailId)];
  }

  method CollectPlacement(j: JailerArguments, ghost exec: string, cgroups: seq<string>, ghost limits: seq<string>,
                          before: map<Opt, ArgValue>) returns (args: map<Opt, ArgValue>)
    requires JailerSettled(j, exec, cgroups, limits, before, 1)
    requires cgroups == [] <==> j.cgroupValues == map[]
    ensures JailerSettled(j, exec, cgroups, limits, args, 2)
  {
    args := before;
    if j.cgroupValues != map[] {
      args := args[Cgroup := Many(cgroups)];
    }
    if j.cgroupVersion.Some? {
      args := args[CgroupVersion := One(j.cgroupVersion.value.Text())];
    }
    if j.chrootBaseDir.Some? {
      args := args[ChrootBaseDir := One(j.chrootBaseDir.value)];
    }
  }

  method CollectNamespaces(j: JailerArguments, ghost exec: string, ghost cgroups: seq<string>,
                           ghost limits: seq<string>, before: map<Opt, ArgValue>)
    returns (args: map<Opt, ArgValue>)
    requires JailerSettled(j, exec, cgroups, limits, before, 2)
    ensures JailerSettled(j, exec, cgroups, limits, args, 3)
  {
    args := before;
    if j.daemonize {
      args := args[Daemonize := Bare];
    }
    if j.networkNamespacePath.Some? {
      args := args[Netns := One(j.networkNamespacePath.value)];
    }
    if j.execInNewPidNs {
      args := args[NewPidNs := Bare];
    }
  }

  method CollectResources(j: JailerArguments, ghost exec: string, ghost cgroups: seq<string>, limits: seq<string>,
                          before: map<Opt, ArgValue>) returns (args: map<Opt, ArgValue>)
    requires JailerSettled(j, exec, cgroups, limits, before, 3)
    requires limits == [] <==> j.resourceLimits == map[]
    ensures JailerSettled(j, exec, cgroups, limits, args, 4)
  {
    args := before;
    if j.parentCgroup.Some? {
      args := args[ParentCgroup := Borrowed(j.parentCgroup.value)];
    }
    if j.resourceLimits != map[] {
      args := args[ResourceLimit := Many(limits)];
    }
  }

  /** `line` prints the options of the jailer in one of the orders the three maps involved may be walked in. */
  ghost predicate IsJailerLine(j: JailerArguments, exec: string, line: string) {
    exists cgroups, limits, args, order ::
      IsJailerMap(j, exec, cgroups, limits, args) && Enumerates(order, args) && line == Joined(Tokens(order, args))
  }

  /** `JailerArguments::join`. */
  method JoinJailer(j: JailerArguments, exec: string) returns (line: string)
    ensures IsJailerLine(j, exec, line)
  {
    var cgroups := ListEntries(j.cgroupValues);
    var limits := ListEntries(j.resourceLimits);
    var args := CollectIdentity(j, exec, cgroups, limits);
    args := CollectPlacement(j, exec, cgroups, limits, args);
    args := CollectNamespaces(j, exec, cgroups, limits, args);
    args := CollectResources(j, exec, cgroups, limits, args);
    assert IsJailerMap(j, exec, cgroups, limits, args);
    line := JoinArgs(args);
  }

  // ---------------------------------------------------------------- reading back

  datatype JailerReading = JailerReading(
    execFile: Option<string>, uid: Option<int>, gid: Option<int>, jailId: Option<string>,
    cgroupValues: map<string, string>, cgroupVersion: Option<CgroupVersion>, chrootBaseDir: Option<string>,
    daemonize: bool, networkNamespacePath: Option<string>, execInNewPidNs: bool, parentCgroup: Option<string>,
    resourceLimits: map<string, string>)

  ghost function ReadMap(r: Reading, key: Opt): map<string, string> {
    if key in r then ReadEntries(set e | e in r[key]) else map[]
  }

  ghost function ReadJailer(r: Reading): JailerReading {
    JailerReading(
      TextOf(r, ExecFile), NumberOf(r, Uid), NumberOf(r, Gid), TextOf(r, Id), ReadMap(r, Cgroup),
      VersionOf(TextOf(r, CgroupVersion)), TextOf(r, ChrootBaseDir), Daemonize in r, TextOf(r, Netns), NewPidNs in r,
      TextOf(r, ParentCgroup), ReadMap(r, ResourceLimit))
  }

  function VersionOf(text: Option<string>): Option<CgroupVersion> {
    if text == Some("1") then Some(V1) else if text == Some("2") then Some(V2) else None
  }

  function JailerAsReading(j: JailerArguments, exec: string): JailerReading {
    JailerReading(Some(exec), Some(j.uid), Some(j.gid), Some(j.jailId), j.cgroupValues, j.cgroupVersion,
                  j.chrootBaseDir, j.daemonize, j.networkNamespacePath, j.execInNewPidNs, j.parentCgroup,
                  j.resourceLimits)
  }

  lemma JailerEntryIsRead(j: JailerArguments, exec: string, cgroups: seq<string>, limits: seq<string>,
                          args: map<Opt, ArgValue>, key: Opt)
    requires IsJailerMap(j, exec, cgroups, limits, args) && key != Cgroup && key != ResourceLimit
    ensures key in Meaning(args) <==> JailerEntry(j, exec, cgroups, limits, key).Some?
    ensures TextOf(Meaning(args), key) == EntryText(JailerEntry(j, exec, cgroups, limits, key))
  {
    if key in args && args[key] != Bare {
      TextOfMeaning(args, key, EntryText(JailerEntry(j, exec, cgroups, limits, key)));
    }
  }

  lemma ListIsRead(args: map<Opt, ArgValue>, key: Opt, texts: seq<string>, m: map<string, string>)
    requires Lists(texts, m) && forall k :: k in m ==> EQUALS !in k
    requires key in args <==> texts != []
    requires key in args ==> args[key] == Many(texts)
    ensures ReadMap(Meaning(args), key) == m
  {
    if texts != [] {
      EntriesReadBack(texts, m);
      assert Meaning(args)[key] == multiset(texts);
      assert (set e | e in multiset(texts)) == (set e | e in texts);
    }
  }

  lemma IdentityIsRead(j: JailerArguments, exec: string, cgroups: seq<string>, limits: seq<string>,
                       args: map<Opt, ArgValue>)
    requires IsJailerMap(j, exec, cgroups, limits, args)
    ensures TextOf(Meaning(args), ExecFile) == Some(exec)
    ensures TextOf(Meaning(args), Id) == Some(j.jailId)
  {
    JailerEntryIsRead(j, exec, cgroups, limits, args, ExecFile);
    JailerEntryIsRead(j, exec, cgroups, limits, args, Id);
  }

  lemma OwnersAreRead(j: JailerArguments, exec: string, cgroups: seq<string>, limits: seq<string>,
                      args: map<Opt, ArgValue>)
    requires IsJailerMap(j, exec, cgroups, limits, args)
    ensures NumberOf(Meaning(args), Uid) == Some(j.uid)
    ensures NumberOf(Meaning(args), Gid) == Some(j.gid)
  {
    JailerEntryIsRead(j, exec, cgroups, limits, args, Uid);
    LimitIsRead(args, Uid, Some(j.uid));
    JailerEntryIsRead(j, exec, cgroups, limits, args, Gid);
    LimitIsRead(args, Gid, Some(j.gid));
  }

  lemma PlacementIsRead(j: JailerArguments, exec: string, cgroups: seq<string>, limits: seq<string>,
                        args: map<Opt, ArgValue>)
    requires IsJailerMap(j, exec, cgroups, limits, args)
    ensures TextOf(Meaning(args), ChrootBaseDir) == j.chrootBaseDir
    ensures Daemonize in Meaning(args) <==> j.daemonize
  {
    JailerEntryIsRead(j, exec, cgroups, limits, args, ChrootBaseDir);
    JailerEntryIsRead(j, exec, cgroups, limits, args, Daemonize);
  }

  lemma VersionReadsBack(version: CgroupVersion)
    ensures VersionOf(Some(version.Text())) == Some(version)
  {
  }

  lemma VersionIsRead(j: JailerArguments, exec: string, cgroups: seq<string>, limits: seq<string>,
                      args: map<Opt, ArgValue>)
    requires IsJailerMap(j, exec, cgroups, limits, args)
    ensures VersionOf(TextOf(Meaning(args), CgroupVersion)) == j.cgroupVersion
  {
    JailerEntryIsRead(j, exec, cgroups, limits, args, CgroupVersion);
    if j.cgroupVersion.Some? {
      VersionReadsBack(j.cgroupVersion.value);
    }
  }

  lemma NamespacesAreRead(j: JailerArguments, exec: string, cgroups: seq<string>, limits: seq<string>,
                          args: map<Opt, ArgValue>)
    requires IsJailerMap(j, exec, cgroups, limits, args)
    ensures TextOf(Meaning(args), Netns) == j.networkNamespacePath
    ensures TextOf(Meaning(args), ParentCgroup) == j.parentCgroup
    ensures NewPidNs in Meaning(args) <==> j.execInNewPidNs
  {
    JailerEntryIsRead(j, exec, cgroups, limits, args, Netns);
    JailerEntryIsRead(j, exec, cgroups, limits, args, ParentCgroup);
    JailerEntryIsRead(j, exec, cgroups, limits, args, NewPidNs);
  }

  lemma CgroupsAreRead(j: JailerArguments, exec: string, cgroups: seq<string>, limits: seq<string>,
                       args: map<Opt, ArgValue>)
    requires IsJailerMap(j, exec, cgroups, limits, args) && KeysPlain(j.cgroupValues)
    ensures ReadMap(Meaning(args), Cgroup) == j.cgroupValues
  {
    assert JailerEntry(j, exec, cgroups, limits, Cgroup) == ListEntry(cgroups);
    ListIsRead(args, Cgroup, cgroups, j.cgroupValues);
  }

  lemma ResourceLimitsAreRead(j: JailerArguments, exec: string, cgroups: seq<string>, limits: seq<string>,
                              args: map<Opt, ArgValue>)
    requires IsJailerMap(j, exec, cgroups, limits, args) && KeysPlain(j.resourceLimits)
    ensures ReadMap(Meaning(args), ResourceLimit) == j.resourceLimits
  {
    assert JailerEntry(j, exec, cgroups, limits, ResourceLimit) == ListEntry(limits);
    ListIsRead(args, ResourceLimit, limits, j.resourceLimits);
  }

  predicate KeysPlain(m: map<string, string>) {
    forall k :: k in m ==> EQUALS !in k
  }

  lemma JailerMapReadsBack(j: JailerArguments, exec: string, cgroups: seq<string>, limits: seq<string>,
                           args: map<Opt, ArgValue>)
    requires IsJailerMap(j, exec, cgroups, limits, args)
    requires KeysPlain(j.cgroupValues) && KeysPlain(j.resourceLimits)
    ensures ReadJailer(Meaning(args)) == JailerAsReading(j, exec)
  {
    IdentityIsRead(j, exec, cgroups, limits, args);
    OwnersAreRead(j, exec, cgroups, limits, args);
    PlacementIsRead(j, exec, cgroups, limits, args);
    VersionIsRead(j, exec, cgroups, limits, args);
    NamespacesAreRead(j, exec, cgroups, limits, args);
    CgroupsAreRead(j, exec, cgroups, limits, args);
    ResourceLimitsAreRead(j, exec, cgroups, limits, args);
  }

  // ---------------------------------------------------------------- spaces and dashes

  predicate MapSpaceFree(m: map<string, string>) {
    forall k :: k in m ==> SpaceFree(k) && SpaceFree(m[k])
  }

  predicate JailerSpaceFree(j: JailerArguments, exec: string) {
    && SpaceFree(exec) && SpaceFree(j.jailId)
    && MapSpaceFree(j.cgroupValues) && MapSpaceFree(j.resourceLimits)
    && OptionalSpaceFree(j.chrootBaseDir) && OptionalSpaceFree(j.networkNamespacePath)
    && OptionalSpaceFree(j.parentCgroup)
  }

  const SEPARATOR := "--"

  /** No value handed to the jailer is itself a lone `--`. */
  predicate NoLoneDashes(j: JailerArguments, exec: string) {
    && exec != SEPARATOR && j.jailId != SEPARATOR
    && j.chrootBaseDir != Some(SEPARATOR) && j.networkNamespacePath != Some(SEPARATOR)
    && j.parentCgroup != Some(SEPARATOR)
  }

  lemma JailerMapConforms(j: JailerArguments, exec: string, cgroups: seq<string>, limits: seq<string>,
                          args: map<Opt, ArgValue>)
    requires IsJailerMap(j, exec, cgroups, limits, args)
    ensures Conforms(args) && args != map[]
  {
    assert ExecFile in args;
    forall k | k in args
      ensures (if k.Flag() then args[k].Bare? else !args[k].Bare?) && args[k] != Many([])
    {
    }
  }

  lemma JailerEntrySpaceFree(j: JailerArguments, exec: string, cgroups: seq<string>, limits: seq<string>, key: Opt)
    requires AllSpaceFree(cgroups) && AllSpaceFree(limits) && JailerSpaceFree(j, exec)
    requires JailerEntry(j, exec, cgroups, limits, key).Some?
    ensures AllSpaceFree(ValueTexts(JailerEntry(j, exec, cgroups, limits, key).value))
  {
    match key
    case Uid => DecimalReadsBack(j.uid);
    case Gid => DecimalReadsBack(j.gid);
    case _ =>
  }

  lemma JailerValuesSpaceFree(j: JailerArguments, exec: string, cgroups: seq<string>, limits: seq<string>,
                              args: map<Opt, ArgValue>)
    requires IsJailerMap(j, exec, cgroups, limits, args) && JailerSpaceFree(j, exec)
    ensures ValuesSpaceFree(args)
  {
    EntriesSpaceFree(cgroups, j.cgroupValues);
    EntriesSpaceFree(limits, j.resourceLimits);
    forall k, v | k in args && v in ValueTexts(args[k])
      ensures SpaceFree(v)
    {
      JailerEntrySpaceFree(j, exec, cgroups, limits, k);
    }
  }

  lemma ListedEntryIsNoDash(texts: seq<string>, m: map<string, string>)
    requires Lists(texts, m)
    ensures SEPARATOR !in texts
  {
    forall e | e in texts
      ensures EQUALS in e
    {
      var k := ListedEntryIsOf(texts, m, e);
      assert EntryOf(k, m[k])[|k|] == EQUALS;
    }
  }

  lemma DashesInEntry(j: JailerArguments, exec: string, cgroups: seq<string>, limits: seq<string>, key: Opt)
    requires SEPARATOR !in cgroups && SEPARATOR !in limits
    requires JailerEntry(j, exec, cgroups, limits, key).Some?
    requires SEPARATOR in ValueTexts(JailerEntry(j, exec, cgroups, limits, key).value)
    ensures !NoLoneDashes(j, exec)
  {
    DecimalReadsBack(j.uid);
    DecimalReadsBack(j.gid);
  }

  lemma DashesHaveAnEntry(j: JailerArguments, exec: string, cgroups: seq<string>, limits: seq<string>)
    returns (key: Opt)
    requires !NoLoneDashes(j, exec)
    ensures JailerEntry(j, exec, cgroups, limits, key).Some?
    ensures SEPARATOR in ValueTexts(JailerEntry(j, exec, cgroups, limits, key).value)
  {
    key := if exec == SEPARATOR then ExecFile else if j.jailId == SEPARATOR then Id
           else if j.chrootBaseDir == Some(SEPARATOR) then ChrootBaseDir
           else if j.networkNamespacePath == Some(SEPARATOR) then Netns else ParentCgroup;
  }

  lemma DashesAmongValuesIff(j: JailerArguments, exec: string, cgroups: seq<string>, limits: seq<string>,
                             args: map<Opt, ArgValue>)
    requires IsJailerMap(j, exec, cgroups, limits, args)
    ensures (exists k :: k in args && SEPARATOR in ValueTexts(args[k])) <==> !NoLoneDashes(j, exec)
  {
    ListedEntryIsNoDash(cgroups, j.cgroupValues);
    ListedEntryIsNoDash(limits, j.resourceLimits);
    forall k | k in args && SEPARATOR in ValueTexts(args[k])
      ensures !NoLoneDashes(j, exec)
    {
      DashesInEntry(j, exec, cgroups, limits, k);
    }
    if !NoLoneDashes(j, exec) {
      var key := DashesHaveAnEntry(j, exec, cgroups, limits);
      assert key in args && SEPARATOR in ValueTexts(args[key]);
    }
  }

  /** The jailer's tokens contain a lone `--` exactly when one of its values is one. */
  lemma DashesAmongTokensIff(j: JailerArguments, exec: string, cgroups: seq<string>, limits: seq<string>,
                             args: map<Opt, ArgValue>, order: seq<Opt>)
    requires IsJailerMap(j, exec, cgroups, limits, args) && Enumerates(order, args)
    ensures SEPARATOR in Tokens(order, args) <==> !NoLoneDashes(j, exec)
  {
    JailerMapConforms(j, exec, cgroups, limits, args);
    TokensAre(order, args, SEPARATOR);
    DashesAmongValuesIff(j, exec, cgroups, limits, args);
    forall k: Opt
      ensures k.Token() != SEPARATOR
    {
      TokenIsOrdinary(k);
    }
  }
}
