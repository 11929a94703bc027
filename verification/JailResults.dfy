/**
 What holds of a whole life of a jail: the resources inside have the contents of the originals, and after cleanup
 nothing is left.
 */
module JailResults {
  import opened Wrappers
  import opened Paths
  import opened Filesystem
  import opened Inodes
  import opened HostMachine
  import opened Staging
  import opened StagingRaces
  import opened ExecutorTypes
  import opened Jailed

  // ---------------------------------------------------------------- contents

  lemma JobOf(cwd: Key, jail: Key, renamer: Renamer, outer: seq<PathBuf>, p: PathBuf)
    requires AllRenamed(renamer, outer) && p in outer
    ensures Job(Resolve(cwd, p), jail + renamer(p).value.parts) in JobSet(JobsFor(cwd, jail, renamer, outer))
  {
    var i :| 0 <= i < |outer| && outer[i] == p;
    assert JobsFor(cwd, jail, renamer, outer)[i] == Job(Resolve(cwd, p), jail + renamer(p).value.parts);
  }

  /** A file found when the jail is empty, other than the executor's own, was there before. */
  lemma FileWasThere(e: JailedExecutor, t0: Tree, base: Key, jail: Key, k: Key)
    requires jail != [] && WellFormed(t0) && EmptyJail(e, t0, base, jail).Some?
    requires IsFile(EmptyJail(e, t0, base, jail).value, k) && k !in ArgumentFiles(e, jail)
    ensures IsFile(t0, k) && t0[k] == EmptyJail(e, t0, base, jail).value[k] && !(jail <= k)
  {
    EmptyJailShape(e, t0, base, jail);
    var u := EmptyJail(e, t0, base, jail).value;
    if !(jail <= k) {
      assert SameAt(t0, u, k) || (k !in t0 && IsDir(u, k) && (k <= jail || k <= base));
    }
  }

  /** The tasks of one `prepare` do not interfere with one another or with the files `prepare` creates itself. */
  ghost predicate NoInterference(e: JailedExecutor, cwd: Key, jail: Key, outer: seq<PathBuf>)
    requires AllRenamed(e.renamer, outer)
  {
    && RaceFree(e.moveMethod, JobsFor(cwd, jail, e.renamer, outer))
    && forall p :: p in outer ==> Resolve(cwd, p) !in ArgumentFiles(e, jail)
  }

  /** After a successful `prepare`, every outer path's content is found where its inner name resolves to. */
  lemma JailHoldsOriginals(e: JailedExecutor, cwd: Key, installation: VmmInstallation, outer: seq<PathBuf>, d0: Disk,
                           d: Disk, p: PathBuf)
    requires Prepared(e, cwd, installation, outer, d0, d)
    requires NoInterference(e, cwd, Resolve(cwd, e.JailPath(installation)), outer) && p in outer
    ensures IsFile(d0.tree, Resolve(cwd, p))
    ensures e.renamer(p).Ok?
    ensures var inside := Resolve(cwd, e.InnerToOuter(installation, e.renamer(p).value));
            inside in d.tree && d.tree[inside] == d0.tree[Resolve(cwd, p)]
  {
    JailPathShape(e, installation);
    var base, jail := Resolve(cwd, e.BaseDir()), Resolve(cwd, e.JailPath(installation));
    var empty := EmptyJail(e, d0.tree, base, jail).value;
    var job := Job(Resolve(cwd, p), jail + e.renamer(p).value.parts);
    JobOf(cwd, jail, e.renamer, outer, p);
    assert Delivered(empty, job, d.tree);
    FileWasThere(e, d0.tree, base, jail, job.source);
    ResolveJailJoin(cwd, e.JailPath(installation), e.renamer(p).value);
  }

  // ---------------------------------------------------------------- renamers and races

  /** Resources that get the same place in the jail are the same file. */
  predicate PlacesIdentify(cwd: Key, renamer: Renamer, outer: seq<PathBuf>)
    requires AllRenamed(renamer, outer)
  {
    forall p, q :: p in outer && q in outer && renamer(p).value.parts == renamer(q).value.parts ==>
      Resolve(cwd, p) == Resolve(cwd, q)
  }

  /** No place in the jail is used twice, not even for one file. */
  predicate PlacesDiffer(renamer: Renamer, outer: seq<PathBuf>)
    requires AllRenamed(renamer, outer)
  {
    forall i, j :: 0 <= i < j < |outer| ==> renamer(outer[i]).value.parts != renamer(outer[j]).value.parts
  }

  /** What a move method asks of the places in the jail. */
  predicate PlacesSuit(how: MoveMethod, cwd: Key, renamer: Renamer, outer: seq<PathBuf>)
    requires AllRenamed(renamer, outer)
  {
    match how
    case ByCopy => PlacesIdentify(cwd, renamer, outer)
    case ByHardLink => true
    case ByHardLinkWithCopyFallback => PlacesDiffer(renamer, outer)
  }

  predicate OutsideJail(cwd: Key, jail: Key, outer: seq<PathBuf>) {
    forall p :: p in outer ==> !(jail <= Resolve(cwd, p))
  }

  lemma JobHasPath(cwd: Key, jail: Key, renamer: Renamer, outer: seq<PathBuf>, job: Job) returns (p: PathBuf)
    requires AllRenamed(renamer, outer) && job in JobSet(JobsFor(cwd, jail, renamer, outer))
    ensures p in outer && job == Job(Resolve(cwd, p), jail + renamer(p).value.parts)
  {
    var jobs := JobsFor(cwd, jail, renamer, outer);
    var i :| 0 <= i < |jobs| && jobs[i] == job;
    p := outer[i];
  }

  lemma SamePlace(jail: Key, a: Key, b: Key)
    ensures jail + a == jail + b ==> a == b
    ensures jail <= jail + a
  {
    assert (jail + a)[|jail|..] == a && (jail + b)[|jail|..] == b;
  }

  lemma IndependentIff(cwd: Key, jail: Key, renamer: Renamer, outer: seq<PathBuf>)
    requires AllRenamed(renamer, outer) && OutsideJail(cwd, jail, outer)
    ensures SourcesApart(JobSet(JobsFor(cwd, jail, renamer, outer)))
    ensures Independent(JobSet(JobsFor(cwd, jail, renamer, outer))) <==> PlacesIdentify(cwd, renamer, outer)
  {
    var jobs := JobsFor(cwd, jail, renamer, outer);
    forall a, b | a in JobSet(jobs) && b in JobSet(jobs)
      ensures a.target != b.source
      ensures PlacesIdentify(cwd, renamer, outer) && a.target == b.target ==> a.source == b.source
    {
      var p := JobHasPath(cwd, jail, renamer, outer, a);
      var q := JobHasPath(cwd, jail, renamer, outer, b);
      SamePlace(jail, renamer(p).value.parts, renamer(q).value.parts);
    }
    if Independent(JobSet(jobs)) {
      forall p, q | p in outer && q in outer && renamer(p).value.parts == renamer(q).value.parts
        ensures Resolve(cwd, p) == Resolve(cwd, q)
      {
        JobOf(cwd, jail, renamer, outer, p);
        JobOf(cwd, jail, renamer, outer, q);
      }
    }
  }

  lemma DistinctIff(cwd: Key, jail: Key, renamer: Renamer, outer: seq<PathBuf>)
    requires AllRenamed(renamer, outer)
    ensures DistinctTargets(JobsFor(cwd, jail, renamer, outer)) <==> PlacesDiffer(renamer, outer)
  {
    var jobs := JobsFor(cwd, jail, renamer, outer);
    forall i, j | 0 <= i < j < |outer|
      ensures jobs[i].target != jobs[j].target <==> renamer(outer[i]).value.parts != renamer(outer[j]).value.parts
    {
      SamePlace(jail, renamer(outer[i]).value.parts, renamer(outer[j]).value.parts);
    }
  }

  /** With no resource inside the jail, staging is free of races exactly when the places suit the move method. */
  lemma RaceFreeIff(how: MoveMethod, cwd: Key, jail: Key, renamer: Renamer, outer: seq<PathBuf>)
    requires AllRenamed(renamer, outer) && OutsideJail(cwd, jail, outer)
    ensures RaceFree(how, JobsFor(cwd, jail, renamer, outer)) <==> PlacesSuit(how, cwd, renamer, outer)
  {
    IndependentIff(cwd, jail, renamer, outer);
    DistinctIff(cwd, jail, renamer, outer);
  }

  /** Files of the same name are the same file. */
  predicate NamesIdentify(cwd: Key, outer: seq<PathBuf>) {
    forall p, q :: p in outer && q in outer && p.FileName() == q.FileName() ==> Resolve(cwd, p) == Resolve(cwd, q)
  }

  predicate NamesDiffer(outer: seq<PathBuf>) {
    forall i, j :: 0 <= i < j < |outer| ==> outer[i].FileName() != outer[j].FileName()
  }

  /** What a move method asks of the names of files when they become their places. */
  predicate NamesSuit(how: MoveMethod, cwd: Key, outer: seq<PathBuf>) {
    match how
    case ByCopy => NamesIdentify(cwd, outer)
    case ByHardLink => true
    case ByHardLinkWithCopyFallback => NamesDiffer(outer)
  }

  lemma FlatPlace(p: PathBuf, q: PathBuf)
    requires FlatRename(p).Ok? && FlatRename(q).Ok?
    ensures FlatRename(p).value.parts == FlatRename(q).value.parts <==> p.FileName() == q.FileName()
  {
    assert FlatRename(p).value.parts[0] == p.FileName().value && FlatRename(q).value.parts[0] == q.FileName().value;
  }

  /** For the flat renamer the places are the names of the files. */
  lemma FlatIsRaceFreeIff(how: MoveMethod, cwd: Key, jail: Key, outer: seq<PathBuf>)
    requires AllRenamed(FlatRename, outer) && OutsideJail(cwd, jail, outer)
    ensures RaceFree(how, JobsFor(cwd, jail, FlatRename, outer)) <==> NamesSuit(how, cwd, outer)
  {
    RaceFreeIff(how, cwd, jail, FlatRename, outer);
    forall p, q | p in outer && q in outer
      ensures FlatRename(p).value.parts == FlatRename(q).value.parts <==> p.FileName() == q.FileName()
    {
      FlatPlace(p, q);
    }
    assert forall i :: 0 <= i < |outer| ==> outer[i] in outer;
  }

  /**
   * The whole of it for the flat renamer: given room for all files, every schedule that succeeds agrees with the loop
   * if and only if the names of the files suit the move method.
   */
  lemma FlatAgreesIff(how: MoveMethod, cwd: Key, jail: Key, outer: seq<PathBuf>)
    requires AllRenamed(FlatRename, outer) && OutsideJail(cwd, jail, outer)
    requires Stageable(JobsFor(cwd, jail, FlatRename, outer))
    ensures AlwaysTheLoop(how, JobsFor(cwd, jail, FlatRename, outer)) <==> NamesSuit(how, cwd, outer)
  {
    FlatIsRaceFreeIff(how, cwd, jail, outer);
    AlwaysTheLoopIff(how, JobsFor(cwd, jail, FlatRename, outer));
  }

  /** What a move method asks of a lookup table. */
  predicate TableSuits(how: MoveMethod, cwd: Key, table: map<PathBuf, PathBuf>, outer: seq<PathBuf>)
    requires forall p :: p in outer ==> p in table
  {
    match how
    case ByCopy =>
      forall p, q :: p in outer && q in outer && table[p].parts == table[q].parts ==> Resolve(cwd, p) == Resolve(cwd, q)
    case ByHardLink => true
    case ByHardLinkWithCopyFallback =>
      forall i, j :: 0 <= i < j < |outer| ==> table[outer[i]].parts != table[outer[j]].parts
  }

  /** For a lookup table: every resource is in it, and its places suit the move method. */
  lemma MappingIsRaceFreeIff(how: MoveMethod, cwd: Key, jail: Key, table: map<PathBuf, PathBuf>, outer: seq<PathBuf>)
    requires OutsideJail(cwd, jail, outer)
    ensures AllRenamed(MappingRename(table), outer) <==> forall p :: p in outer ==> p in table
    ensures AllRenamed(MappingRename(table), outer) ==>
              (RaceFree(how, JobsFor(cwd, jail, MappingRename(table), outer)) <==> TableSuits(how, cwd, table, outer))
  {
    var renamer := MappingRename(table);
    if AllRenamed(renamer, outer) {
      assert forall p :: p in outer ==> renamer(p).Ok? && p in table && renamer(p).value == table[p];
      assert forall i :: 0 <= i < |outer| ==> outer[i] in outer;
      RaceFreeIff(how, cwd, jail, renamer, outer);
    } else {
      var p :| p in outer && !renamer(p).Ok?;
      assert p !in table;
    }
  }

  /** `MappingJailRenamer`: a table that is filled before an executor gets it; of two entries the later counts. */
  class MappingTable {
    var mappings: map<PathBuf, PathBuf>

    constructor (mappings: map<PathBuf, PathBuf>)
      ensures this.mappings == mappings
    {
      this.mappings := mappings;
    }

    method Map(outside: PathBuf, inside: PathBuf)
      modifies this
      ensures MappingRename(mappings)(outside) == Ok(inside)
      ensures forall p :: p != outside ==> MappingRename(mappings)(p) == MappingRename(old(mappings))(p)
    {
      mappings := mappings[outside := inside];
    }

    method MapAll(more: seq<(PathBuf, PathBuf)>)
      modifies this
      ensures forall p :: MappingRename(mappings)(p)
                          == if LastInside(more, p).Some? then Ok(LastInside(more, p).value)
                             else MappingRename(old(mappings))(p)
    {
      for i := 0 to |more|
        invariant forall p :: MappingRename(mappings)(p)
                              == if LastInside(more[..i], p).Some? then Ok(LastInside(more[..i], p).value)
                                 else MappingRename(old(mappings))(p)
      {
        assert more[..i + 1][..i] == more[..i];
        mappings := mappings[more[i].0 := more[i].1];
      }
      assert more[..|more|] == more;
    }
  }

  /** The place that a list of entries gives to a path. */
  function LastInside(entries: seq<(PathBuf, PathBuf)>, p: PathBuf): Option<PathBuf> {
    if entries == [] then None
    else
      var last := entries[|entries| - 1];
      if last.0 == p then Some(last.1) else LastInside(entries[..|entries| - 1], p)
  }

  // ---------------------------------------------------------------- races

  const RACE_JOBS: seq<Job> :=
    [Job(["one", "disk"], ["jail", "disk"]), Job(["two", "disk"], ["jail", "disk"])]

  lemma RaceHasRoom()
    ensures Stageable(RACE_JOBS)
  {
    var one: Key, two: Key, jail: Key := ["one", "disk"], ["two", "disk"], ["jail", "disk"];
    assert one[0] != jail[0] && two[0] != jail[0] && one[0] != two[0];
    assert forall i :: 0 <= i < 2 ==> RACE_JOBS[i].target == jail;
    assert RACE_JOBS[0].source == one && RACE_JOBS[1].source == two;
  }

  lemma PairRaces(jobs: seq<Job>)
    requires Stageable(jobs) && |jobs| == 2 && jobs[0].target == jobs[1].target && jobs[0].source != jobs[1].source
    ensures exists begin: State, a: State, b: State ::
              && Spawned(jobs, begin.phases) && Reaches(ByCopy, jobs, begin, a) && Reaches(ByCopy, jobs, begin, b)
              && AllFinished(a.phases) && AllFinished(b.phases)
              && a.disk.tree != b.disk.tree
  {
    var a := LateCopyLands(jobs, jobs[0].source, 0);
    var b := LateCopyLands(jobs, jobs[0].source, 1);
    assert a.disk.tree[jobs[0].target] != b.disk.tree[jobs[0].target];
    assert Spawned(jobs, Fresh(jobs, jobs[0].source).phases);
  }

  /** Two disks of the same name in different directories: both schedules succeed and leave different jails. */
  lemma SameNamesRace()
    ensures exists begin: State, a: State, b: State ::
              && Spawned(RACE_JOBS, begin.phases)
              && Reaches(ByCopy, RACE_JOBS, begin, a) && Reaches(ByCopy, RACE_JOBS, begin, b)
              && AllFinished(a.phases) && AllFinished(b.phases)
              && a.disk.tree != b.disk.tree
  {
    RaceHasRoom();
    assert RACE_JOBS[0].source[0] != RACE_JOBS[1].source[0];
    PairRaces(RACE_JOBS);
  }

  /** With links that fall back to copies, the disk of one VM on the host is overwritten with the other. */
  lemma SameNamesOverwriteTheHost()
    ensures exists begin: State, end: State ::
              && Spawned(RACE_JOBS, begin.phases)
              && Reaches(ByHardLinkWithCopyFallback, RACE_JOBS, begin, end) && AllFinished(end.phases)
              && IsFile(begin.disk.tree, ["one", "disk"]) && IsFile(end.disk.tree, ["one", "disk"])
              && begin.disk.tree[["one", "disk"]] == File("a") && end.disk.tree[["one", "disk"]] == File("b")
  {
    RaceHasRoom();
    var begin, end := PairHitsSource(RACE_JOBS);
  }

  const SPELLINGS: seq<PathBuf> := [PathBuf(true, ["a", "disk"]), PathBuf(false, ["disk"])]

  const SPELLED_JOB := Job(["a", "disk"], ["jail", "disk"])

  lemma SpellingsMeet()
    ensures SPELLINGS[0] != SPELLINGS[1] && NamesIdentify(["a"], SPELLINGS) && !NamesDiffer(SPELLINGS)
    ensures AllRenamed(FlatRename, SPELLINGS)
    ensures JobsFor(["a"], ["jail"], FlatRename, SPELLINGS) == [SPELLED_JOB, SPELLED_JOB]
  {
    assert ["a"] + ["disk"] == ["a", "disk"] && ["jail"] + ["disk"] == ["jail", "disk"];
    assert SPELLINGS[0].FileName() == SPELLINGS[1].FileName();
  }

  lemma TwiceStagedIsEmptied(job: Job)
    requires Stageable([job, job])
    ensures exists begin: State, end: State ::
              && Spawned([job, job], begin.phases)
              && Reaches(ByHardLinkWithCopyFallback, [job, job], begin, end) && AllFinished(end.phases)
              && IsFile(begin.disk.tree, job.source) && begin.disk.tree[job.source] == File("a")
              && IsFile(end.disk.tree, job.source) && end.disk.tree[job.source] == File("")
  {
    var begin, end := PairHitsSource([job, job]);
  }

  /** One disk under two spellings of its path: the configuration is accepted, and the disk ends up empty. */
  lemma TwoSpellingsEmptyTheHost()
    ensures AllRenamed(FlatRename, SPELLINGS) && SPELLINGS[0] != SPELLINGS[1] && NamesIdentify(["a"], SPELLINGS)
    ensures var jobs := JobsFor(["a"], ["jail"], FlatRename, SPELLINGS);
            exists begin: State, end: State ::
              && Spawned(jobs, begin.phases)
              && Reaches(ByHardLinkWithCopyFallback, jobs, begin, end) && AllFinished(end.phases)
              && IsFile(begin.disk.tree, ["a", "disk"]) && begin.disk.tree[["a", "disk"]] == File("a")
              && IsFile(end.disk.tree, ["a", "disk"]) && end.disk.tree[["a", "disk"]] == File("")
  {
    SpellingsMeet();
    assert SPELLED_JOB.source[0] != SPELLED_JOB.target[0];
    TwiceIsStageable(SPELLED_JOB);
    TwiceStagedIsEmptied(SPELLED_JOB);
  }

  // ---------------------------------------------------------------- cleanup

  /** `cleanup` of the jailed executor: the directory that holds the root of the jail, with everything in it. */
  method Cleanup(e: JailedExecutor, host: Host, installation: VmmInstallation) returns (r: Result<(), ExecutorError>)
    modifies host
    ensures r.Ok? ==> IsDir(old(host.disk).tree, Up(host.At(e.JailPath(installation))))
                      && host.disk.tree == RemoveTree(old(host.disk).tree, Up(host.At(e.JailPath(installation))))
    ensures var gone := Up(host.At(e.JailPath(installation)));
            host.obliging && gone != [] && IsDir(old(host.disk).tree, gone) ==> r.Ok?
  {
    JailPathShape(e, installation);
    var parent := e.JailPath(installation).Parent();
    if parent.None? {
      return Err(ExpectedDirectoryParentMissing);
    }
    assert host.At(parent.value) == Up(host.At(e.JailPath(installation)));
    var ok := host.RemoveDirAll(parent.value);
    r := if ok then Ok(()) else Err(IoError);
  }

  /** After a staging by copying, a file that the VM writes in its jail is no file of the host. */
  lemma GuestWritesStayInside(e: JailedExecutor, cwd: Key, installation: VmmInstallation, outer: seq<PathBuf>,
                              d0: Disk, prepared: Disk, k: Key, content: string)
    requires e.moveMethod == ByCopy && Prepared(e, cwd, installation, outer, d0, prepared)
    requires Resolve(cwd, e.JailPath(installation)) <= k && IsFile(prepared.tree, k)
    ensures var jail := Resolve(cwd, e.JailPath(installation));
            SameOutside(prepared.tree, Write(prepared, k, content).tree, jail)
            && SoleBelow(Write(prepared, k, content), jail)
  {
    WriteInsideStaysInside(prepared, Resolve(cwd, e.JailPath(installation)), k, content);
  }

  lemma WriteInsideStaysInside(d: Disk, jail: Key, k: Key, content: string)
    requires SoleBelow(d, jail) && jail <= k && IsFile(d.tree, k)
    ensures SameOutside(d.tree, Write(d, k, content).tree, jail) && SoleBelow(Write(d, k, content), jail)
  {
    var u := Write(d, k, content);
    SoleAt(d, jail, k);
    WriteToSole(d, k, content);
    forall i, j | i in u.inodes && jail <= i && j in u.inodes && j != i
      ensures !SameFile(u, j, i)
    {
      assert HasOneName(d, i);
    }
  }

  /**
   * From any disk: a successful `prepare` by copying, any writes below the root of the jail, then `cleanup`.  Nothing
   * is left where the jail was, and every other location is as in the beginning, but for directories that may now
   * exist on the way to the base directory and to the jail.
   */
  lemma JailIsTraceless(e: JailedExecutor, cwd: Key, installation: VmmInstallation, outer: seq<PathBuf>, d0: Disk,
                        prepared: Disk, used: Tree)
    requires e.moveMethod == ByCopy && Prepared(e, cwd, installation, outer, d0, prepared)
    requires SameOutside(prepared.tree, used, Resolve(cwd, e.JailPath(installation)))
    ensures var base, jail := Resolve(cwd, e.BaseDir()), Resolve(cwd, e.JailPath(installation));
            jail != [] &&
            (var gone, after := Up(jail), RemoveTree(used, Up(jail));
             && (forall k :: gone <= k ==> k !in after)
             && (forall k :: !(gone <= k) ==>
                   SameAt(d0.tree, after, k) || (k !in d0.tree && IsDir(after, k) && (k <= gone || k <= base))))
  {
    JailPathShape(e, installation);
    var base, jail := Resolve(cwd, e.BaseDir()), Resolve(cwd, e.JailPath(installation));
    var t0 := d0.tree;
    var empty := EmptyJail(e, t0, base, jail).value;
    EmptyJailShape(e, t0, base, jail);
    var gone, after := Up(jail), RemoveTree(used, Up(jail));
    forall k | !(gone <= k)
      ensures SameAt(t0, after, k) || (k !in t0 && IsDir(after, k) && (k <= gone || k <= base))
    {
      assert jail <= k ==> gone <= k;
      assert SameAt(t0, empty, k) || (k !in t0 && IsDir(empty, k) && (k <= jail || k <= base));
      assert SameAt(empty, prepared.tree, k) && SameAt(prepared.tree, used, k);
      assert k <= jail ==> k <= gone || k == jail;
    }
  }

  // ---------------------------------------------------------------- identifiers

  /** What `cleanup` asks the operating system to remove, for any identifier: an absolute one replaces base and exec. */
  lemma RemovedDirectory(e: JailedExecutor, cwd: Key, installation: VmmInstallation)
    ensures var jail, id := Resolve(cwd, e.JailPath(installation)), Parse(e.jailer.jailId);
            && jail != []
            && Up(jail) == if id.rooted then id.parts
                           else Resolve(cwd, e.BaseDir()) + [e.ExecName(installation)] + id.parts
  {
    var id := Parse(e.jailer.jailId);
    var above := if id.rooted then id
                 else PathBuf(e.BaseDir().rooted, e.BaseDir().parts + [e.ExecName(installation)] + id.parts);
    assert e.JailPath(installation) == PathBuf(above.rooted, above.parts + ["root"]);
    assert Resolve(cwd, e.JailPath(installation)) == Resolve(cwd, above) + ["root"];
  }

  /** The removed directory is base/exec/id if and only if the identifier is one component. */
  lemma CleanupRemovesTheIdIff(e: JailedExecutor, cwd: Key, installation: VmmInstallation)
    ensures var jail := Resolve(cwd, e.JailPath(installation));
            && jail != []
            && (Up(jail) == Resolve(cwd, e.BaseDir()) + [e.ExecName(installation), e.jailer.jailId]
                <==> IsComponent(e.jailer.jailId))
  {
    var id, parts := e.jailer.jailId, Parse(e.jailer.jailId).parts;
    var here := Resolve(cwd, e.BaseDir()) + [e.ExecName(installation)];
    RemovedDirectory(e, cwd, installation);
    assert here + [id] == Resolve(cwd, e.BaseDir()) + [e.ExecName(installation), id];
    PartsAreComponents(id);
    SamePlace(here, parts, [id]);
    assert parts == [id] || parts == here + [id] ==> id in parts;
    if IsComponent(id) {
      ParseOfComponent(id);
    }
  }

  lemma PartsAreComponents(s: string)
    ensures forall part :: part in Parse(s).parts ==> IsComponent(part)
  {
  }

  /** Where the jail of an identifier that is one component is. */
  lemma JailOfPlainId(e: JailedExecutor, cwd: Key, installation: VmmInstallation)
    requires IsComponent(e.jailer.jailId)
    ensures var here, rest := Resolve(cwd, e.BaseDir()) + [e.ExecName(installation)], [e.jailer.jailId, "root"];
            && Resolve(cwd, e.JailPath(installation)) == here + rest
            && here + rest == Resolve(cwd, e.BaseDir()) + [e.ExecName(installation), e.jailer.jailId, "root"]
  {
    JailPathOfPlainId(e, installation);
  }

  /** It contains the jail of another identifier of the same base and binary if and only if its components say so. */
  lemma CleanupReachesOtherIff(e: JailedExecutor, other: JailedExecutor, cwd: Key, installation: VmmInstallation)
    requires IsComponent(other.jailer.jailId) && other.BaseDir() == e.BaseDir()
    ensures var jail, id := Resolve(cwd, e.JailPath(installation)), Parse(e.jailer.jailId);
            var base, exec := Resolve(cwd, e.BaseDir()), e.ExecName(installation);
            && jail != []
            && (Up(jail) <= Resolve(cwd, other.JailPath(installation))
                <==> if id.rooted then id.parts <= base + [exec, other.jailer.jailId, "root"]
                     else id.parts <= [other.jailer.jailId, "root"])
  {
    RemovedDirectory(e, cwd, installation);
    JailOfPlainId(other, cwd, installation);
    PrefixBehind(Resolve(cwd, e.BaseDir()) + [e.ExecName(installation)], Parse(e.jailer.jailId).parts,
                 [other.jailer.jailId, "root"]);
  }

  lemma PrefixBehind(here: Key, a: Key, b: Key)
    ensures here + a <= here + b <==> a <= b
  {
    assert (here + a)[|here|..] == a && (here + b)[|here|..] == b;
    if here + a <= here + b {
      assert a == (here + b)[..|here + a|][|here|..] == b[..|a|];
    }
    if a <= b {
      assert (here + b)[..|here + a|] == here + b[..|a|];
    }
  }

  /** The empty identifier: the removed directory is base/exec, where the jails of all identifiers are. */
  lemma CleanupOfEmptyIdRemovesAllJails(e: JailedExecutor, other: JailedExecutor, cwd: Key,
                                        installation: VmmInstallation)
    requires e.jailer.jailId == "" && IsComponent(other.jailer.jailId) && other.BaseDir() == e.BaseDir()
    ensures var jail := Resolve(cwd, e.JailPath(installation));
            jail != [] && Up(jail) <= Resolve(cwd, other.JailPath(installation))
  {
    CleanupReachesOtherIff(e, other, cwd, installation);
    assert Parse("") == PathBuf(false, []);
  }

  /** The identifier `/`: the jail is /root, and the directory to be removed is the root of the filesystem. */
  lemma CleanupOfSlashAsksForTheRoot(e: JailedExecutor, cwd: Key, installation: VmmInstallation)
    requires e.jailer.jailId == "/"
    ensures e.JailPath(installation) == PathBuf(true, ["root"])
    ensures Up(Resolve(cwd, e.JailPath(installation))) == []
  {
    assert "/"[1..] == "";
    assert Parse("/") == PathBuf(true, []);
  }
}
