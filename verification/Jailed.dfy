/**
 The jailed executor: where the jail is, what `prepare` builds in it and what `cleanup` removes.
 */
module Jailed {
  import opened Wrappers
  import opened Paths
  import opened Filesystem
  import opened Inodes
  import opened HostMachine
  import opened Staging
  import opened StagingProgress
  import opened Arguments
  import opened ExecutorTypes

  type Renamer = PathBuf -> Result<PathBuf, RenamerError>

  datatype JailedExecutor = JailedExecutor(
    vmm: VmmArguments, jailer: JailerArguments, moveMethod: MoveMethod, renamer: Renamer)
  {
    function BaseDir(): PathBuf {
      match jailer.chrootBaseDir
      case Some(dir) => Parse(dir)
      case None => PathBuf(true, ["srv", "jailer"])
    }

    function ExecName(installation: VmmInstallation): string {
      match Parse(installation.firecrackerPath).FileName()
      case Some(name) => name
      case None => "firecracker"
    }

    /** `get_jail_path`: base/exec/id/root. */
    function JailPath(installation: VmmInstallation): PathBuf {
      BaseDir().Join(Single(ExecName(installation))).Join(Parse(jailer.jailId)).Join(Single("root"))
    }

    function SocketPath(installation: VmmInstallation): Option<PathBuf> {
      match vmm.apiSocket
      case Disabled => None
      case Enabled(path) => Some(JailPath(installation).JailJoin(Parse(path)))
    }

    function InnerToOuter(installation: VmmInstallation, inner: PathBuf): PathBuf {
      JailPath(installation).JailJoin(inner)
    }
  }

  /** `FlatJailRenamer`: the file name, directly below the root of the jail. */
  function FlatRename(outer: PathBuf): Result<PathBuf, RenamerError> {
    match outer.FileName()
    case None => Err(PathHasNoFilename)
    case Some(name) => Ok(PathBuf(true, [name]))
  }

  /** `MappingJailRenamer` with its lookup table. */
  function MappingRename(mappings: map<PathBuf, PathBuf>): Renamer {
    outer => if outer in mappings then Ok(mappings[outer]) else Err(PathIsUnmapped(outer))
  }

  // ---------------------------------------------------------------- the empty jail

  /** The base directory and an empty directory at `jail`, in place of whatever was there. */
  function ClearedJail(t: Tree, base: Key, jail: Key): Option<Tree> {
    var based :- if base in t then Some(t) else TryMkdirAll(t, base);
    var cleared :- if jail !in based then Some(based)
                   else if IsDir(based, jail) then Some(RemoveTree(based, jail)) else None;
    TryMkdirAll(cleared, jail)
  }

  /** What the executor's own arguments need inside the jail. */
  function WithArguments(e: JailedExecutor, t: Tree, jail: Key): Option<Tree> {
    var socketed :- WithSocketParent(e.vmm.apiSocket, t, jail);
    var logged :- WithFile(e.vmm.logPath, socketed, jail);
    WithFile(e.vmm.metricsPath, logged, jail)
  }

  /** The jail before any resource is moved in, built in the tree `t`; `jail` is where its root resolves to. */
  function EmptyJail(e: JailedExecutor, t: Tree, base: Key, jail: Key): Option<Tree> {
    var rooted :- ClearedJail(t, base, jail);
    WithArguments(e, rooted, jail)
  }

  function WithSocketParent(socket: ApiSocket, t: Tree, jail: Key): Option<Tree> {
    match socket
    case Disabled => Some(t)
    case Enabled(path) =>
      match Parse(path).Parent()
      case None => Some(t)
      case Some(parent) => TryMkdirAll(t, jail + parent.parts)
  }

  function WithFile(path: Option<string>, t: Tree, jail: Key): Option<Tree> {
    match path
    case None => Some(t)
    case Some(p) => TryCreateWithTree(t, jail + Parse(p).parts, false)
  }

  /** The files `prepare` itself creates inside the jail. */
  function ArgumentFiles(e: JailedExecutor, jail: Key): set<Key> {
    FileKeys(e.vmm.logPath, jail) + FileKeys(e.vmm.metricsPath, jail)
  }

  lemma JailPathShape(e: JailedExecutor, installation: VmmInstallation)
    ensures var jail := e.JailPath(installation);
            jail.parts != [] && jail.parts[|jail.parts| - 1] == "root" && jail.Parent().Some?
  {
  }

  /** For an identifier that is one component the jail is base/exec/id/root. */
  lemma JailPathOfPlainId(e: JailedExecutor, installation: VmmInstallation)
    requires IsComponent(e.jailer.jailId)
    ensures e.JailPath(installation)
            == PathBuf(e.BaseDir().rooted,
                       e.BaseDir().parts + [e.ExecName(installation), e.jailer.jailId, "root"])
  {
    ParseOfComponent(e.jailer.jailId);
  }

  lemma ResolveJailJoin(cwd: Key, jail: PathBuf, inner: PathBuf)
    ensures Resolve(cwd, jail.JailJoin(inner)) == Resolve(cwd, jail) + inner.parts
  {
  }

  /** There are no files below `jail` yet. */
  ghost predicate NoFilesBelow(d: Disk, jail: Key) {
    forall k :: k in d.inodes ==> !(jail <= k)
  }

  lemma MadeJailIsEmpty(d: Disk, jail: Key)
    requires jail !in d.tree && CanMkdirAll(d.tree, jail)
    ensures NoFilesBelow(AddDirs(d, jail), jail)
  {
    NothingBelowAbsent(d.tree, jail);
  }

  method ClearJail(e: JailedExecutor, host: Host, installation: VmmInstallation) returns (error: Option<ExecutorError>)
    modifies host
    ensures error == None ==>
              ClearedJail(old(host.disk).tree, host.At(e.BaseDir()), host.At(e.JailPath(installation)))
              == Some(host.disk.tree)
    ensures error == None ==> NoFilesBelow(host.disk, host.At(e.JailPath(installation)))
    ensures host.obliging ==>
              (error == None
               <==> ClearedJail(old(host.disk).tree, host.At(e.BaseDir()), host.At(e.JailPath(installation))).Some?)
  {
    var base, jail := e.BaseDir(), e.JailPath(installation);
    JailPathShape(e, installation);
    var found := host.TryExists(base);
    if found.None? {
      return Some(IoError);
    }
    var ok := true;
    if !found.value {
      ok := host.CreateDirAll(base);
      if !ok {
        return Some(ShellCommandFailed);
      }
    }
    ok := host.ForceChown(base);
    if !ok {
      return Some(ShellCommandFailed);
    }
    found := host.TryExists(jail);
    if found.None? {
      return Some(IoError);
    }
    if found.value {
      ok := host.RemoveDirAll(jail);
      if !ok {
        return Some(IoError);
      }
    }
    ghost var cleared := host.disk;
    ok := host.CreateDirAll(jail);
    if !ok {
      return Some(IoError);
    }
    MadeJailIsEmpty(cleared, host.At(jail));
    error := None;
  }

  method CreateArgumentFile(host: Host, jail: PathBuf, path: Option<string>) returns (ok: bool)
    requires jail.parts != [] && SoleBelow(host.disk, host.At(jail))
    modifies host
    ensures ok ==> WithFile(path, old(host.disk).tree, host.At(jail)) == Some(host.disk.tree)
    ensures host.obliging ==> (ok <==> WithFile(path, old(host.disk).tree, host.At(jail)).Some?)
    ensures ok ==> SoleBelow(host.disk, host.At(jail))
  {
    ok := true;
    if path.Some? {
      ghost var d, k := host.disk, host.At(jail) + Parse(path.value).parts;
      ResolveJailJoin(host.cwd, jail, Parse(path.value));
      ok := host.CreateFileWithTree(jail.JailJoin(Parse(path.value)), false);
      if ok {
        SoleAt(d, host.At(jail), k);
        CreateSole(d, k, false);
        CreateKeepsSole(d, k, false, host.At(jail));
      }
    }
  }

  lemma SoleAt(d: Disk, root: Key, k: Key)
    requires SoleBelow(d, root) && root <= k
    ensures HasOneName(d, k)
  {
  }

  method AddArguments(e: JailedExecutor, host: Host, jail: PathBuf) returns (error: Option<ExecutorError>)
    requires jail.parts != [] && SoleBelow(host.disk, host.At(jail))
    modifies host
    ensures error == None ==> WithArguments(e, old(host.disk).tree, host.At(jail)) == Some(host.disk.tree)
    ensures host.obliging ==> (error == None <==> WithArguments(e, old(host.disk).tree, host.At(jail)).Some?)
    ensures error == None ==> SoleBelow(host.disk, host.At(jail))
  {
    error := Some(IoError);
    if e.vmm.apiSocket.Enabled? {
      var parent := Parse(e.vmm.apiSocket.path).Parent();
      if parent.Some? {
        ResolveJailJoin(host.cwd, jail, parent.value);
        var made := host.CreateDirAll(jail.JailJoin(parent.value));
        if !made {
          return;
        }
      }
    }
    var ok := CreateArgumentFile(host, jail, e.vmm.logPath);
    if !ok {
      return;
    }
    ok := CreateArgumentFile(host, jail, e.vmm.metricsPath);
    if ok {
      error := None;
    }
  }

  // ---------------------------------------------------------------- moving in the resources

  /** The tasks the loop spawns for the resources, in order. */
  function JobsFor(cwd: Key, jail: Key, renamer: Renamer, outer: seq<PathBuf>): seq<Job>
    requires forall p :: p in outer ==> renamer(p).Ok?
  {
    seq(|outer|, i requires 0 <= i < |outer| =>
      Job(Resolve(cwd, outer[i]), jail + renamer(outer[i]).value.parts))
  }

  /** The mapping the executor returns: every outer path to its name inside the jail. */
  ghost predicate MapsByRenamer(renamer: Renamer, outer: seq<PathBuf>, mappings: map<PathBuf, PathBuf>) {
    && (forall p :: p in mappings <==> p in outer)
    && (forall p :: p in mappings ==> renamer(p) == Ok(mappings[p]))
  }

  /** All targets are inside the jail. */
  predicate JobsBelow(jail: Key, jobs: seq<Job>) {
    forall i :: 0 <= i < |jobs| ==> jobs[i].target != [] && jail <= jobs[i].target
  }

  /** Names are accounted for, unless a copy after a refused link has a source that is a target. */
  predicate NamesAreKnown(how: MoveMethod, jobs: seq<Job>) {
    how == ByHardLinkWithCopyFallback ==> SourcesApart(JobSet(jobs))
  }

  /** What is known of a staging that began on the disk `d0`, while its tasks run and when they have finished. */
  ghost predicate Progress(how: MoveMethod, d0: Disk, jail: Key, jobs: seq<Job>, s: State) {
    && WellFormedPhases(jobs, s.phases)
    && JobsBelow(jail, jobs)
    && (NamesAreKnown(how, jobs) ==> NamesAccounted(how, d0, jobs, s))
    && (StaysBelow(how, jobs) ==> Framed(d0.tree, jail, s.disk.tree))
    && (RaceFree(how, jobs) ==> Accounted(how, d0.tree, jobs, s.disk.tree, s.phases))
  }

  lemma BelowIsOwned(d0: Disk, jail: Key, jobs: seq<Job>)
    requires SoleBelow(d0, jail) && JobsBelow(jail, jobs)
    ensures TargetsOwned(d0, jobs)
  {
    forall i | 0 <= i < |jobs|
      ensures HasOneName(d0, jobs[i].target)
    {
      SoleAt(d0, jail, jobs[i].target);
    }
  }

  lemma ProgressOfAction(how: MoveMethod, d0: Disk, jail: Key, jobs: seq<Job>, s: State, i: nat, s': State)
    requires SoleBelow(d0, jail) && Progress(how, d0, jail, jobs, s) && TaskStep(how, jobs, s, i, s')
    ensures Progress(how, d0, jail, jobs, s') && Work(jobs, s'.phases) < Work(jobs, s.phases)
  {
    BelowIsOwned(d0, jail, jobs);
    WorkOfAction(how, jobs, s, i, s');
    if NamesAreKnown(how, jobs) {
      StepKeepsNames(how, d0, jobs, s, i, s');
    }
    if StaysBelow(how, jobs) {
      ActionsStayBelow(how, d0, jobs, s, i, s', d0.tree, jail);
    }
    if RaceFree(how, jobs) {
      StepKeepsAccounts(how, d0, jobs, s, i, s');
    }
  }

  lemma WorkOfAction(how: MoveMethod, jobs: seq<Job>, s: State, i: nat, s': State)
    requires WellFormedPhases(jobs, s.phases) && TaskStep(how, jobs, s, i, s')
    ensures WellFormedPhases(jobs, s'.phases) && Work(jobs, s'.phases) < Work(jobs, s.phases)
  {
    ActionsUseUpWork(how, jobs[i], s.disk, s.phases[i], s'.disk, s'.phases[i]);
    WorkDecreases(jobs, s.phases, i, s'.phases[i]);
  }

  lemma FewerJobsRaceLess(how: MoveMethod, jobs: seq<Job>, job: Job)
    ensures RaceFree(how, jobs + [job]) ==> RaceFree(how, jobs)
    ensures StaysBelow(how, jobs + [job]) ==> StaysBelow(how, jobs)
    ensures NamesAreKnown(how, jobs + [job]) ==> NamesAreKnown(how, jobs)
  {
    var more := jobs + [job];
    assert JobSet(jobs) <= JobSet(more);
    assert forall i :: 0 <= i < |jobs| ==> more[i] == jobs[i];
  }

  lemma ProgressOfSpawn(how: MoveMethod, d0: Disk, jail: Key, jobs: seq<Job>, s: State, job: Job)
    requires Progress(how, d0, jail, jobs, s) && jail <= job.target && job.target != []
    ensures Progress(how, d0, jail, jobs + [job], State(s.disk, s.phases + [MakingParents(0)]))
  {
    var more := jobs + [job];
    FewerJobsRaceLess(how, jobs, job);
    KeysOfSpawn(jobs, s.phases, job);
    if NamesAreKnown(how, more) {
      SpawnKeepsNames(how, d0, jobs, s, job);
    }
    if RaceFree(how, more) {
      SpawnKeepsAccounts(how, d0.tree, jobs, s.disk.tree, s.phases, job);
    }
  }

  /** One action of one task, whichever the operating system lets happen. */
  method Act(host: Host, how: MoveMethod, job: Job, phase: Phase) returns (phase': Phase)
    requires WellPhased(job, phase) && Running(phase)
    modifies host
    ensures Advances(how, job, old(host.disk), phase, host.disk, phase')
    ensures host.obliging && CanAct(how, job, old(host.disk).tree, phase) ==> !phase'.Failed?
  {
    var refused := host.Refuses();
    phase' := Failed(Depth(job, phase), phase.Filling?);
    match phase {
      case MakingParents(made) =>
        var k := job.target[..made];
        if refused {
        } else if IsDir(host.disk.tree, k) {
          phase' := NextLevel(job, made);
        } else if k != [] && k !in host.disk.tree && IsDir(host.disk.tree, Up(k)) {
          host.disk := AddDir(host.disk, k);
          phase' := NextLevel(job, made);
        }
      case Transferring =>
        if how == ByCopy {
          if !refused && CanCopy(host.disk.tree, job.source, job.target) {
            host.disk := Open(host.disk, job.target);
            phase' := Filling;
          }
        } else if !refused && CanLink(host.disk.tree, job.source, job.target) {
          host.disk := AddName(host.disk, job.source, job.target);
          phase' := Finished;
        } else if how == ByHardLinkWithCopyFallback {
          phase' := FallingBack;
        }
      case FallingBack =>
        if !refused && CanCopy(host.disk.tree, job.source, job.target) {
          host.disk := Open(host.disk, job.target);
          phase' := Filling;
        }
      case Filling =>
        if IsFile(host.disk.tree, job.target) {
          if !refused && IsFile(host.disk.tree, job.source) {
            host.disk := Write(host.disk, job.target, host.disk.tree[job.source].content);
            phase' := Finished;
          } else {
            var part: string := *;
            host.disk := Write(host.disk, job.target, part);
          }
        }
    }
  }

  /** There is room for the tasks, they do not race, and none of them has failed. */
  ghost predicate Smooth(how: MoveMethod, d0: Disk, jobs: seq<Job>, phases: seq<Phase>) {
    HasRoom(how, d0.tree, jobs) && RaceFree(how, jobs) && NoneFailed(phases)
  }

  lemma SmoothCanAct(how: MoveMethod, d0: Disk, jail: Key, jobs: seq<Job>, s: State, i: nat)
    requires Progress(how, d0, jail, jobs, s) && i < |jobs| && Running(s.phases[i])
    ensures Smooth(how, d0, jobs, s.phases) ==> CanAct(how, jobs[i], s.disk.tree, s.phases[i])
  {
    if Smooth(how, d0, jobs, s.phases) {
      TasksCanAct(how, d0.tree, jobs, s.disk, s.phases, i);
    }
  }

  /** One task moves. */
  method MoveTask(host: Host, how: MoveMethod, ghost d0: Disk, ghost jail: Key, jobs: seq<Job>, before: seq<Phase>,
                  i: nat)
    returns (phases: seq<Phase>)
    requires SoleBelow(d0, jail) && Progress(how, d0, jail, jobs, State(host.disk, before))
    requires i < |before| && Running(before[i])
    modifies host
    ensures Progress(how, d0, jail, jobs, State(host.disk, phases)) && Work(jobs, phases) < Work(jobs, before)
    ensures host.obliging && Smooth(how, d0, jobs, before) ==> Smooth(how, d0, jobs, phases)
  {
    ghost var s := State(host.disk, before);
    SmoothCanAct(how, d0, jail, jobs, s, i);
    var phase' := Act(host, how, jobs[i], before[i]);
    phases := before[i := phase'];
    ProgressOfAction(how, d0, jail, jobs, s, i, State(host.disk, phases));
  }

  /** The tasks run for a while: any number of actions, each of any task that is still running. */
  method RunTasks(host: Host, how: MoveMethod, ghost d0: Disk, ghost jail: Key, jobs: seq<Job>, before: seq<Phase>)
    returns (phases: seq<Phase>)
    requires SoleBelow(d0, jail) && Progress(how, d0, jail, jobs, State(host.disk, before))
    modifies host
    ensures Progress(how, d0, jail, jobs, State(host.disk, phases))
    ensures host.obliging && Smooth(how, d0, jobs, before) ==> Smooth(how, d0, jobs, phases)
  {
    phases := before;
    var steps: nat := *;
    while steps > 0
      invariant Progress(how, d0, jail, jobs, State(host.disk, phases))
      invariant host.obliging && Smooth(how, d0, jobs, before) ==> Smooth(how, d0, jobs, phases)
    {
      var i: int := *;
      if 0 <= i < |phases| && Running(phases[i]) {
        phases := MoveTask(host, how, d0, jail, jobs, phases, i);
      }
      steps := steps - 1;
    }
  }

  /** `join_next` until the set is empty: fails as soon as a failed task is joined. */
  method JoinTasks(host: Host, how: MoveMethod, ghost d0: Disk, ghost jail: Key, jobs: seq<Job>, before: seq<Phase>)
    returns (ok: bool, phases: seq<Phase>)
    requires SoleBelow(d0, jail) && Progress(how, d0, jail, jobs, State(host.disk, before))
    modifies host
    ensures Progress(how, d0, jail, jobs, State(host.disk, phases))
    ensures ok ==> AllFinished(phases)
    ensures host.obliging && Smooth(how, d0, jobs, before) ==> ok
  {
    phases := before;
    while exists i :: 0 <= i < |phases| && Running(phases[i])
      invariant Progress(how, d0, jail, jobs, State(host.disk, phases))
      invariant host.obliging && Smooth(how, d0, jobs, before) ==> Smooth(how, d0, jobs, phases)
      decreases Work(jobs, phases)
    {
      var i :| 0 <= i < |phases| && Running(phases[i]);
      phases := MoveTask(host, how, d0, jail, jobs, phases, i);
      var joinsFailure: bool := *;
      if joinsFailure && phases[i].Failed? {
        return false, phases;
      }
    }
    ok := forall i :: 0 <= i < |phases| ==> phases[i].Finished?;
  }

  ghost predicate AllRenamed(renamer: Renamer, outer: seq<PathBuf>) {
    forall p :: p in outer ==> renamer(p).Ok?
  }

  lemma JobsForSnoc(cwd: Key, jail: Key, renamer: Renamer, outer: seq<PathBuf>, i: nat)
    requires i < |outer| && AllRenamed(renamer, outer[..i]) && renamer(outer[i]).Ok?
    ensures AllRenamed(renamer, outer[..i + 1])
    ensures JobsFor(cwd, jail, renamer, outer[..i + 1])
            == JobsFor(cwd, jail, renamer, outer[..i])
               + [Job(Resolve(cwd, outer[i]), jail + renamer(outer[i]).value.parts)]
  {
    assert outer[..i + 1] == outer[..i] + [outer[i]];
  }

  lemma NothingSpawned(how: MoveMethod, jail: Key, d: Disk)
    requires forall j :: j <= jail ==> IsDir(d.tree, j)
    ensures Progress(how, d, jail, [], State(d, []))
  {
    SpawnedIsAccounted(how, d.tree, [], d.tree, []);
    SpawnedNames(how, d, [], State(d, []));
  }

  /**
   * The outcome of moving `outer` into the jail at `jail` of the tree `t0`.  Tasks that do not race leave the tree of
   * the loop, and unless a copy may follow a link, nothing outside the jail changes even if they do.
   */
  ghost predicate MovedIn(how: MoveMethod, cwd: Key, jail: Key, renamer: Renamer, outer: seq<PathBuf>, t0: Tree,
                          d: Disk) {
    && AllRenamed(renamer, outer)
    && (var jobs := JobsFor(cwd, jail, renamer, outer);
        && (StaysBelow(how, jobs) ==> Framed(t0, jail, d.tree))
        && (RaceFree(how, jobs) ==> StageAll(t0, jobs) == Some(d.tree) && Staged(t0, JobSet(jobs), d.tree)))
    && (how == ByCopy ==> SoleBelow(d, jail))
  }

  /** Copies give every file in the jail an inode of its own. */
  lemma CopiesAreSole(d0: Disk, jail: Key, jobs: seq<Job>, s: State)
    requires SoleBelow(d0, jail) && NamesAccounted(ByCopy, d0, jobs, s)
    ensures SoleBelow(s.disk, jail)
  {
    forall k, j | k in s.disk.inodes && jail <= k && j in s.disk.inodes && j != k
      ensures !SameFile(s.disk, j, k)
    {
      assert NameAccounted(ByCopy, d0, jobs, s, k) && NameAccounted(ByCopy, d0, jobs, s, j);
      if k in d0.inodes && j in d0.inodes {
        assert HasOneName(d0, k);
      }
    }
  }

  /** One resource before its task is spawned: it has to exist and to have a name inside the jail. */
  method CheckResource(e: JailedExecutor, host: Host, path: PathBuf) returns (r: Result<PathBuf, ExecutorError>)
    ensures r.Ok? ==> e.renamer(path) == Ok(r.value) && host.At(path) in host.disk.tree
    ensures r.Err? && r.error.JailRenamerFailed? ==> e.renamer(path) == Err(r.error.error)
    ensures r.Err? && r.error.ExpectedResourceMissing? ==> r.error.path == path && host.At(path) !in host.disk.tree
    ensures host.obliging ==> (r.Ok? <==> host.At(path) in host.disk.tree && e.renamer(path).Ok?)
  {
    var found := host.TryExists(path);
    if found.None? {
      return Err(IoError);
    }
    if !found.value {
      return Err(ExpectedResourceMissing(path));
    }
    var owned := host.ForceChown(path);
    if !owned {
      return Err(ShellCommandFailed);
    }
    var inner := e.renamer(path);
    r := match inner case Ok(p) => Ok(p) case Err(error) => Err(JailRenamerFailed(error));
  }

  lemma MapsOneMore(renamer: Renamer, outer: seq<PathBuf>, i: nat, mappings: map<PathBuf, PathBuf>)
    requires i < |outer| && MapsByRenamer(renamer, outer[..i], mappings) && renamer(outer[i]).Ok?
    ensures MapsByRenamer(renamer, outer[..i + 1], mappings[outer[i] := renamer(outer[i]).value])
  {
    assert outer[..i + 1] == outer[..i] + [outer[i]];
  }

  /** Every resource has a name inside, there is room for it, and the tasks do not race. */
  ghost predicate CanStage(e: JailedExecutor, cwd: Key, jail: Key, outer: seq<PathBuf>, t0: Tree) {
    && AllRenamed(e.renamer, outer)
    && HasRoom(e.moveMethod, t0, JobsFor(cwd, jail, e.renamer, outer))
    && RaceFree(e.moveMethod, JobsFor(cwd, jail, e.renamer, outer))
  }

  lemma StagesSoFar(e: JailedExecutor, cwd: Key, jail: Key, outer: seq<PathBuf>, t0: Tree, i: nat)
    requires i <= |outer| && CanStage(e, cwd, jail, outer, t0)
    ensures CanStage(e, cwd, jail, outer[..i], t0)
  {
    PrefixHasRoom(e.moveMethod, t0, JobsFor(cwd, jail, e.renamer, outer), i);
    assert JobsFor(cwd, jail, e.renamer, outer)[..i] == JobsFor(cwd, jail, e.renamer, outer[..i]);
  }

  lemma RenamesNext(e: JailedExecutor, cwd: Key, jail: Key, outer: seq<PathBuf>, d0: Disk, i: nat)
    requires i < |outer|
    ensures CanStage(e, cwd, jail, outer, d0.tree) ==> e.renamer(outer[i]).Ok?
  {
  }

  /** The next resource is still where it was. */
  lemma NextIsThere(e: JailedExecutor, cwd: Key, jail: Key, outer: seq<PathBuf>, d0: Disk, i: nat, s: State)
    requires i < |outer| && AllRenamed(e.renamer, outer[..i])
    requires Progress(e.moveMethod, d0, jail, JobsFor(cwd, jail, e.renamer, outer[..i]), s)
    ensures CanStage(e, cwd, jail, outer, d0.tree) ==> Resolve(cwd, outer[i]) in s.disk.tree
  {
    if CanStage(e, cwd, jail, outer, d0.tree) {
      StagesSoFar(e, cwd, jail, outer, d0.tree, i);
      assert FitsAlone(d0.tree, JobsFor(cwd, jail, e.renamer, outer)[i]);
    }
  }

  lemma SmoothSpawn(e: JailedExecutor, cwd: Key, jail: Key, outer: seq<PathBuf>, d0: Disk, i: nat, phases: seq<Phase>)
    requires i <= |outer| && AllRenamed(e.renamer, outer[..i])
    ensures CanStage(e, cwd, jail, outer, d0.tree) && NoneFailed(phases) ==>
              Smooth(e.moveMethod, d0, JobsFor(cwd, jail, e.renamer, outer[..i]), phases)
  {
    if CanStage(e, cwd, jail, outer, d0.tree) {
      StagesSoFar(e, cwd, jail, outer, d0.tree, i);
    }
  }

  lemma SpawnedHasNotFailed(how: MoveMethod, d0: Disk, jobs: seq<Job>, phases: seq<Phase>)
    ensures Smooth(how, d0, jobs, phases) ==> NoneFailed(phases + [MakingParents(0)])
  {
  }

  /** A task for the next resource, whose name inside is `inner`, joins the others. */
  lemma NextIsSpawned(e: JailedExecutor, cwd: Key, jail: PathBuf, outer: seq<PathBuf>, i: nat, d0: Disk, s: State,
                      inner: PathBuf)
    requires jail.parts != [] && i < |outer| && AllRenamed(e.renamer, outer[..i]) && e.renamer(outer[i]) == Ok(inner)
    requires Progress(e.moveMethod, d0, Resolve(cwd, jail), JobsFor(cwd, Resolve(cwd, jail), e.renamer, outer[..i]), s)
    ensures AllRenamed(e.renamer, outer[..i + 1])
    ensures var before := JobsFor(cwd, Resolve(cwd, jail), e.renamer, outer[..i]);
            var jobs := before + [Job(Resolve(cwd, outer[i]), Resolve(cwd, jail.JailJoin(inner)))];
            && jobs == JobsFor(cwd, Resolve(cwd, jail), e.renamer, outer[..i + 1])
            && Progress(e.moveMethod, d0, Resolve(cwd, jail), jobs, State(s.disk, s.phases + [MakingParents(0)]))
  {
    var before := JobsFor(cwd, Resolve(cwd, jail), e.renamer, outer[..i]);
    ResolveJailJoin(cwd, jail, inner);
    JobsForSnoc(cwd, Resolve(cwd, jail), e.renamer, outer, i);
    ProgressOfSpawn(e.moveMethod, d0, Resolve(cwd, jail), before, s,
                    Job(Resolve(cwd, outer[i]), Resolve(cwd, jail.JailJoin(inner))));
  }

  /** One resource: while earlier tasks run, it is checked and renamed, and a task is spawned for it. */
  method SpawnNext(e: JailedExecutor, host: Host, jail: PathBuf, outer: seq<PathBuf>, i: nat, ghost d0: Disk,
                   before: seq<Job>, running: seq<Phase>)
    returns (r: Result<PathBuf, ExecutorError>, jobs: seq<Job>, phases: seq<Phase>)
    requires jail.parts != [] && SoleBelow(d0, host.At(jail)) && i < |outer| && AllRenamed(e.renamer, outer[..i])
    requires before == JobsFor(host.cwd, host.At(jail), e.renamer, outer[..i])
    requires Progress(e.moveMethod, d0, host.At(jail), before, State(host.disk, running))
    modifies host
    ensures r.Ok? ==> e.renamer(outer[i]) == Ok(r.value) && AllRenamed(e.renamer, outer[..i + 1])
                      && jobs == JobsFor(host.cwd, host.At(jail), e.renamer, outer[..i + 1])
                      && Progress(e.moveMethod, d0, host.At(jail), jobs, State(host.disk, phases))
    ensures host.obliging && CanStage(e, host.cwd, host.At(jail), outer, d0.tree) && NoneFailed(running) ==>
              r.Ok? && NoneFailed(phases)
  {
    ghost var root := host.At(jail);
    SmoothSpawn(e, host.cwd, root, outer, d0, i, running);
    phases := RunTasks(host, e.moveMethod, d0, root, before, running);
    SpawnedHasNotFailed(e.moveMethod, d0, before, phases);
    NextIsThere(e, host.cwd, root, outer, d0, i, State(host.disk, phases));
    RenamesNext(e, host.cwd, root, outer, d0, i);
    r := CheckResource(e, host, outer[i]);
    jobs := before;
    if r.Ok? {
      NextIsSpawned(e, host.cwd, jail, outer, i, d0, State(host.disk, phases), r.value);
      jobs := jobs + [Job(host.At(outer[i]), host.At(jail.JailJoin(r.value)))];
      phases := phases + [MakingParents(0)];
    }
  }

  /** The loop over the resources: check, rename, record, spawn; the spawned tasks run all the while. */
  method SpawnTasks(e: JailedExecutor, host: Host, jail: PathBuf, outer: seq<PathBuf>, ghost d0: Disk)
    returns (r: Result<map<PathBuf, PathBuf>, ExecutorError>, jobs: seq<Job>, phases: seq<Phase>)
    requires jail.parts != [] && d0 == host.disk && SoleBelow(d0, host.At(jail))
    requires forall j :: j <= host.At(jail) ==> IsDir(host.disk.tree, j)
    modifies host
    ensures r.Ok? ==> MapsByRenamer(e.renamer, outer, r.value) && AllRenamed(e.renamer, outer)
    ensures r.Ok? ==> jobs == JobsFor(host.cwd, host.At(jail), e.renamer, outer)
    ensures r.Ok? ==> Progress(e.moveMethod, d0, host.At(jail), jobs, State(host.disk, phases))
    ensures host.obliging && CanStage(e, host.cwd, host.At(jail), outer, d0.tree) ==> r.Ok? && NoneFailed(phases)
  {
    var mappings: map<PathBuf, PathBuf> := map[];
    jobs, phases := [], [];
    ghost var root := host.At(jail);
    NothingSpawned(e.moveMethod, root, d0);
    var i := 0;
    while i < |outer|
      invariant 0 <= i <= |outer|
      invariant AllRenamed(e.renamer, outer[..i]) && jobs == JobsFor(host.cwd, root, e.renamer, outer[..i])
      invariant MapsByRenamer(e.renamer, outer[..i], mappings)
      invariant Progress(e.moveMethod, d0, root, jobs, State(host.disk, phases))
      invariant host.obliging && CanStage(e, host.cwd, root, outer, d0.tree) ==> NoneFailed(phases)
    {
      var inner;
      inner, jobs, phases := SpawnNext(e, host, jail, outer, i, d0, jobs, phases);
      if inner.Err? {
        return Err(inner.error), jobs, phases;
      }
      MapsOneMore(e.renamer, outer, i, mappings);
      mappings := mappings[outer[i] := inner.value];
      i := i + 1;
    }
    assert outer[..|outer|] == outer;
    r := Ok(mappings);
  }

  method StageResources(e: JailedExecutor, host: Host, jail: PathBuf, outer: seq<PathBuf>)
    returns (r: Result<map<PathBuf, PathBuf>, ExecutorError>)
    requires jail.parts != [] && SoleBelow(host.disk, host.At(jail))
    requires forall j :: j <= host.At(jail) ==> IsDir(host.disk.tree, j)
    modifies host
    ensures r.Ok? ==> MapsByRenamer(e.renamer, outer, r.value)
    ensures r.Ok? ==> MovedIn(e.moveMethod, host.cwd, host.At(jail), e.renamer, outer, old(host.disk).tree, host.disk)
    ensures host.obliging && CanStage(e, host.cwd, host.At(jail), outer, old(host.disk).tree) ==> r.Ok?
  {
    ghost var d0 := host.disk;
    var jobs, phases;
    r, jobs, phases := SpawnTasks(e, host, jail, outer, d0);
    if r.Err? {
      return;
    }
    var ok, joined := JoinTasks(host, e.moveMethod, d0, host.At(jail), jobs, phases);
    if !ok {
      return Err(IoError);
    }
    if RaceFree(e.moveMethod, jobs) {
      FinishedIsLoop(e.moveMethod, d0.tree, jobs, host.disk.tree, joined);
    }
    if e.moveMethod == ByCopy {
      CopiesAreSole(d0, host.At(jail), jobs, State(host.disk, joined));
    }
  }

  /** `prepare` of the jailed executor. */
  method Prepare(e: JailedExecutor, host: Host, installation: VmmInstallation, outer: seq<PathBuf>)
    returns (r: Result<map<PathBuf, PathBuf>, ExecutorError>)
    modifies host
    ensures r.Ok? ==> MapsByRenamer(e.renamer, outer, r.value)
    ensures r.Ok? ==> Prepared(e, host.cwd, installation, outer, old(host.disk), host.disk)
    ensures host.obliging && CanPrepare(e, host.cwd, installation, outer, old(host.disk)) ==> r.Ok?
  {
    JailPathShape(e, installation);
    var error := ClearJail(e, host, installation);
    if error.Some? {
      return Err(error.value);
    }
    var jail := e.JailPath(installation);
    error := AddArguments(e, host, jail);
    if error.Some? {
      return Err(error.value);
    }
    EmptyJailShape(e, old(host.disk).tree, host.At(e.BaseDir()), host.At(jail));
    r := StageResources(e, host, jail, outer);
  }

  /** The empty jail can be made, and the resources fit into it. */
  ghost predicate CanPrepare(e: JailedExecutor, cwd: Key, installation: VmmInstallation, outer: seq<PathBuf>,
                             d0: Disk) {
    var base, jail := Resolve(cwd, e.BaseDir()), Resolve(cwd, e.JailPath(installation));
    var empty := EmptyJail(e, d0.tree, base, jail);
    empty.Some? && CanStage(e, cwd, jail, outer, empty.value)
  }

  /** The disk after a successful `prepare`: the empty jail, and the resources moved into it. */
  ghost predicate Prepared(e: JailedExecutor, cwd: Key, installation: VmmInstallation, outer: seq<PathBuf>, d0: Disk,
                           d: Disk) {
    var base, jail := Resolve(cwd, e.BaseDir()), Resolve(cwd, e.JailPath(installation));
    var empty := EmptyJail(e, d0.tree, base, jail);
    empty.Some? && MovedIn(e.moveMethod, cwd, jail, e.renamer, outer, empty.value, d)
  }

  // ---------------------------------------------------------------- the shape of the empty jail

  /** Outside `jail` the tree `u` is the tree `t`, but for new directories on the way to `jail` and to `base`. */
  ghost predicate GrewTowards(t: Tree, base: Key, jail: Key, u: Tree) {
    forall k :: !(jail <= k) ==>
      SameAt(t, u, k) || (k !in t && IsDir(u, k) && (k <= jail || k <= base))
  }

  /** Inside the jail there are directories and, empty, the files among `files`. */
  ghost predicate OnlyArguments(u: Tree, jail: Key, files: set<Key>) {
    forall k :: k in u && jail <= k ==> u[k].Dir? || (k in files && u[k] == File(""))
  }

  ghost predicate RootIsOpen(u: Tree, jail: Key) {
    forall j :: j <= jail ==> IsDir(u, j)
  }

  lemma NothingBelowAbsent(t: Tree, jail: Key)
    requires WellFormed(t) && jail !in t
    ensures forall k :: k in t ==> !(jail <= k)
  {
    forall k | k in t
      ensures !(jail <= k)
    {
      if jail <= k && jail != k {
        AncestorsAreDirs(t, k, jail);
      }
    }
  }

  lemma ClearedJailShape(t: Tree, base: Key, jail: Key)
    requires ClearedJail(t, base, jail).Some?
    ensures var u := ClearedJail(t, base, jail).value;
            && RootIsOpen(u, jail) && GrewTowards(t, base, jail, u)
            && (WellFormed(t) ==> OnlyArguments(u, jail, {}))
  {
    var based := if base in t then t else MkdirAll(t, base);
    var cleared := if jail !in based then based else RemoveTree(based, jail);
    var u := MkdirAll(cleared, jail);
    forall k | !(jail <= k)
      ensures SameAt(t, u, k) || (k !in t && IsDir(u, k) && (k <= jail || k <= base))
    {
    }
    if WellFormed(t) {
      NothingInCleared(t, base, jail);
    }
  }

  lemma NothingInCleared(t: Tree, base: Key, jail: Key)
    requires WellFormed(t) && (base in t || CanMkdirAll(t, base))
    ensures var based := if base in t then t else MkdirAll(t, base);
            var cleared := if jail !in based then based else RemoveTree(based, jail);
            forall k :: k in cleared ==> !(jail <= k)
  {
    var based := if base in t then t else MkdirAll(t, base);
    if base !in t {
      MkdirAllWellFormed(t, base);
    }
    if jail !in based {
      NothingBelowAbsent(based, jail);
    }
  }

  ghost predicate SameOutside(t: Tree, u: Tree, jail: Key) {
    forall k :: !(jail <= k) ==> SameAt(t, u, k)
  }

  /** What building something inside an open jail keeps. */
  ghost predicate BuiltInside(t: Tree, u: Tree, jail: Key, files: set<Key>) {
    && RootIsOpen(u, jail)
    && SameOutside(t, u, jail)
    && (forall before :: OnlyArguments(t, jail, before) ==> OnlyArguments(u, jail, before + files))
  }

  lemma MkdirInside(t: Tree, jail: Key, k: Key)
    requires RootIsOpen(t, jail) && jail <= k && CanMkdirAll(t, k)
    ensures BuiltInside(t, MkdirAll(t, k), jail, {})
  {
    var u := MkdirAll(t, k);
    forall j | !(jail <= j)
      ensures SameAt(t, u, j)
    {
      if j <= k {
        PrefixesCompare(j, jail, k);
        assert IsDir(t, j);
      }
    }
    forall before | OnlyArguments(t, jail, before)
      ensures OnlyArguments(u, jail, before + {})
    {
    }
  }

  lemma CreateInside(t: Tree, jail: Key, k: Key)
    requires RootIsOpen(t, jail) && jail <= k && CanCreate(t, k)
    ensures BuiltInside(t, Create(t, k), jail, {k})
  {
    assert IsDir(t, jail) && k != jail;
    var u := Create(t, k);
    forall j | j <= jail
      ensures IsDir(u, j)
    {
      assert IsDir(t, j);
    }
    forall before | OnlyArguments(t, jail, before)
      ensures OnlyArguments(u, jail, before + {k})
    {
    }
  }

  lemma BuiltInsideTwice(t: Tree, u: Tree, v: Tree, jail: Key, a: set<Key>, b: set<Key>)
    requires BuiltInside(t, u, jail, a) && BuiltInside(u, v, jail, b)
    ensures BuiltInside(t, v, jail, a + b)
  {
    forall k | !(jail <= k)
      ensures SameAt(t, v, k)
    {
      assert SameAt(t, u, k) && SameAt(u, v, k);
    }
    forall before | OnlyArguments(t, jail, before)
      ensures OnlyArguments(v, jail, before + (a + b))
    {
      assert OnlyArguments(u, jail, before + a);
      assert OnlyArguments(v, jail, before + a + b);
      assert before + a + b == before + (a + b);
    }
  }

  lemma NothingBuilt(t: Tree, jail: Key)
    requires RootIsOpen(t, jail)
    ensures BuiltInside(t, t, jail, {})
  {
    forall before | OnlyArguments(t, jail, before)
      ensures OnlyArguments(t, jail, before + {})
    {
      assert before + {} == before;
    }
  }

  function FileKeys(path: Option<string>, jail: Key): set<Key> {
    if path.Some? then {jail + Parse(path.value).parts} else {}
  }

  lemma WithFileShape(path: Option<string>, t: Tree, jail: Key)
    requires RootIsOpen(t, jail) && jail != [] && WithFile(path, t, jail).Some?
    ensures BuiltInside(t, WithFile(path, t, jail).value, jail, FileKeys(path, jail))
  {
    if path.None? {
      NothingBuilt(t, jail);
    } else {
      var parts := Parse(path.value).parts;
      var k := jail + parts;
      var u := MkdirAll(t, Up(k));
      assert IsDir(t, jail);
      assert parts != [] by {
        assert parts == [] ==> k == jail && IsDir(u, jail);
      }
      assert Up(k) == jail + parts[..|parts| - 1];
      MkdirInside(t, jail, Up(k));
      CreateInside(u, jail, k);
      BuiltInsideTwice(t, u, Create(u, k), jail, {}, {k});
      assert {} + {k} == FileKeys(path, jail);
    }
  }

  lemma WithSocketParentShape(socket: ApiSocket, t: Tree, jail: Key)
    requires RootIsOpen(t, jail) && WithSocketParent(socket, t, jail).Some?
    ensures BuiltInside(t, WithSocketParent(socket, t, jail).value, jail, {})
  {
    if socket.Enabled? && Parse(socket.path).Parent().Some? {
      MkdirInside(t, jail, jail + Parse(socket.path).Parent().value.parts);
    } else {
      NothingBuilt(t, jail);
    }
  }

  lemma WithArgumentsShape(e: JailedExecutor, t: Tree, jail: Key)
    requires RootIsOpen(t, jail) && jail != [] && WithArguments(e, t, jail).Some?
    ensures BuiltInside(t, WithArguments(e, t, jail).value, jail, ArgumentFiles(e, jail))
  {
    var socketed := WithSocketParent(e.vmm.apiSocket, t, jail).value;
    var logged := WithFile(e.vmm.logPath, socketed, jail).value;
    var u := WithFile(e.vmm.metricsPath, logged, jail).value;
    WithSocketParentShape(e.vmm.apiSocket, t, jail);
    WithFileShape(e.vmm.logPath, socketed, jail);
    BuiltInsideTwice(t, socketed, logged, jail, {}, FileKeys(e.vmm.logPath, jail));
    WithFileShape(e.vmm.metricsPath, logged, jail);
    BuiltInsideTwice(t, logged, u, jail, {} + FileKeys(e.vmm.logPath, jail), FileKeys(e.vmm.metricsPath, jail));
    assert {} + FileKeys(e.vmm.logPath, jail) + FileKeys(e.vmm.metricsPath, jail) == ArgumentFiles(e, jail);
  }

  lemma GrewThenSame(t: Tree, base: Key, jail: Key, u: Tree, v: Tree)
    requires GrewTowards(t, base, jail, u) && SameOutside(u, v, jail)
    ensures GrewTowards(t, base, jail, v)
  {
    forall k | !(jail <= k)
      ensures SameAt(t, v, k) || (k !in t && IsDir(v, k) && (k <= jail || k <= base))
    {
      assert SameAt(u, v, k);
      assert SameAt(t, u, k) || (k !in t && IsDir(u, k) && (k <= jail || k <= base));
    }
  }

  /** Before the resources come in, the jail holds nothing but directories and the executor's own empty files. */
  lemma EmptyJailShape(e: JailedExecutor, t: Tree, base: Key, jail: Key)
    requires jail != [] && EmptyJail(e, t, base, jail).Some?
    ensures var u := EmptyJail(e, t, base, jail).value;
            && RootIsOpen(u, jail)
            && GrewTowards(t, base, jail, u)
            && (WellFormed(t) ==> OnlyArguments(u, jail, ArgumentFiles(e, jail)))
  {
    ClearedJailShape(t, base, jail);
    var cleared := ClearedJail(t, base, jail).value;
    WithArgumentsShape(e, cleared, jail);
    var u := WithArguments(e, cleared, jail).value;
    GrewThenSame(t, base, jail, cleared, u);
    if WellFormed(t) {
      assert OnlyArguments(u, jail, {} + ArgumentFiles(e, jail));
      assert {} + ArgumentFiles(e, jail) == ArgumentFiles(e, jail);
    }
  }
}
