/** Which snapshot files a VM remembers for its cleanup. */
module SnapshotTraces {
  import opened Paths
  import opened Configuration
  import opened Process
  import opened ProcessRuns
  import opened VmTypes
  import opened Api
  import opened VmMachine
  import opened VmRuns

  /** Both files of the snapshot that a call returned, if it returned one. */
  function FilesOf(x: Context, w: World, e: Event): seq<PathBuf> {
    match e
    case TakeSnapshot(m, r, snapshot, memFile) =>
      (match CreateSnapshot(x, w, m, r, snapshot, memFile).1
       case Ok(data) => [data.snapshotPath, data.memFilePath]
       case Err(_) => [])
    case _ => []
  }

  /** Both files of every snapshot returned in the run, in order. */
  function FilesOfRun(x: Context, w: World, run: seq<Event>): seq<PathBuf> {
    if run == [] then []
    else
      var shorter := run[..|run| - 1];
      FilesOfRun(x, w, shorter) + FilesOf(x, AfterRun(x, w, shorter), run[|run| - 1])
  }

  predicate CleansUp(w: World, e: Event) {
    e.CleanupCall? && CleanUp(w, e.m, e.second, e.cleaned).1.Ok?
  }

  predicate WasCleaned(x: Context, w: World, run: seq<Event>) {
    run != [] && (WasCleaned(x, w, run[..|run| - 1]) || CleansUp(AfterRun(x, w, run[..|run| - 1]), run[|run| - 1]))
  }

  /** A snapshot is described by the outer forms of the requested paths and the data from before the rewriting. */
  lemma SnapshotDescribes(x: Context, w: World, m: Moment, r: Round, snapshot: PathBuf, memFile: PathBuf)
    ensures var (after, result) := CreateSnapshot(x, w, m, r, snapshot, memFile);
            && (result.Ok? <==> VmStateOf(Look(w, m).vm) == Paused
                                && IsAccepted(Observe(w.vm.proc, m), r) && Blank(r.exchange.response.body))
            && (result.Ok? ==>
                  result.value == SnapshotData(x.Outer(snapshot), x.Outer(memFile), w.vm.original))
  {
    OkMeansAccepted(Observe(w.vm.proc, m), r);
  }

  lemma StepOfTraces(x: Context, w: World, e: Event)
    ensures Step(x, w, e).vm.snapshotTraces
            == if w.vm.traceless then w.vm.snapshotTraces
               else if CleansUp(w, e) then []
               else w.vm.snapshotTraces + FilesOf(x, w, e)
  {
    if !e.TakeSnapshot? && !e.CleanupCall? {
      StepKeepsRecord(x, w, e);
    }
  }

  /** After a successful cleanup the process is gone for good, so no snapshot follows. */
  lemma CleanedIsOver(x: Context, w: World, e: Event)
    requires Valid(w.vm.proc)
    ensures CleansUp(w, e) ==> Step(x, w, e).vm.proc.state.Terminal()
    ensures w.vm.proc.state.Terminal() ==> FilesOf(x, w, e) == []
  {
    if e.CleanupCall? {
      LookTwiceEvolves(w.vm.proc, e.m, e.second);
    } else if e.TakeSnapshot? {
      ObserveEvolves(w.vm.proc, e.m);
    }
  }

  lemma {:induction false} CleanedRunIsOver(x: Context, c: VmConfiguration, w: World, run: seq<Event>)
    requires Sound(c, w)
    ensures WasCleaned(x, w, run) ==> AfterRun(x, w, run).vm.proc.state.Terminal()
  {
    if run == [] {
    } else {
      var shorter := run[..|run| - 1];
      var before := AfterRun(x, w, shorter);
      CleanedRunIsOver(x, c, w, shorter);
      RunKeepsSound(x, c, w, shorter);
      CleanedIsOver(x, before, run[|run| - 1]);
      StepEvolves(x, before, run[|run| - 1]);
    }
  }

  /**
   * In every run the remembered files are exactly both files of every snapshot returned so far, in order, until a
   * cleanup removes them; from then on there are none.  A VM whose executor leaves no traces remembers nothing.
   */
  lemma {:induction false} TracesAreTheSnapshots(x: Context, o: Origin, run: seq<Event>)
    ensures var w := Begin(o);
            AfterRun(x, w, run).vm.snapshotTraces
            == if o.traceless || WasCleaned(x, w, run) then [] else FilesOfRun(x, w, run)
  {
    var w := Begin(o);
    if run == [] {
    } else {
      var shorter, e := run[..|run| - 1], run[|run| - 1];
      var before := AfterRun(x, w, shorter);
      TracesAreTheSnapshots(x, o, shorter);
      RunKeepsSound(x, o.configuration, w, shorter);
      StepOfTraces(x, before, e);
      CleanedRunIsOver(x, o.configuration, w, shorter);
      CleanedIsOver(x, before, e);
    }
  }
}
