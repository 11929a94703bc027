/**
 The rewriting of a configuration field by field: which fields it reaches, that each of them becomes its own answer,
 and that all others stay; and what a prepared VM finds at each of them.
 */
module RewrittenFields {
  import opened Wrappers
  import opened Paths
  import opened Configuration
  import opened PathRewriting

  /** Some position of both lists of paths holds these two. */
  ghost predicate AtOnePosition(c: VmConfiguration, d: VmConfiguration, p: PathBuf, q: PathBuf) {
    exists n :: 0 <= n < |ResourcePaths(c)| && PositionHolds(c, d, n, p, q)
  }

  predicate PositionHolds(c: VmConfiguration, d: VmConfiguration, n: nat, p: PathBuf, q: PathBuf)
    requires n < |ResourcePaths(c)|
  {
    n < |ResourcePaths(d)| && ResourcePaths(c)[n] == p && ResourcePaths(d)[n] == q
  }

  /** A path that may be missing, in both or in neither. */
  ghost predicate OptionalAtOnePosition(c: VmConfiguration, d: VmConfiguration, p: Option<PathBuf>, q: Option<PathBuf>)
  {
    (p.Some? <==> q.Some?) && (p.Some? ==> AtOnePosition(c, d, p.value, q.value))
  }

  lemma {:induction false} SameDrivePositions(c: VmConfiguration, d: VmConfiguration, i: nat)
    requires Blank(d) == Blank(c) && i <= |c.data.drives|
    ensures |d.data.drives| == |c.data.drives| && |Before(d.data, i)| == |Before(c.data, i)|
  {
    assert |BlankDrives(d.data.drives)| == |BlankDrives(c.data.drives)|;
    if i == 0 {
      SameBootPositions(c, d);
      assert c.data.drives[..0] == [] && d.data.drives[..0] == [];
    } else {
      SameDrivePositions(c, d, i - 1);
      NextDrivePosition(c, i - 1);
      NextDrivePosition(d, i - 1);
      SameDrive(c, d, i - 1);
    }
  }

  lemma SameBootPositions(c: VmConfiguration, d: VmConfiguration)
    requires Blank(d) == Blank(c)
    ensures d.data.bootSource == c.data.bootSource.(kernelImagePath := d.data.bootSource.kernelImagePath,
                                                    initrdPath := d.data.bootSource.initrdPath)
    ensures d.data.bootSource.initrdPath.Some? <==> c.data.bootSource.initrdPath.Some?
  {
    var a, b := BlankData(c.data).bootSource, BlankData(d.data).bootSource;
    assert a == b;
  }

  /** Of a drive rewriting leaves everything but the path. */
  lemma SameDrive(c: VmConfiguration, d: VmConfiguration, i: nat)
    requires Blank(d) == Blank(c) && i < |c.data.drives|
    ensures |d.data.drives| == |c.data.drives|
    ensures d.data.drives[i] == c.data.drives[i].(pathOnHost := d.data.drives[i].pathOnHost)
    ensures d.data.drives[i].pathOnHost.Some? <==> c.data.drives[i].pathOnHost.Some?
  {
    assert |BlankDrives(d.data.drives)| == |BlankDrives(c.data.drives)|;
    assert BlankDrives(d.data.drives)[i] == BlankDrives(c.data.drives)[i];
  }

  lemma SameDataPositions(c: VmConfiguration, d: VmConfiguration)
    requires Blank(d) == Blank(c)
    ensures |DataPaths(d.data)| == |DataPaths(c.data)|
  {
    var n := |c.data.drives|;
    SameDrivePositions(c, d, n);
    assert c.data.drives[..n] == c.data.drives && d.data.drives[..n] == d.data.drives;
  }

  lemma KernelAndInitrd(c: VmConfiguration, d: VmConfiguration)
    requires Blank(d) == Blank(c)
    ensures AtOnePosition(c, d, c.data.bootSource.kernelImagePath, d.data.bootSource.kernelImagePath)
    ensures OptionalAtOnePosition(c, d, c.data.bootSource.initrdPath, d.data.bootSource.initrdPath)
  {
    SameBootPositions(c, d);
    var a, b := c.data.bootSource, d.data.bootSource;
    assert PositionHolds(c, d, 0, a.kernelImagePath, b.kernelImagePath);
    if a.initrdPath.Some? {
      assert PositionHolds(c, d, 1, a.initrdPath.value, b.initrdPath.value);
    }
  }

  lemma DrivePath(c: VmConfiguration, d: VmConfiguration, i: nat)
    requires Blank(d) == Blank(c) && i < |c.data.drives|
    ensures |d.data.drives| == |c.data.drives|
    ensures OptionalAtOnePosition(c, d, c.data.drives[i].pathOnHost, d.data.drives[i].pathOnHost)
  {
    SameDrive(c, d, i);
    SameDrivePositions(c, d, i);
    NextDrivePosition(c, i);
    NextDrivePosition(d, i);
    if c.data.drives[i].pathOnHost.Some? {
      assert PositionHolds(c, d, |Before(c.data, i)|, c.data.drives[i].pathOnHost.value,
                           d.data.drives[i].pathOnHost.value);
    }
  }

  lemma SnapshotAndMemory(c: VmConfiguration, d: VmConfiguration)
    requires Blank(d) == Blank(c) && c.RestoredFromSnapshot?
    ensures d.RestoredFromSnapshot?
    ensures AtOnePosition(c, d, c.loadSnapshot.snapshotPath, d.loadSnapshot.snapshotPath)
    ensures AtOnePosition(c, d, c.loadSnapshot.backendPath, d.loadSnapshot.backendPath)
  {
    SameDataPositions(c, d);
    var n := |DataPaths(c.data)|;
    assert PositionHolds(c, d, n, c.loadSnapshot.snapshotPath, d.loadSnapshot.snapshotPath);
    assert PositionHolds(c, d, n + 1, c.loadSnapshot.backendPath, d.loadSnapshot.backendPath);
  }

  // ---------------------------------------------------------------- the fields

  /** The path has an answer and the rewritten one is that answer. */
  predicate IsAnswer(all: map<PathBuf, PathBuf>, p: PathBuf, q: PathBuf) {
    p in all && q == all[p]
  }

  predicate IsOptionalAnswer(all: map<PathBuf, PathBuf>, p: Option<PathBuf>, q: Option<PathBuf>) {
    (p.Some? <==> q.Some?) && (p.Some? ==> IsAnswer(all, p.value, q.value))
  }

  predicate BootIsRewritten(all: map<PathBuf, PathBuf>, a: BootSource, b: BootSource) {
    && b.bootArgs == a.bootArgs
    && IsAnswer(all, a.kernelImagePath, b.kernelImagePath) && IsOptionalAnswer(all, a.initrdPath, b.initrdPath)
  }

  ghost predicate DrivesAreRewritten(all: map<PathBuf, PathBuf>, a: seq<Drive>, b: seq<Drive>) {
    && |a| == |b|
    && forall i :: 0 <= i < |a| ==>
         b[i] == a[i].(pathOnHost := b[i].pathOnHost) && IsOptionalAnswer(all, a[i].pathOnHost, b[i].pathOnHost)
  }

  predicate LoadIsRewritten(all: map<PathBuf, PathBuf>, a: LoadSnapshot, b: LoadSnapshot) {
    && b == a.(snapshotPath := b.snapshotPath, backendPath := b.backendPath)
    && IsAnswer(all, a.snapshotPath, b.snapshotPath) && IsAnswer(all, a.backendPath, b.backendPath)
  }

  lemma AnswerAt(c: VmConfiguration, all: map<PathBuf, PathBuf>, d: VmConfiguration, p: PathBuf, q: PathBuf)
    requires IsRewritten(c, all, d) && AtOnePosition(c, d, p, q)
    ensures IsAnswer(all, p, q)
  {
  }

  /**
   * Rewriting gives its own answer to the kernel, the initrd, each drive and, for a restored VM, to snapshot and
   * memory, and leaves every other field as it is.
   */
  lemma RewritingReachesFields(c: VmConfiguration, all: map<PathBuf, PathBuf>, d: VmConfiguration)
    requires IsRewritten(c, all, d)
    ensures BootIsRewritten(all, c.data.bootSource, d.data.bootSource)
    ensures DrivesAreRewritten(all, c.data.drives, d.data.drives)
    ensures d.data == c.data.(bootSource := d.data.bootSource, drives := d.data.drives)
    ensures d.New? <==> c.New?
    ensures c.New? ==> d.initMethod == c.initMethod
    ensures c.RestoredFromSnapshot? ==> LoadIsRewritten(all, c.loadSnapshot, d.loadSnapshot)
  {
    RewrittenBoot(c, all, d);
    RewrittenDrives(c, all, d);
    RewrittenRest(c, d);
    if c.RestoredFromSnapshot? {
      SnapshotAndMemory(c, d);
      AnswerAt(c, all, d, c.loadSnapshot.snapshotPath, d.loadSnapshot.snapshotPath);
      AnswerAt(c, all, d, c.loadSnapshot.backendPath, d.loadSnapshot.backendPath);
    }
  }

  lemma RewrittenRest(c: VmConfiguration, d: VmConfiguration)
    requires Blank(d) == Blank(c)
    ensures d.data == c.data.(bootSource := d.data.bootSource, drives := d.data.drives)
    ensures c.RestoredFromSnapshot? ==>
              d.RestoredFromSnapshot?
              && d.loadSnapshot == c.loadSnapshot.(snapshotPath := d.loadSnapshot.snapshotPath,
                                                   backendPath := d.loadSnapshot.backendPath)
  {
    var a, b := BlankData(c.data), BlankData(d.data);
    assert a == b;
  }

  lemma RewrittenBoot(c: VmConfiguration, all: map<PathBuf, PathBuf>, d: VmConfiguration)
    requires IsRewritten(c, all, d)
    ensures BootIsRewritten(all, c.data.bootSource, d.data.bootSource)
  {
    var a, b := c.data.bootSource, d.data.bootSource;
    SameBootPositions(c, d);
    KernelAndInitrd(c, d);
    AnswerAt(c, all, d, a.kernelImagePath, b.kernelImagePath);
    if a.initrdPath.Some? {
      AnswerAt(c, all, d, a.initrdPath.value, b.initrdPath.value);
    }
  }

  lemma RewrittenDrives(c: VmConfiguration, all: map<PathBuf, PathBuf>, d: VmConfiguration)
    requires IsRewritten(c, all, d)
    ensures DrivesAreRewritten(all, c.data.drives, d.data.drives)
  {
    assert |BlankDrives(d.data.drives)| == |BlankDrives(c.data.drives)|;
    forall i | 0 <= i < |c.data.drives|
      ensures d.data.drives[i] == c.data.drives[i].(pathOnHost := d.data.drives[i].pathOnHost)
      ensures IsOptionalAnswer(all, c.data.drives[i].pathOnHost, d.data.drives[i].pathOnHost)
    {
      SameDrive(c, d, i);
      DrivePath(c, d, i);
      if c.data.drives[i].pathOnHost.Some? {
        AnswerAt(c, all, d, c.data.drives[i].pathOnHost.value, d.data.drives[i].pathOnHost.value);
      }
    }
  }
}
