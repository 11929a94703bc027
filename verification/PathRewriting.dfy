/**
 The two ends of `Vm::prepare_arced` that frame the executor: collecting the host paths of a configuration, and
 rewriting them by taking the executor's answers out of its map one after the other.
 */
module PathRewriting {
  import opened Wrappers
  import opened Paths
  import opened Configuration

  /** The only failure of the rewriting phase. */
  datatype RewriteError = MissingPathMapping

  function OptionalPath(path: Option<PathBuf>): seq<PathBuf> {
    match path
    case None => []
    case Some(p) => [p]
  }

  function DrivePaths(drives: seq<Drive>): seq<PathBuf> {
    if drives == [] then []
    else DrivePaths(drives[..|drives| - 1]) + OptionalPath(drives[|drives| - 1].pathOnHost)
  }

  /** Kernel, initrd, drives: the paths of the data in the order they are collected and rewritten. */
  function DataPaths(data: VmConfigurationData): seq<PathBuf> {
    [data.bootSource.kernelImagePath] + OptionalPath(data.bootSource.initrdPath) + DrivePaths(data.drives)
  }

  function SnapshotPaths(c: VmConfiguration): seq<PathBuf> {
    if c.New? then [] else [c.loadSnapshot.snapshotPath, c.loadSnapshot.backendPath]
  }

  function ResourcePaths(c: VmConfiguration): seq<PathBuf> {
    DataPaths(c.data) + SnapshotPaths(c)
  }

  /** `get_outer_paths`. */
  method CollectOuterPaths(c: VmConfiguration) returns (outer: seq<PathBuf>)
    ensures outer == ResourcePaths(c)
  {
    outer := [c.data.bootSource.kernelImagePath];
    if c.data.bootSource.initrdPath.Some? {
      outer := outer + [c.data.bootSource.initrdPath.value];
    }
    ghost var boot := outer;
    var drives := c.data.drives;
    for i := 0 to |drives|
      invariant outer == boot + DrivePaths(drives[..i])
    {
      assert drives[..i + 1][..i] == drives[..i];
      if drives[i].pathOnHost.Some? {
        outer := outer + [drives[i].pathOnHost.value];
      }
    }
    assert drives[..|drives|] == drives;
    if c.RestoredFromSnapshot? {
      outer := outer + [c.loadSnapshot.snapshotPath];
      outer := outer + [c.loadSnapshot.backendPath];
    }
  }

  // ---------------------------------------------------------------- everything but the paths

  const BLANK := PathBuf(false, [])

  function BlankOptional(path: Option<PathBuf>): Option<PathBuf> {
    match path
    case None => None
    case Some(_) => Some(BLANK)
  }

  function BlankDrives(drives: seq<Drive>): seq<Drive> {
    seq(|drives|, i requires 0 <= i < |drives| => drives[i].(pathOnHost := BlankOptional(drives[i].pathOnHost)))
  }

  function BlankData(data: VmConfigurationData): VmConfigurationData {
    data.(bootSource := data.bootSource.(kernelImagePath := BLANK,
                                         initrdPath := BlankOptional(data.bootSource.initrdPath)),
          drives := BlankDrives(data.drives))
  }

  /** The configuration with its resource paths blotted out: all that rewriting has to leave alone. */
  function Blank(c: VmConfiguration): VmConfiguration {
    match c
    case New(initMethod, data) => New(initMethod, BlankData(data))
    case RestoredFromSnapshot(load, data) =>
      RestoredFromSnapshot(load.(snapshotPath := BLANK, backendPath := BLANK), BlankData(data))
  }

  // ---------------------------------------------------------------- taking answers out of the map

  function PathSet(paths: seq<PathBuf>): set<PathBuf> {
    set p | p in paths
  }

  /** Position `n` can be rewritten: its path has an answer that no earlier position has taken. */
  predicate Answered(paths: seq<PathBuf>, keys: set<PathBuf>, n: nat)
    requires n < |paths|
  {
    paths[n] in keys && paths[n] !in paths[..n]
  }

  /** The first position that cannot be rewritten, or the length. */
  ghost predicate StopsAt(paths: seq<PathBuf>, keys: set<PathBuf>, n: nat) {
    && n <= |paths|
    && (forall i: nat :: i < n ==> Answered(paths, keys, i))
    && (n < |paths| ==> !Answered(paths, keys, n))
  }

  /** The state of the rewriting before position `n`: what was taken, and what is left in the map. */
  ghost predicate Taking(paths: seq<PathBuf>, all: map<PathBuf, PathBuf>, n: nat, got: seq<PathBuf>,
                         left: map<PathBuf, PathBuf>) {
    && n <= |paths| && |got| == n
    && (forall i: nat :: i < n ==> Answered(paths, all.Keys, i))
    && (forall i: nat :: i < n ==> paths[i] in all && got[i] == all[paths[i]])
    && left == all - PathSet(paths[..n])
  }

  /** `path_mappings.remove(path)` for the path at position `n`. */
  method Take(ghost paths: seq<PathBuf>, ghost all: map<PathBuf, PathBuf>, ghost n: nat, ghost got: seq<PathBuf>,
              left: map<PathBuf, PathBuf>, path: PathBuf)
    returns (answer: Option<PathBuf>, left': map<PathBuf, PathBuf>)
    requires n < |paths| && paths[n] == path && Taking(paths, all, n, got, left)
    ensures answer.Some? ==> Taking(paths, all, n + 1, got + [answer.value], left')
    ensures answer.None? ==> StopsAt(paths, all.Keys, n) && left' == left
  {
    assert paths[..n + 1] == paths[..n] + [path];
    if path in left {
      answer, left' := Some(left[path]), left - {path};
      assert left - {path} == all - PathSet(paths[..n + 1]);
    } else {
      answer, left' := None, left;
    }
  }

  /** Where in the list of paths the drives from index `d` on begin. */
  function Before(data: VmConfigurationData, d: nat): seq<PathBuf>
    requires d <= |data.drives|
  {
    [data.bootSource.kernelImagePath] + OptionalPath(data.bootSource.initrdPath) + DrivePaths(data.drives[..d])
  }

  lemma {:induction false} DrivePathsPrefix(drives: seq<Drive>, d: nat)
    requires d <= |drives|
    ensures DrivePaths(drives[..d]) <= DrivePaths(drives)
  {
    if d == |drives| {
      assert drives[..d] == drives;
    } else {
      DrivePathsPrefix(drives[..|drives| - 1], d);
      assert drives[..|drives| - 1][..d] == drives[..d];
    }
  }

  /** A drive with a path occupies the next position of the list. */
  lemma NextDrivePosition(c: VmConfiguration, d: nat)
    requires d < |c.data.drives|
    ensures Before(c.data, d + 1) == Before(c.data, d) + OptionalPath(c.data.drives[d].pathOnHost)
    ensures |Before(c.data, d + 1)| <= |ResourcePaths(c)|
    ensures c.data.drives[d].pathOnHost.Some? ==>
              |Before(c.data, d)| < |ResourcePaths(c)|
              && ResourcePaths(c)[|Before(c.data, d)|] == c.data.drives[d].pathOnHost.value
  {
    var drives := c.data.drives;
    assert drives[..d + 1][..d] == drives[..d];
    DrivePathsPrefix(drives, d + 1);
    var start := |[c.data.bootSource.kernelImagePath] + OptionalPath(c.data.bootSource.initrdPath)|;
    var n := |DrivePaths(drives[..d])|;
    assert DrivePaths(drives[..d + 1]) == DrivePaths(drives[..d]) + OptionalPath(drives[d].pathOnHost);
    if drives[d].pathOnHost.Some? {
      assert DrivePaths(drives)[n] == DrivePaths(drives[..d + 1])[n];
      assert ResourcePaths(c)[start + n] == DrivePaths(drives)[n];
    }
  }

  lemma DrivePathsSnoc(drives: seq<Drive>, drive: Drive)
    ensures DrivePaths(drives + [drive]) == DrivePaths(drives) + OptionalPath(drive.pathOnHost)
  {
    assert (drives + [drive])[..|drives|] == drives;
  }

  /** Kernel and initrd. */
  method RewriteBoot(c: VmConfiguration, all: map<PathBuf, PathBuf>)
    returns (r: Result<BootSource, RewriteError>, left: map<PathBuf, PathBuf>)
    ensures r.Ok? ==>
              && r.value.bootArgs == c.data.bootSource.bootArgs
              && (r.value.initrdPath.Some? <==> c.data.bootSource.initrdPath.Some?)
              && Taking(ResourcePaths(c), all, |Before(c.data, 0)|,
                        [r.value.kernelImagePath] + OptionalPath(r.value.initrdPath), left)
    ensures r.Err? ==> exists n :: StoppedAt(c, all, n, left)
  {
    ghost var paths := ResourcePaths(c);
    var boot := c.data.bootSource;
    assert paths[0] == boot.kernelImagePath;
    assert Taking(paths, all, 0, [], all);
    assert DrivePaths(c.data.drives[..0]) == [];
    var answer;
    answer, left := Take(paths, all, 0, [], all, boot.kernelImagePath);
    if answer.None? {
      assert StoppedAt(c, all, 0, left);
      return Err(MissingPathMapping), left;
    }
    var kernel := answer.value;
    assert [] + [kernel] == [kernel];
    boot := boot.(kernelImagePath := kernel);
    if boot.initrdPath.Some? {
      assert paths[1] == boot.initrdPath.value;
      answer, left := Take(paths, all, 1, [kernel], left, boot.initrdPath.value);
      if answer.None? {
        assert StoppedAt(c, all, 1, left);
        return Err(MissingPathMapping), left;
      }
      boot := boot.(initrdPath := Some(answer.value));
    }
    r := Ok(boot);
  }

  /** The rewriting failed at position `n`, the first that has no answer left, with earlier answers taken. */
  ghost predicate StoppedAt(c: VmConfiguration, all: map<PathBuf, PathBuf>, n: nat, left: map<PathBuf, PathBuf>) {
    && n < |ResourcePaths(c)|
    && StopsAt(ResourcePaths(c), all.Keys, n)
    && left == all - PathSet(ResourcePaths(c)[..n])
  }

  method RewriteDrive(c: VmConfiguration, all: map<PathBuf, PathBuf>, i: nat, ghost got: seq<PathBuf>,
                      before: map<PathBuf, PathBuf>)
    returns (r: Result<Drive, RewriteError>, left: map<PathBuf, PathBuf>)
    requires i < |c.data.drives| && Taking(ResourcePaths(c), all, |Before(c.data, i)|, got, before)
    ensures r.Ok? ==>
              && r.value == c.data.drives[i].(pathOnHost := r.value.pathOnHost)
              && BlankOptional(r.value.pathOnHost) == BlankOptional(c.data.drives[i].pathOnHost)
              && Taking(ResourcePaths(c), all, |Before(c.data, i + 1)|, got + OptionalPath(r.value.pathOnHost), left)
    ensures r.Err? ==> exists n :: StoppedAt(c, all, n, left)
  {
    NextDrivePosition(c, i);
    var drive := c.data.drives[i];
    left := before;
    if drive.pathOnHost.Some? {
      var answer;
      answer, left := Take(ResourcePaths(c), all, |Before(c.data, i)|, got, left, drive.pathOnHost.value);
      if answer.None? {
        assert StoppedAt(c, all, |Before(c.data, i)|, left);
        return Err(MissingPathMapping), left;
      }
      drive := drive.(pathOnHost := answer);
    } else {
      assert got + [] == got;
    }
    r := Ok(drive);
  }

  method RewriteDrives(c: VmConfiguration, all: map<PathBuf, PathBuf>, ghost boot: seq<PathBuf>,
                       before: map<PathBuf, PathBuf>)
    returns (r: Result<seq<Drive>, RewriteError>, left: map<PathBuf, PathBuf>)
    requires Taking(ResourcePaths(c), all, |Before(c.data, 0)|, boot, before)
    ensures r.Ok? ==>
              && BlankDrives(r.value) == BlankDrives(c.data.drives)
              && Taking(ResourcePaths(c), all, |DataPaths(c.data)|, boot + DrivePaths(r.value), left)
    ensures r.Err? ==> exists n :: StoppedAt(c, all, n, left)
  {
    var drives := c.data.drives;
    left := before;
    var i := 0;
    assert boot + DrivePaths(drives[..0]) == boot;
    while i < |drives|
      invariant 0 <= i <= |drives| && |drives| == |c.data.drives|
      invariant BlankDrives(drives) == BlankDrives(c.data.drives)
      invariant Taking(ResourcePaths(c), all, |Before(c.data, i)|, boot + DrivePaths(drives[..i]), left)
    {
      var drive;
      drive, left := RewriteDrive(c, all, i, boot + DrivePaths(drives[..i]), left);
      if drive.Err? {
        return Err(drive.error), left;
      }
      SetDrive(boot, drives, c.data.drives, i, drive.value);
      drives := drives[i := drive.value];
      i := i + 1;
    }
    assert drives[..|drives|] == drives && c.data.drives[..|drives|] == c.data.drives;
    r := Ok(drives);
  }

  lemma SetDrive(boot: seq<PathBuf>, drives: seq<Drive>, original: seq<Drive>, i: nat, drive: Drive)
    requires i < |drives| == |original| && BlankDrives(drives) == BlankDrives(original)
    requires drive == original[i].(pathOnHost := drive.pathOnHost)
    requires BlankOptional(drive.pathOnHost) == BlankOptional(original[i].pathOnHost)
    ensures BlankDrives(drives[i := drive]) == BlankDrives(original)
    ensures boot + DrivePaths(drives[i := drive][..i + 1])
            == boot + DrivePaths(drives[..i]) + OptionalPath(drive.pathOnHost)
  {
    var after := drives[i := drive];
    forall k | 0 <= k < |drives|
      ensures BlankDrives(after)[k] == BlankDrives(original)[k]
    {
      assert BlankDrives(drives)[k] == BlankDrives(original)[k];
    }
    assert after[..i + 1] == drives[..i] + [drive];
    DrivePathsSnoc(drives[..i], drive);
  }

  method RewriteSnapshot(c: VmConfiguration, all: map<PathBuf, PathBuf>, ghost got: seq<PathBuf>,
                         before: map<PathBuf, PathBuf>)
    returns (r: Result<LoadSnapshot, RewriteError>, left: map<PathBuf, PathBuf>)
    requires c.RestoredFromSnapshot? && Taking(ResourcePaths(c), all, |DataPaths(c.data)|, got, before)
    ensures r.Ok? ==>
              && r.value == c.loadSnapshot.(snapshotPath := r.value.snapshotPath, backendPath := r.value.backendPath)
              && Taking(ResourcePaths(c), all, |ResourcePaths(c)|,
                        got + [r.value.snapshotPath, r.value.backendPath], left)
    ensures r.Err? ==> exists n :: StoppedAt(c, all, n, left)
  {
    ghost var paths := ResourcePaths(c);
    ghost var n := |DataPaths(c.data)|;
    var load := c.loadSnapshot;
    assert paths[n] == load.snapshotPath && paths[n + 1] == load.backendPath;
    var answer;
    answer, left := Take(paths, all, n, got, before, load.snapshotPath);
    if answer.None? {
      assert StoppedAt(c, all, n, left);
      return Err(MissingPathMapping), left;
    }
    load := load.(snapshotPath := answer.value);
    answer, left := Take(paths, all, n + 1, got + [load.snapshotPath], left, load.backendPath);
    if answer.None? {
      assert StoppedAt(c, all, n + 1, left);
      return Err(MissingPathMapping), left;
    }
    load := load.(backendPath := answer.value);
    assert got + [load.snapshotPath] + [load.backendPath] == got + [load.snapshotPath, load.backendPath];
    r := Ok(load);
  }

  /**
   * The rewriting phase.  It succeeds exactly when every path has an answer and no path occurs twice; then each path
   * has become its answer and nothing else of the configuration has changed.  Otherwise it stops at the first
   * position without an answer.
   */
  method Rewrite(c: VmConfiguration, all: map<PathBuf, PathBuf>)
    returns (r: Result<VmConfiguration, RewriteError>, left: map<PathBuf, PathBuf>)
    ensures r.Ok? <==> StopsAt(ResourcePaths(c), all.Keys, |ResourcePaths(c)|)
    ensures r.Ok? ==> IsRewritten(c, all, r.value) && left == all - PathSet(ResourcePaths(c))
    ensures r.Err? ==> exists n :: StoppedAt(c, all, n, left)
  {
    var boot;
    boot, left := RewriteBoot(c, all);
    if boot.Err? {
      return Err(boot.error), left;
    }
    ghost var taken := [boot.value.kernelImagePath] + OptionalPath(boot.value.initrdPath);
    var drives;
    drives, left := RewriteDrives(c, all, taken, left);
    if drives.Err? {
      return Err(drives.error), left;
    }
    var data := c.data.(bootSource := boot.value, drives := drives.value);
    assert DataPaths(data) == taken + DrivePaths(drives.value);
    assert BlankData(data) == BlankData(c.data);
    if c.RestoredFromSnapshot? {
      var load;
      load, left := RewriteSnapshot(c, all, DataPaths(data), left);
      if load.Err? {
        return Err(load.error), left;
      }
      r := Ok(RestoredFromSnapshot(load.value, data));
    } else {
      r := Ok(New(c.initMethod, data));
      assert ResourcePaths(r.value) == DataPaths(data);
    }
    assert ResourcePaths(c)[..|ResourcePaths(c)|] == ResourcePaths(c);
  }

  /** `d` is `c` with every resource path replaced by its answer. */
  ghost predicate IsRewritten(c: VmConfiguration, all: map<PathBuf, PathBuf>, d: VmConfiguration) {
    && Blank(d) == Blank(c)
    && |ResourcePaths(d)| == |ResourcePaths(c)|
    && forall i :: 0 <= i < |ResourcePaths(c)| ==>
         ResourcePaths(c)[i] in all && ResourcePaths(d)[i] == all[ResourcePaths(c)[i]]
  }

  predicate Distinct(paths: seq<PathBuf>) {
    forall i, j :: 0 <= i < j < |paths| ==> paths[i] != paths[j]
  }

  /**
   * An executor that answers exactly the collected paths: rewriting succeeds if and only if they are pairwise
   * distinct, and then empties the map.
   */
  lemma RewritesIffDistinct(c: VmConfiguration, all: map<PathBuf, PathBuf>)
    requires all.Keys == PathSet(ResourcePaths(c))
    ensures StopsAt(ResourcePaths(c), all.Keys, |ResourcePaths(c)|) <==> Distinct(ResourcePaths(c))
    ensures all - PathSet(ResourcePaths(c)) == map[]
  {
    var paths := ResourcePaths(c);
    if StopsAt(paths, all.Keys, |paths|) {
      forall i, j | 0 <= i < j < |paths|
        ensures paths[i] != paths[j]
      {
        assert Answered(paths, all.Keys, j);
        assert paths[..j][i] == paths[i];
      }
    }
    if Distinct(paths) {
      forall i: nat | i < |paths|
        ensures Answered(paths, all.Keys, i)
      {
      }
    }
  }

  /** With such a map the position where rewriting stops is the first repetition of an earlier path. */
  lemma StopsAtFirstRepetition(c: VmConfiguration, all: map<PathBuf, PathBuf>, n: nat, left: map<PathBuf, PathBuf>)
    requires all.Keys == PathSet(ResourcePaths(c)) && StoppedAt(c, all, n, left)
    ensures var paths := ResourcePaths(c);
            && Distinct(paths[..n])
            && exists m :: 0 <= m < n && paths[m] == paths[n]
  {
    var paths := ResourcePaths(c);
    forall i, j | 0 <= i < j < n
      ensures paths[..n][i] != paths[..n][j]
    {
      assert Answered(paths, all.Keys, j);
      assert paths[..j][i] == paths[i];
    }
    assert paths[n] in all.Keys && paths[n] in paths[..n];
    var m :| 0 <= m < n && paths[..n][m] == paths[n];
    assert paths[m] == paths[n];
  }
}
