/**
 The machine the program runs on, as an object whose filesystem the program's calls update.  Any call may be refused
 by the operating system (permissions, a full disk, an interrupted shell command); a refused call that changes one name
 leaves the disk as it was, and one that works through many may have done a part of its work.
 */
module HostMachine {
  import opened Wrappers
  import opened Paths
  import opened Filesystem
  import opened Inodes

  class Host {
    var disk: Disk
    const cwd: Key
    /** Where the operating system never refuses to delete a file. */
    const deletable: set<Key>
    /** The operating system refuses nothing that is possible. */
    const obliging: bool

    constructor (disk: Disk, cwd: Key, deletable: set<Key>, obliging: bool)
      ensures this.disk == disk && this.cwd == cwd && this.deletable == deletable && this.obliging == obliging
    {
      this.disk, this.cwd, this.deletable, this.obliging := disk, cwd, deletable, obliging;
    }

    /** What the operating system decides on a call. */
    method Refuses() returns (refused: bool)
      ensures obliging ==> !refused
    {
      refused := *;
      refused := refused && !obliging;
    }

    function At(p: PathBuf): Key {
      Resolve(cwd, p)
    }

    /** `try_exists`: no answer when the lookup itself is refused. */
    method TryExists(p: PathBuf) returns (r: Option<bool>)
      ensures r.Some? ==> (r.value <==> At(p) in disk.tree)
      ensures obliging ==> r.Some?
    {
      var refused := Refuses();
      r := if refused then None else Some(At(p) in disk.tree);
    }

    method CreateDirAll(p: PathBuf) returns (ok: bool)
      modifies this
      ensures ok ==> TryAddDirs(old(disk), At(p)) == Some(disk)
      ensures !ok ==> PartlyMade(old(disk), At(p), disk)
      ensures obliging ==> (ok <==> TryAddDirs(old(disk), At(p)).Some?)
    {
      var refused := Refuses();
      ok := !refused && CanMkdirAll(disk.tree, At(p));
      if ok {
        disk := AddDirs(disk, At(p));
      } else {
        NoLevelMade(disk, At(p));
        var n: int := *;
        if 0 <= n <= |At(p)| && CanMkdirAll(disk.tree, At(p)[..n]) {
          disk := AddDirs(disk, At(p)[..n]);
        }
      }
    }

    /** `create_file_with_tree` and `prepare_file`: the parent directories, then the file, if it is wanted. */
    method CreateFileWithTree(p: PathBuf, onlyTree: bool) returns (ok: bool)
      requires p.parts != []
      modifies this
      ensures ok ==> TryCreate(old(disk), At(p), onlyTree) == Some(disk)
      ensures !ok ==> At(p) != [] && PartlyMade(old(disk), Up(At(p)), disk)
      ensures obliging ==> (ok <==> TryCreate(old(disk), At(p), onlyTree).Some?)
    {
      ghost var above := Up(At(p));
      assert At(p.Parent().value) == above && above[..|above|] == above;
      ok := CreateDirAll(p.Parent().value);
      if ok && !onlyTree {
        var refused := Refuses();
        ok := !refused && CanCreate(disk.tree, At(p));
        if ok {
          disk := Open(disk, At(p));
        }
      }
    }

    method RemoveFile(p: PathBuf) returns (ok: bool)
      modifies this
      ensures ok ==> IsFile(old(disk).tree, At(p)) && disk == DropName(old(disk), At(p))
      ensures !ok ==> disk == old(disk)
      ensures IsFile(old(disk).tree, At(p)) && (obliging || At(p) in deletable) ==> ok
    {
      var refused := Refuses();
      ok := (!refused || At(p) in deletable) && IsFile(disk.tree, At(p));
      if ok {
        disk := DropName(disk, At(p));
      }
    }

    method RenameFile(source: PathBuf, target: PathBuf) returns (ok: bool)
      modifies this
      ensures ok ==> CanRename(old(disk).tree, At(source), At(target))
                     && disk == Move(old(disk), At(source), At(target))
      ensures !ok ==> disk == old(disk)
      ensures obliging && CanRename(old(disk).tree, At(source), At(target)) ==> ok
    {
      var refused := Refuses();
      ok := !refused && CanRename(disk.tree, At(source), At(target));
      if ok {
        disk := Move(disk, At(source), At(target));
      }
    }

    /** The first half of `fs::copy`: the source is there and the target has been created or truncated. */
    method OpenCopy(source: PathBuf, target: PathBuf) returns (ok: bool)
      modifies this
      ensures ok ==> CanCopy(old(disk).tree, At(source), At(target)) && disk == Open(old(disk), At(target))
      ensures !ok ==> disk == old(disk)
      ensures obliging && CanCopy(old(disk).tree, At(source), At(target)) ==> ok
    {
      var refused := Refuses();
      ok := !refused && CanCopy(disk.tree, At(source), At(target));
      if ok {
        disk := Open(disk, At(target));
      }
    }

    /** The second half: the content of the source is written to the target; a failure may leave a part of it there. */
    method FillCopy(source: PathBuf, target: PathBuf) returns (ok: bool)
      modifies this
      ensures ok ==> IsFile(old(disk).tree, At(source)) && IsFile(old(disk).tree, At(target))
                     && disk == Write(old(disk), At(target), old(disk).tree[At(source)].content)
      ensures !ok ==> disk == old(disk)
                      || exists part :: IsFile(old(disk).tree, At(target))
                                        && disk == Write(old(disk), At(target), part)
      ensures obliging && IsFile(old(disk).tree, At(source)) && IsFile(old(disk).tree, At(target)) ==> ok
    {
      var refused := Refuses();
      ok := !refused && IsFile(disk.tree, At(source)) && IsFile(disk.tree, At(target));
      if ok {
        disk := Write(disk, At(target), disk.tree[At(source)].content);
      } else if IsFile(disk.tree, At(target)) {
        var part: string := *;
        disk := Write(disk, At(target), part);
      }
    }

    /** `fs::write`: creates or truncates the file, then fills it. */
    method WriteFile(p: PathBuf, content: string) returns (ok: bool)
      modifies this
      ensures ok ==> TryWrite(old(disk), At(p), content) == Some(disk)
      ensures !ok ==> disk == old(disk) || exists part :: TryWrite(old(disk), At(p), part) == Some(disk)
      ensures obliging ==> (ok <==> TryWrite(old(disk), At(p), content).Some?)
    {
      var refused := Refuses();
      ok := false;
      if !refused && CanCreate(disk.tree, At(p)) {
        var breaks := Refuses();
        var filled := !breaks;
        var part: string := *;
        var written := if filled then content else part;
        disk := Write(Open(disk, At(p)), At(p), written);
        assert TryWrite(old(disk), At(p), written) == Some(disk);
        ok := filled;
      }
    }

    /** The root of the filesystem cannot be removed; a failure may have removed a part of what is there. */
    method RemoveDirAll(p: PathBuf) returns (ok: bool)
      modifies this
      ensures ok ==> At(p) != [] && IsDir(old(disk).tree, At(p)) && disk == DropBelow(old(disk), At(p))
      ensures !ok ==> forall k :: !(At(p) <= k) ==> SameAt(old(disk).tree, disk.tree, k)
      ensures obliging && At(p) != [] && IsDir(old(disk).tree, At(p)) ==> ok
    {
      var refused := Refuses();
      ok := !refused && At(p) != [] && IsDir(disk.tree, At(p));
      if ok {
        disk := DropBelow(disk, At(p));
      } else {
        ghost var t := disk.tree;
        var parts: nat := *;
        while parts > 0
          invariant forall k :: !(At(p) <= k) ==> SameAt(t, disk.tree, k)
        {
          var part: Key := *;
          if At(p) <= part && part != [] {
            ghost var before := disk.tree;
            disk := DropBelow(disk, part);
            forall k | !(At(p) <= k)
              ensures SameAt(t, disk.tree, k)
            {
              assert SameAt(t, before, k) && !(part <= k);
            }
          }
          parts := parts - 1;
        }
      }
    }

    /** `force_chown`: ownership is not part of the disk; the shell command may fail. */
    method ForceChown(p: PathBuf) returns (ok: bool)
      ensures obliging ==> ok
    {
      var refused := Refuses();
      ok := !refused;
    }
  }
}
