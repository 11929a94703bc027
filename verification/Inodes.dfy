/**
 Files with several names.  Names that share an inode share the content, so truncating or writing a file through one of
 its names is seen through all of them.  A `Disk` is a tree together with the inode behind every name of a file.
 */
module Inodes {
  import opened Wrappers
  import opened Filesystem

  datatype RawDisk = RawDisk(tree: Tree, inodes: map<Key, nat>, next: nat)

  /** Every node sits in a directory; every file has an inode, with numbers below `next`; an inode has one content. */
  ghost predicate Sound(d: RawDisk) {
    && WellFormed(d.tree)
    && (forall k :: k in d.inodes <==> IsFile(d.tree, k))
    && (forall k :: k in d.inodes ==> d.inodes[k] < d.next)
    && (forall j, k :: j in d.inodes && k in d.inodes && d.inodes[j] == d.inodes[k] ==> d.tree[j] == d.tree[k])
  }

  type Disk = d: RawDisk | Sound(d) witness RawDisk(map[[] := Dir], map[], 0)

  /** The two names are names of one file. */
  predicate SameFile(d: RawDisk, j: Key, k: Key) {
    j in d.inodes && k in d.inodes && d.inodes[j] == d.inodes[k]
  }

  /** The file at `k`, if there is one, has no other name. */
  ghost predicate HasOneName(d: Disk, k: Key) {
    forall j :: j in d.inodes && j != k ==> !SameFile(d, j, k)
  }

  // ---------------------------------------------------------------- changes

  function AddDirs(d: Disk, k: Key): Disk
    requires CanMkdirAll(d.tree, k)
  {
    MkdirAllWellFormed(d.tree, k);
    d.(tree := MkdirAll(d.tree, k))
  }

  function AddDir(d: Disk, k: Key): Disk
    requires k != [] && k !in d.tree && IsDir(d.tree, Up(k))
  {
    GrowsWellFormed(d.tree, d.tree[k := Dir]);
    d.(tree := d.tree[k := Dir])
  }

  /** The content of the file becomes `content`, under all its names. */
  function Write(d: Disk, k: Key, content: string): (r: Disk)
    requires IsFile(d.tree, k)
    ensures r.inodes == d.inodes && r.next == d.next && r.tree.Keys == d.tree.Keys
    ensures forall j :: j in r.tree ==> r.tree[j] == if SameFile(d, j, k) then File(content) else d.tree[j]
  {
    var t := map j | j in d.tree :: if SameFile(d, j, k) then File(content) else d.tree[j];
    GrowsWellFormed(d.tree, t);
    d.(tree := t)
  }

  /** `File::create`: an existing file is truncated, a new one gets an inode of its own. */
  function Open(d: Disk, k: Key): Disk
    requires CanCreate(d.tree, k)
  {
    if k in d.tree then Write(d, k, "")
    else
      GrowsWellFormed(d.tree, d.tree[k := File("")]);
      RawDisk(d.tree[k := File("")], d.inodes[k := d.next], d.next + 1)
  }

  /** `hard_link`: one more name. */
  function AddName(d: Disk, from: Key, to: Key): Disk
    requires CanLink(d.tree, from, to)
  {
    GrowsWellFormed(d.tree, d.tree[to := d.tree[from]]);
    RawDisk(d.tree[to := d.tree[from]], d.inodes[to := d.inodes[from]], d.next)
  }

  function DropName(d: Disk, k: Key): Disk
    requires IsFile(d.tree, k)
  {
    ShrinksWellFormed(d.tree, d.tree - {k});
    RawDisk(d.tree - {k}, d.inodes - {k}, d.next)
  }

  function DropBelow(d: Disk, root: Key): Disk
    requires root != []
  {
    RemoveTreeWellFormed(d.tree, root);
    RawDisk(RemoveTree(d.tree, root), map k | k in d.inodes && !(root <= k) :: d.inodes[k], d.next)
  }

  /** `rename`, which does nothing when both names are already names of one file. */
  function Move(d: Disk, from: Key, to: Key): Disk
    requires CanRename(d.tree, from, to)
  {
    if SameFile(d, from, to) then d
    else
      var gone := DropName(d, from);
      GrowsWellFormed(gone.tree, gone.tree[to := d.tree[from]]);
      RawDisk(gone.tree[to := d.tree[from]], gone.inodes[to := d.inodes[from]], d.next)
  }

  function TryAddDirs(d: Disk, k: Key): Option<Disk> {
    if CanMkdirAll(d.tree, k) then Some(AddDirs(d, k)) else None
  }

  /** A `create_dir_all` that stopped on its way: some of the levels are there. */
  ghost predicate PartlyMade(d: Disk, k: Key, u: Disk) {
    exists n :: 0 <= n <= |k| && TryAddDirs(d, k[..n]) == Some(u)
  }

  lemma NoLevelMade(d: Disk, k: Key)
    ensures PartlyMade(d, k, d)
  {
    assert k[..0] == [] && [] in d.tree;
    assert MkdirAll(d.tree, []) == d.tree;
  }

  /** The parent directories and, unless only the tree is wanted, an empty file. */
  function TryCreate(d: Disk, k: Key, onlyTree: bool): Option<Disk> {
    var u :- if k == [] then Some(d) else TryAddDirs(d, Up(k));
    if onlyTree then Some(u) else if CanCreate(u.tree, k) then Some(Open(u, k)) else None
  }

  /** A file with this content, in a directory that is there. */
  function TryWrite(d: Disk, k: Key, content: string): Option<Disk> {
    if CanCreate(d.tree, k) then Some(Write(Open(d, k), k, content)) else None
  }

  // ---------------------------------------------------------------- facts

  lemma WriteToSole(d: Disk, k: Key, content: string)
    requires IsFile(d.tree, k) && HasOneName(d, k)
    ensures Write(d, k, content).tree == d.tree[k := File(content)]
  {
  }

  lemma OpenSole(d: Disk, k: Key)
    requires CanCreate(d.tree, k) && HasOneName(d, k)
    ensures Open(d, k).tree == d.tree[k := File("")]
  {
    if k in d.tree {
      WriteToSole(d, k, "");
    }
  }

  lemma OpenNewKeepsSole(d: Disk, k: Key, j: Key)
    requires CanCreate(d.tree, k) && k !in d.tree
    ensures j == k || HasOneName(d, j) ==> HasOneName(Open(d, k), j)
  {
  }

  lemma AddNameKeepsSole(d: Disk, from: Key, to: Key, j: Key)
    requires CanLink(d.tree, from, to) && HasOneName(d, j) && j != to && !SameFile(d, from, j)
    ensures HasOneName(AddName(d, from, to), j)
  {
  }

  /** A rename moves the node, replacing what was there, and leaves the other names alone. */
  lemma MoveAt(d: Disk, from: Key, to: Key)
    requires CanRename(d.tree, from, to)
    ensures var u := Move(d, from, to);
            && to in u.tree && u.tree[to] == d.tree[from]
            && (from in u.tree <==> SameFile(d, from, to))
            && forall k :: k != from && k != to ==> SameAt(d.tree, u.tree, k)
  {
  }

  /** A file that has no other name is created or emptied without any other effect. */
  lemma CreateSole(d: Disk, k: Key, onlyTree: bool)
    requires TryCreate(d, k, onlyTree).Some? && HasOneName(d, k)
    ensures TryCreateWithTree(d.tree, k, onlyTree) == Some(TryCreate(d, k, onlyTree).value.tree)
  {
    var u := if k == [] then d else AddDirs(d, Up(k));
    if !onlyTree && k in u.tree {
      WriteToSole(u, k, "");
    }
  }

  /** Creating a file empties what had its name, under all names, and leaves every other node alone. */
  lemma CreateTouches(d: Disk, k: Key, onlyTree: bool, j: Key)
    requires TryCreate(d, k, onlyTree).Some? && j in d.tree
    ensures var u := TryCreate(d, k, onlyTree).value;
            && j in u.tree
            && u.tree[j] == (if !onlyTree && SameFile(d, j, k) then File("") else d.tree[j])
            && (j in d.inodes ==> j in u.inodes && u.inodes[j] == d.inodes[j])
  {
  }

  lemma CreateNumbers(d: Disk, k: Key, onlyTree: bool)
    requires TryCreate(d, k, onlyTree).Some?
    ensures var u := TryCreate(d, k, onlyTree).value;
            && d.next <= u.next
            && (forall j :: j in d.inodes ==> j in u.inodes && u.inodes[j] == d.inodes[j])
            && (forall j :: j in u.inodes && j !in d.inodes ==> d.next <= u.inodes[j])
            && (!onlyTree ==> k in u.tree && u.tree[k] == File(""))
  {
  }

  /** A created file is not another name of a node that was there. */
  lemma CreateKeepsApart(d: Disk, k: Key, onlyTree: bool, i: Key, j: Key)
    requires TryCreate(d, k, onlyTree).Some? && j in d.tree && i != j && !SameFile(d, i, j)
    ensures !SameFile(TryCreate(d, k, onlyTree).value, i, j)
  {
  }

  /** The files below `root` have one name each. */
  ghost predicate SoleBelow(d: Disk, root: Key) {
    forall k :: k in d.inodes && root <= k ==> HasOneName(d, k)
  }

  lemma CreateKeepsSole(d: Disk, k: Key, onlyTree: bool, root: Key)
    requires SoleBelow(d, root) && root <= k && TryCreate(d, k, onlyTree).Some?
    ensures SoleBelow(TryCreate(d, k, onlyTree).value, root)
  {
    var u := TryCreate(d, k, onlyTree).value;
    forall i, j | i in u.inodes && root <= i && j in u.inodes && j != i
      ensures !SameFile(u, j, i)
    {
      if i in d.inodes && j in d.inodes {
        assert HasOneName(d, i);
      }
    }
  }
}
