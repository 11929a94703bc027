/**
 The host filesystem as a map from locations to nodes, with the meaning of the calls the program makes.  Each call
 comes as a guard that says when it can succeed and a function that gives the tree after it succeeded.
 */
module Filesystem {
  import opened Wrappers
  import opened Paths

  /** A location: the components below the root of the filesystem. */
  type Key = seq<string>

  datatype Node = Dir | File(content: string)

  type Tree = map<Key, Node>

  predicate IsDir(t: Tree, k: Key) {
    k in t && t[k].Dir?
  }

  predicate IsFile(t: Tree, k: Key) {
    k in t && t[k].File?
  }

  /** Where a path leads: relative paths start at the working directory. */
  function Resolve(cwd: Key, p: PathBuf): Key {
    if p.rooted then p.parts else cwd + p.parts
  }

  function Up(k: Key): Key
    requires k != []
  {
    k[..|k| - 1]
  }

  /** What is at `k`, unless it is the root, sits in a directory. */
  predicate Sits(t: Tree, k: Key) {
    k in t && k != [] ==> IsDir(t, Up(k))
  }

  ghost predicate WellFormed(t: Tree) {
    IsDir(t, []) && forall k :: Sits(t, k)
  }

  /** The two trees have the same node, or none, at `k`. */
  predicate SameAt(t: Tree, u: Tree, k: Key) {
    if k in t then k in u && u[k] == t[k] else k !in u
  }

  // ---------------------------------------------------------------- create_dir_all

  predicate CanMkdirAll(t: Tree, k: Key) {
    forall j | j in t && j <= k :: t[j].Dir?
  }

  function MkdirAll(t: Tree, k: Key): (r: Tree)
    ensures forall j :: j in r <==> j in t || j <= k
    ensures forall j :: j in r ==> r[j] == if j in t then t[j] else Dir
  {
    var prefixes := set n | 0 <= n <= |k| :: k[..n];
    assert forall j :: j in prefixes <==> j <= k by {
      forall j | j <= k
        ensures j in prefixes
      {
        assert j == k[..|j|];
      }
    }
    t + map j | j in prefixes && j !in t :: Dir
  }

  // ---------------------------------------------------------------- single files

  predicate CanCreate(t: Tree, k: Key) {
    k != [] && IsDir(t, Up(k)) && !IsDir(t, k)
  }

  /** `File::create`: an existing file is truncated. */
  function Create(t: Tree, k: Key): Tree {
    t[k := File("")]
  }

  predicate CanCopy(t: Tree, from: Key, to: Key) {
    IsFile(t, from) && CanCreate(t, to)
  }

  /** `fs::copy` opens its target for truncation before it reads, so a file copied onto itself ends up empty. */
  function Copy(t: Tree, from: Key, to: Key): Tree
    requires CanCopy(t, from, to)
  {
    t[to := File(if from == to then "" else t[from].content)]
  }

  predicate CanLink(t: Tree, from: Key, to: Key) {
    IsFile(t, from) && CanCreate(t, to) && to !in t
  }

  predicate CanRename(t: Tree, from: Key, to: Key) {
    IsFile(t, from) && CanCreate(t, to)
  }

  // ---------------------------------------------------------------- composites

  function TryMkdirAll(t: Tree, k: Key): Option<Tree> {
    if CanMkdirAll(t, k) then Some(MkdirAll(t, k)) else None
  }

  /** The parent directories and, unless only the tree is wanted, an empty file. */
  function TryCreateWithTree(t: Tree, k: Key, onlyTree: bool): Option<Tree> {
    var u :- if k == [] then Some(t) else TryMkdirAll(t, Up(k));
    if onlyTree then Some(u) else if CanCreate(u, k) then Some(Create(u, k)) else None
  }

  // ---------------------------------------------------------------- removal

  function Remove(t: Tree, k: Key): Tree {
    t - {k}
  }

  /** `remove_dir_all`. */
  function RemoveTree(t: Tree, root: Key): (r: Tree)
    ensures forall k :: k in r <==> k in t && !(root <= k)
    ensures forall k :: k in r ==> r[k] == t[k]
  {
    map k | k in t && !(root <= k) :: t[k]
  }

  // ---------------------------------------------------------------- facts about whole trees

  /** In a well-formed tree everything above a node is a directory. */
  lemma {:induction false} AncestorsAreDirs(t: Tree, k: Key, j: Key)
    requires WellFormed(t) && k in t && j <= k && j != k
    ensures IsDir(t, j)
  {
    assert Sits(t, k);
    if j == Up(k) {
    } else {
      assert j <= Up(k);
      AncestorsAreDirs(t, Up(k), j);
    }
  }

  lemma MkdirAllWellFormed(t: Tree, k: Key)
    requires WellFormed(t) && CanMkdirAll(t, k)
    ensures WellFormed(MkdirAll(t, k))
  {
    var r := MkdirAll(t, k);
    forall j
      ensures Sits(r, j)
    {
      assert Sits(t, j);
      if j in r && j != [] && j !in t {
        assert Up(j) <= k;
      }
    }
  }

  lemma RemoveTreeWellFormed(t: Tree, root: Key)
    requires WellFormed(t) && root != []
    ensures WellFormed(RemoveTree(t, root))
  {
    var r := RemoveTree(t, root);
    forall k
      ensures Sits(r, k)
    {
      assert Sits(t, k);
      if k in r && k != [] {
        assert root <= Up(k) ==> root <= k;
      }
    }
  }

  /** Nodes may change as long as directories stay, and appear where there is a directory. */
  lemma GrowsWellFormed(t: Tree, u: Tree)
    requires WellFormed(t) && forall k :: IsDir(t, k) ==> IsDir(u, k)
    requires forall k :: k in u && k !in t ==> k != [] && IsDir(u, Up(k))
    ensures WellFormed(u)
  {
    forall k
      ensures Sits(u, k)
    {
      assert Sits(t, k);
    }
  }

  /** Files can go without anything else having to go. */
  lemma ShrinksWellFormed(t: Tree, u: Tree)
    requires WellFormed(t) && forall k :: k in u ==> k in t
    requires forall k :: IsDir(t, k) ==> IsDir(u, k)
    ensures WellFormed(u)
  {
    forall k
      ensures Sits(u, k)
    {
      assert Sits(t, k);
    }
  }
}
