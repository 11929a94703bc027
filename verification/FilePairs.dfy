/**
 Copying and renaming two files at once.  The two operations of a call run concurrently; when one fails, the other may
 have had its effect, or a part of it.
 */
module FilePairs {
  import opened Wrappers
  import opened Paths
  import opened Filesystem
  import opened Inodes
  import opened HostMachine

  /** Two files and where they are to go. */
  datatype Pair = Pair(s1: Key, d1: Key, s2: Key, d2: Key)
  {
    function Source(second: bool): Key {
      if second then s2 else s1
    }

    function Target(second: bool): Key {
      if second then d2 else d1
    }
  }

  /** Writing at `target` does not reach what is at `k`. */
  predicate Clear(d: Disk, target: Key, k: Key) {
    target != k && !SameFile(d, target, k)
  }

  /** The two files hold these contents. */
  predicate HeldAt(t: Tree, k1: Key, k2: Key, first: string, second: string) {
    && IsFile(t, k1) && t[k1].content == first
    && IsFile(t, k2) && t[k2].content == second
  }

  // ---------------------------------------------------------------- one copy, half by half

  datatype CopyPhase = Waiting | Opened | Copied | CopyFailed

  /** What a copy does at a time; a filling that breaks has written some text, a refusal has no effect. */
  datatype Half = Opens | Fills | Breaks(part: string) | Refused
  {
    function Next(): CopyPhase {
      match this
      case Opens => Opened
      case Fills => Copied
      case Breaks(_) => CopyFailed
      case Refused => CopyFailed
    }
  }

  predicate CanHalf(d: Disk, source: Key, target: Key, phase: CopyPhase, h: Half) {
    match h
    case Opens => phase.Waiting? && CanCopy(d.tree, source, target)
    case Fills => phase.Opened? && IsFile(d.tree, source) && IsFile(d.tree, target)
    case Breaks(_) => phase.Opened? && IsFile(d.tree, target)
    case Refused => phase.Waiting? || phase.Opened?
  }

  function AfterHalf(d: Disk, source: Key, target: Key, phase: CopyPhase, h: Half): Disk
    requires CanHalf(d, source, target, phase, h)
  {
    match h
    case Opens => Open(d, target)
    case Fills => Write(d, target, d.tree[source].content)
    case Breaks(part) => Write(d, target, part)
    case Refused => d
  }

  /** Nothing but the operating system stands in the way of the next half. */
  predicate CanGoOn(d: Disk, source: Key, target: Key, phase: CopyPhase) {
    && (phase.Waiting? ==> CanCopy(d.tree, source, target))
    && (phase.Opened? ==> IsFile(d.tree, source) && IsFile(d.tree, target))
  }

  method AdvanceCopy(host: Host, source: PathBuf, target: PathBuf, phase: CopyPhase)
    returns (next: CopyPhase, ghost h: Half)
    requires phase.Waiting? || phase.Opened?
    modifies host
    ensures next == h.Next() && CanHalf(old(host.disk), host.At(source), host.At(target), phase, h)
    ensures host.disk == AfterHalf(old(host.disk), host.At(source), host.At(target), phase, h)
    ensures host.obliging && CanGoOn(old(host.disk), host.At(source), host.At(target), phase) ==>
              next == if phase.Waiting? then Opened else Copied
  {
    ghost var d, k := host.disk, host.At(target);
    h := Refused;
    if phase.Waiting? {
      var ok := host.OpenCopy(source, target);
      next, h := if ok then Opened else CopyFailed, if ok then Opens else Refused;
    } else {
      var ok := host.FillCopy(source, target);
      next, h := if ok then Copied else CopyFailed, if ok then Fills else Refused;
      if !ok && host.disk != d {
        var part :| IsFile(d.tree, k) && host.disk == Write(d, k, part);
        h := Breaks(part);
      }
    }
  }

  /** The text that is at the target afterwards, unless nothing happened. */
  function Leaves(d: Disk, source: Key, h: Half): string
    requires h.Fills? ==> IsFile(d.tree, source)
  {
    match h
    case Fills => d.tree[source].content
    case Breaks(part) => part
    case _ => ""
  }

  /** What one half does to any node: the names of the target hold the text, and the others are as before. */
  lemma HalfChanges(d: Disk, source: Key, target: Key, phase: CopyPhase, h: Half, k: Key)
    requires CanHalf(d, source, target, phase, h)
    ensures var u := AfterHalf(d, source, target, phase, h);
            && (h != Refused ==> target in u.tree && u.tree[target] == File(Leaves(d, source, h)))
            && (h == Refused || Clear(d, target, k) ==> SameAt(d.tree, u.tree, k))
            && (h != Refused && k in d.tree && !Clear(d, target, k) ==>
                  k in u.tree && u.tree[k] == File(Leaves(d, source, h)))
            && (k in d.inodes ==> k in u.inodes && u.inodes[k] == d.inodes[k])
            && (IsDir(d.tree, k) <==> IsDir(u.tree, k))
  {
  }

  lemma HalfKeepsNames(d: Disk, source: Key, target: Key, phase: CopyPhase, h: Half, j: Key, k: Key)
    requires CanHalf(d, source, target, phase, h)
    ensures Clear(d, j, k) <==> Clear(AfterHalf(d, source, target, phase, h), j, k)
  {
  }

  // ---------------------------------------------------------------- two copies at once

  datatype CopyState = CopyState(disk: Disk, first: CopyPhase, second: CopyPhase)
  {
    function Phase(second: bool): CopyPhase {
      if second then this.second else first
    }

    predicate Succeeded() {
      first.Copied? && second.Copied?
    }

    predicate Failed() {
      first.CopyFailed? || second.CopyFailed?
    }
  }

  function Begin(d: Disk): CopyState {
    CopyState(d, Waiting, Waiting)
  }

  /** A half of the first or of the second copy. */
  datatype Turn = Turn(second: bool, half: Half)

  predicate CanTurn(p: Pair, s: CopyState, turn: Turn) {
    CanHalf(s.disk, p.Source(turn.second), p.Target(turn.second), s.Phase(turn.second), turn.half)
  }

  function AfterTurn(p: Pair, s: CopyState, turn: Turn): CopyState
    requires CanTurn(p, s, turn)
  {
    var d := AfterHalf(s.disk, p.Source(turn.second), p.Target(turn.second), s.Phase(turn.second), turn.half);
    if turn.second then CopyState(d, s.first, turn.half.Next()) else CopyState(d, turn.half.Next(), s.second)
  }

  /** These halves, from left to right. */
  function AfterTurns(p: Pair, s: CopyState, turns: seq<Turn>): Option<CopyState> {
    if turns == [] then Some(s)
    else
      var before :- AfterTurns(p, s, turns[..|turns| - 1]);
      var turn := turns[|turns| - 1];
      if CanTurn(p, before, turn) then Some(AfterTurn(p, before, turn)) else None
  }

  lemma OneMoreTurn(p: Pair, s: CopyState, turns: seq<Turn>, middle: CopyState, turn: Turn)
    requires AfterTurns(p, s, turns) == Some(middle) && CanTurn(p, middle, turn)
    ensures AfterTurns(p, s, turns + [turn]) == Some(AfterTurn(p, middle, turn))
  {
    assert (turns + [turn])[..|turns|] == turns;
  }

  /** Some interleaving of the two copies ends here. */
  ghost predicate CopyEnds(p: Pair, d0: Disk, s: CopyState) {
    exists turns :: AfterTurns(p, Begin(d0), turns) == Some(s)
  }

  ghost predicate BothCopied(p: Pair, d0: Disk, d: Disk) {
    CopyEnds(p, d0, CopyState(d, Copied, Copied))
  }

  ghost predicate CopyingFailed(p: Pair, d0: Disk, d: Disk) {
    exists s: CopyState :: CopyEnds(p, d0, s) && s.Failed() && s.disk == d
  }

  /** Two copies under `try_join!`: any interleaving; after a failure the other one may go on, but nobody waits. */
  method CopyBoth(host: Host, s1: PathBuf, d1: PathBuf, s2: PathBuf, d2: PathBuf) returns (ok: bool)
    modifies host
    ensures var p := Pair(host.At(s1), host.At(d1), host.At(s2), host.At(d2));
            && (if ok then BothCopied(p, old(host.disk), host.disk) else CopyingFailed(p, old(host.disk), host.disk))
            && SameBut(old(host.disk), host.disk, p.d1, p.d2)
            && (host.obliging && CanBothCopy(old(host.disk), p) ==> ok)
  {
    ghost var d0, p := host.disk, Pair(host.At(s1), host.At(d1), host.At(s2), host.At(d2));
    ghost var turns: seq<Turn> := [];
    var a, b: CopyPhase := Waiting, Waiting;
    var stop := false;
    while !stop && Rank(a) + Rank(b) > 0
      invariant AfterTurns(p, Begin(d0), turns) == Some(CopyState(host.disk, a, b))
      invariant stop ==> a.CopyFailed? || b.CopyFailed?
      invariant host.obliging && CanBothCopy(d0, p) ==> GoesWell(p, CopyState(host.disk, a, b))
      decreases Rank(a) + Rank(b)
    {
      ghost var s := CopyState(host.disk, a, b);
      ghost var h: Half;
      var firstMoves: bool := *;
      if Rank(a) > 0 && (firstMoves || Rank(b) == 0) {
        a, h := AdvanceCopy(host, s1, d1, a);
        OneMoreTurn(p, Begin(d0), turns, s, Turn(false, h));
        TurnGoesWell(p, s, Turn(false, h));
        turns := turns + [Turn(false, h)];
      } else {
        b, h := AdvanceCopy(host, s2, d2, b);
        OneMoreTurn(p, Begin(d0), turns, s, Turn(true, h));
        TurnGoesWell(p, s, Turn(true, h));
        turns := turns + [Turn(true, h)];
      }
      var leave: bool := *;
      stop := leave && (a.CopyFailed? || b.CopyFailed?);
    }
    ok := a.Copied? && b.Copied?;
    TurnsTouchTargets(p, d0, turns);
    assert CopyEnds(p, d0, CopyState(host.disk, a, b));
  }

  predicate CanBothCopy(d: Disk, p: Pair) {
    CanCopy(d.tree, p.s1, p.d1) && CanCopy(d.tree, p.s2, p.d2)
  }

  /** Neither copy has failed, and both can go on. */
  predicate GoesWell(p: Pair, s: CopyState) {
    && CanBothCopy(s.disk, p) && !s.Failed()
    && CanGoOn(s.disk, p.s1, p.d1, s.first) && CanGoOn(s.disk, p.s2, p.d2, s.second)
  }

  lemma TurnGoesWell(p: Pair, s: CopyState, turn: Turn)
    requires CanTurn(p, s, turn)
    ensures GoesWell(p, s) && (turn.half.Opens? || turn.half.Fills?) ==> GoesWell(p, AfterTurn(p, s, turn))
  {
    var i := turn.second;
    forall k
      ensures IsDir(s.disk.tree, k) <==> IsDir(AfterTurn(p, s, turn).disk.tree, k)
      ensures IsFile(s.disk.tree, k) ==> IsFile(AfterTurn(p, s, turn).disk.tree, k)
    {
      HalfChanges(s.disk, p.Source(i), p.Target(i), s.Phase(i), turn.half, k);
    }
  }

  function Rank(phase: CopyPhase): nat {
    if phase.Waiting? then 2 else if phase.Opened? then 1 else 0
  }

  // ---------------------------------------------------------------- what copies leave alone

  /** The names of one file, and of different ones, are as before. */
  ghost predicate NamesStay(d: Disk, d': Disk) {
    forall i, j :: Clear(d, i, j) <==> Clear(d', i, j)
  }

  /** Two targets have been created or written: what neither of them is a name of is as before. */
  ghost predicate SameBut(d0: Disk, d: Disk, d1: Key, d2: Key) {
    && NamesStay(d0, d)
    && (forall k :: Clear(d0, d1, k) && Clear(d0, d2, k) ==> SameAt(d0.tree, d.tree, k))
  }

  lemma HalfTouchesTarget(d0: Disk, d: Disk, d1: Key, d2: Key, source: Key, target: Key, phase: CopyPhase, h: Half)
    requires SameBut(d0, d, d1, d2) && (target == d1 || target == d2) && CanHalf(d, source, target, phase, h)
    ensures SameBut(d0, AfterHalf(d, source, target, phase, h), d1, d2)
  {
    var u := AfterHalf(d, source, target, phase, h);
    forall i, j
      ensures Clear(d0, i, j) <==> Clear(u, i, j)
    {
      HalfKeepsNames(d, source, target, phase, h, i, j);
    }
    forall k | Clear(d0, d1, k) && Clear(d0, d2, k)
      ensures SameAt(d0.tree, u.tree, k)
    {
      assert Clear(d, target, k) && SameAt(d0.tree, d.tree, k);
      HalfChanges(d, source, target, phase, h, k);
    }
  }

  lemma {:induction false} TurnsTouchTargets(p: Pair, d0: Disk, turns: seq<Turn>)
    requires AfterTurns(p, Begin(d0), turns).Some?
    ensures SameBut(d0, AfterTurns(p, Begin(d0), turns).value.disk, p.d1, p.d2)
  {
    if turns == [] {
    } else {
      var n := |turns| - 1;
      var s, i := AfterTurns(p, Begin(d0), turns[..n]).value, turns[n].second;
      TurnsTouchTargets(p, d0, turns[..n]);
      HalfTouchesTarget(d0, s.disk, p.d1, p.d2, p.Source(i), p.Target(i), s.Phase(i), turns[n].half);
    }
  }

  // ---------------------------------------------------------------- what copies that succeed leave

  /**
   * Both contents are empty, or: two targets in one file, which no source is in, and one content; two targets in
   * different files, neither of which the other's source is in, and what is copied onto itself is empty.
   */
  predicate CopyingKeeps(d: Disk, p: Pair, first: string, second: string) {
    || (first == "" && second == "")
    || (if Clear(d, p.d1, p.d2) then
          && Clear(d, p.d1, p.s2) && Clear(d, p.d2, p.s1)
          && (first == "" || Clear(d, p.d1, p.s1)) && (second == "" || Clear(d, p.d2, p.s2))
        else first == second && Clear(d, p.d1, p.s1) && Clear(d, p.d2, p.s2))
  }

  /** How far copies are that keep the contents: the sources hold theirs, and so do the targets that are done. */
  ghost predicate OnCourse(d0: Disk, p: Pair, first: string, second: string, s: CopyState) {
    && NamesStay(d0, s.disk)
    && HeldAt(s.disk.tree, p.s1, p.s2, first, second)
    && (s.first.Opened? || s.first.Copied? ==> IsFile(s.disk.tree, p.d1))
    && (s.second.Opened? || s.second.Copied? ==> IsFile(s.disk.tree, p.d2))
    && TargetsOnCourse(d0, p, first, second, s)
  }

  predicate TargetsOnCourse(d0: Disk, p: Pair, first: string, second: string, s: CopyState) {
    var t := s.disk.tree;
    if Clear(d0, p.d1, p.d2) then
      && (s.first.Copied? ==> p.d1 in t && t[p.d1] == File(first))
      && (s.second.Copied? ==> p.d2 in t && t[p.d2] == File(second))
    else
      s.Succeeded() ==> p.d1 in t && t[p.d1] == File(first) && p.d2 in t && t[p.d2] == File(second)
  }

  /** Writing the text that belongs there leaves both sources as they are. */
  lemma SourcesStay(d0: Disk, p: Pair, first: string, second: string, s: CopyState, turn: Turn)
    requires CopyingKeeps(d0, p, first, second) && OnCourse(d0, p, first, second, s)
    requires CanTurn(p, s, turn) && (turn.half.Opens? || turn.half.Fills?)
    ensures HeldAt(AfterTurn(p, s, turn).disk.tree, p.s1, p.s2, first, second)
  {
    var i := turn.second;
    HalfChanges(s.disk, p.Source(i), p.Target(i), s.Phase(i), turn.half, p.s1);
    HalfChanges(s.disk, p.Source(i), p.Target(i), s.Phase(i), turn.half, p.s2);
  }

  lemma TargetsGoOn(d0: Disk, p: Pair, first: string, second: string, s: CopyState, turn: Turn)
    requires CopyingKeeps(d0, p, first, second) && OnCourse(d0, p, first, second, s)
    requires CanTurn(p, s, turn) && (turn.half.Opens? || turn.half.Fills?)
    ensures TargetsOnCourse(d0, p, first, second, AfterTurn(p, s, turn))
  {
    var i := turn.second;
    HalfChanges(s.disk, p.Source(i), p.Target(i), s.Phase(i), turn.half, p.d1);
    HalfChanges(s.disk, p.Source(i), p.Target(i), s.Phase(i), turn.half, p.d2);
  }

  lemma TurnStaysOnCourse(d0: Disk, p: Pair, first: string, second: string, s: CopyState, turn: Turn)
    requires CopyingKeeps(d0, p, first, second) && OnCourse(d0, p, first, second, s)
    requires CanTurn(p, s, turn) && (turn.half.Opens? || turn.half.Fills?)
    ensures OnCourse(d0, p, first, second, AfterTurn(p, s, turn))
  {
    var i, u := turn.second, AfterTurn(p, s, turn).disk;
    SourcesStay(d0, p, first, second, s, turn);
    TargetsGoOn(d0, p, first, second, s, turn);
    HalfChanges(s.disk, p.Source(i), p.Target(i), s.Phase(i), turn.half, p.d1);
    HalfChanges(s.disk, p.Source(i), p.Target(i), s.Phase(i), turn.half, p.d2);
    forall j, k
      ensures Clear(d0, j, k) <==> Clear(u, j, k)
    {
      HalfKeepsNames(s.disk, p.Source(i), p.Target(i), s.Phase(i), turn.half, j, k);
    }
  }

  lemma {:induction false} StaysOnCourse(d0: Disk, p: Pair, first: string, second: string, turns: seq<Turn>)
    requires CopyingKeeps(d0, p, first, second) && HeldAt(d0.tree, p.s1, p.s2, first, second)
    requires AfterTurns(p, Begin(d0), turns).Some? && !AfterTurns(p, Begin(d0), turns).value.Failed()
    ensures OnCourse(d0, p, first, second, AfterTurns(p, Begin(d0), turns).value)
  {
    if turns == [] {
    } else {
      var n := |turns| - 1;
      StaysOnCourse(d0, p, first, second, turns[..n]);
      TurnStaysOnCourse(d0, p, first, second, AfterTurns(p, Begin(d0), turns[..n]).value, turns[n]);
    }
  }

  // ---------------------------------------------------------------- copies that lose a content

  /** An interleaving has come this far, and both copies can still be made. */
  ghost predicate Underway(p: Pair, d0: Disk, s: CopyState) {
    CopyEnds(p, d0, s) && CanBothCopy(s.disk, p)
  }

  lemma BeginsUnderway(p: Pair, d0: Disk)
    requires CanBothCopy(d0, p)
    ensures Underway(p, d0, Begin(d0))
  {
    assert AfterTurns(p, Begin(d0), []) == Some(Begin(d0));
  }

  function Opening(p: Pair, s: CopyState, i: bool): CopyState
    requires CanTurn(p, s, Turn(i, Opens))
  {
    AfterTurn(p, s, Turn(i, Opens))
  }

  function Filling(p: Pair, s: CopyState, i: bool): CopyState
    requires CanTurn(p, s, Turn(i, Fills))
  {
    AfterTurn(p, s, Turn(i, Fills))
  }

  lemma TurnGoesOn(p: Pair, d0: Disk, s: CopyState, i: bool, h: Half)
    requires Underway(p, d0, s) && CanTurn(p, s, Turn(i, h))
    ensures Underway(p, d0, AfterTurn(p, s, Turn(i, h))) && NamesStay(s.disk, AfterTurn(p, s, Turn(i, h)).disk)
  {
    var turns :| AfterTurns(p, Begin(d0), turns) == Some(s);
    OneMoreTurn(p, Begin(d0), turns, s, Turn(i, h));
    forall k
      ensures IsDir(s.disk.tree, k) <==> IsDir(AfterTurn(p, s, Turn(i, h)).disk.tree, k)
      ensures IsFile(s.disk.tree, k) ==> IsFile(AfterTurn(p, s, Turn(i, h)).disk.tree, k)
    {
      HalfChanges(s.disk, p.Source(i), p.Target(i), s.Phase(i), h, k);
    }
    forall j, k
      ensures Clear(s.disk, j, k) <==> Clear(AfterTurn(p, s, Turn(i, h)).disk, j, k)
    {
      HalfKeepsNames(s.disk, p.Source(i), p.Target(i), s.Phase(i), h, j, k);
    }
  }

  lemma OpenGoesOn(p: Pair, d0: Disk, s: CopyState, i: bool)
    requires Underway(p, d0, s) && s.Phase(i).Waiting?
    ensures CanTurn(p, s, Turn(i, Opens)) && Underway(p, d0, Opening(p, s, i))
    ensures NamesStay(s.disk, Opening(p, s, i).disk)
    ensures IsFile(Opening(p, s, i).disk.tree, p.Target(i))
    ensures var t, u := s.disk.tree, Opening(p, s, i).disk.tree;
            forall k :: k in t ==> k in u && u[k] == if Clear(s.disk, p.Target(i), k) then t[k] else File("")
  {
    TurnGoesOn(p, d0, s, i, Opens);
    forall k
      ensures Clear(s.disk, p.Target(i), k) ==> SameAt(s.disk.tree, Opening(p, s, i).disk.tree, k)
      ensures k in s.disk.tree && !Clear(s.disk, p.Target(i), k) ==>
                k in Opening(p, s, i).disk.tree && Opening(p, s, i).disk.tree[k] == File("")
    {
      HalfChanges(s.disk, p.Source(i), p.Target(i), s.Phase(i), Opens, k);
    }
  }

  lemma FillGoesOn(p: Pair, d0: Disk, s: CopyState, i: bool)
    requires Underway(p, d0, s) && s.Phase(i).Opened? && IsFile(s.disk.tree, p.Target(i))
    ensures CanTurn(p, s, Turn(i, Fills)) && Underway(p, d0, Filling(p, s, i))
    ensures NamesStay(s.disk, Filling(p, s, i).disk)
    ensures var t, u := s.disk.tree, Filling(p, s, i).disk.tree;
            forall k :: k in t ==> k in u && u[k] == if Clear(s.disk, p.Target(i), k) then t[k] else t[p.Source(i)]
  {
    TurnGoesOn(p, d0, s, i, Fills);
    forall k
      ensures Clear(s.disk, p.Target(i), k) ==> SameAt(s.disk.tree, Filling(p, s, i).disk.tree, k)
      ensures k in s.disk.tree && !Clear(s.disk, p.Target(i), k) ==>
                k in Filling(p, s, i).disk.tree && Filling(p, s, i).disk.tree[k] == s.disk.tree[p.Source(i)]
    {
      HalfChanges(s.disk, p.Source(i), p.Target(i), s.Phase(i), Fills, k);
    }
  }

  /** What becomes of the nodes when both halves of a copy follow each other. */
  ghost predicate CopiedAt(d: Disk, u: Disk, source: Key, target: Key) {
    && NamesStay(d, u) && IsFile(d.tree, source)
    && target in u.tree && u.tree[target] == (if Clear(d, target, source) then d.tree[source] else File(""))
    && (forall k :: k in d.tree ==>
          k in u.tree && u.tree[k] == if Clear(d, target, k) then d.tree[k] else u.tree[target])
  }

  /** One copy can be made from beginning to end. */
  lemma WholeCopy(p: Pair, d0: Disk, s: CopyState, i: bool) returns (u: CopyState)
    requires Underway(p, d0, s) && s.Phase(i).Waiting?
    ensures Underway(p, d0, u) && u.Phase(i).Copied? && u.Phase(!i) == s.Phase(!i)
    ensures CopiedAt(s.disk, u.disk, p.Source(i), p.Target(i))
  {
    OpenGoesOn(p, d0, s, i);
    FillGoesOn(p, d0, Opening(p, s, i), i);
    u := Filling(p, Opening(p, s, i), i);
    assert u.disk.tree[p.Target(i)] == Opening(p, s, i).disk.tree[p.Source(i)];
  }

  /** Some interleaving succeeds and leaves other contents at the targets. */
  ghost predicate MayLose(p: Pair, d0: Disk, first: string, second: string) {
    exists d :: BothCopied(p, d0, d) && !HeldAt(d.tree, p.d1, p.d2, first, second)
  }

  /** The first and then the second copy, or the other way round. */
  lemma InSequence(p: Pair, d0: Disk, i: bool) returns (u: Disk, v: Disk)
    requires CanBothCopy(d0, p)
    ensures BothCopied(p, d0, v)
    ensures CopiedAt(d0, u, p.Source(!i), p.Target(!i)) && CopiedAt(u, v, p.Source(i), p.Target(i))
  {
    BeginsUnderway(p, d0);
    var s := WholeCopy(p, d0, Begin(d0), !i);
    var s' := WholeCopy(p, d0, s, i);
    u, v := s.disk, s'.disk;
    assert s' == CopyState(v, Copied, Copied);
  }

  /** Copying a file onto itself empties it. */
  lemma SelfCopyLoses(p: Pair, d0: Disk, i: bool, first: string, second: string)
    requires CanBothCopy(d0, p) && !Clear(d0, p.Target(i), p.Source(i)) && (if i then second else first) != ""
    ensures MayLose(p, d0, first, second)
  {
    var u, v := InSequence(p, d0, i);
    assert v.tree[p.Target(i)] == File("");
  }

  /** One file cannot hold two contents. */
  lemma OneTargetLoses(p: Pair, d0: Disk, first: string, second: string)
    requires CanBothCopy(d0, p) && !Clear(d0, p.d1, p.d2) && first != second
    ensures MayLose(p, d0, first, second)
  {
    var u, v := InSequence(p, d0, true);
    assert !Clear(v, p.d1, p.d2);
    assert v.tree[p.d1] == v.tree[p.d2];
  }

  /** Both targets are opened, then the files are filled. */
  lemma OpenedFirst(p: Pair, d0: Disk, i: bool) returns (u: CopyState)
    requires CanBothCopy(d0, p)
    ensures Underway(p, d0, u) && u.Phase(i).Opened? && u.Phase(!i).Opened? && NamesStay(d0, u.disk)
    ensures IsFile(u.disk.tree, p.d1) && IsFile(u.disk.tree, p.d2)
    ensures !Clear(d0, p.Target(!i), p.Source(i)) ==> u.disk.tree[p.Source(i)] == File("")
  {
    BeginsUnderway(p, d0);
    OpenGoesOn(p, d0, Begin(d0), !i);
    var s := Opening(p, Begin(d0), !i);
    OpenGoesOn(p, d0, s, i);
    u := Opening(p, s, i);
  }

  /** Both are filled, into different files, one after the other. */
  lemma FilledAfter(p: Pair, d0: Disk, s: CopyState, i: bool) returns (v: Disk)
    requires Underway(p, d0, s) && s.Phase(i).Opened? && s.Phase(!i).Opened? && Clear(s.disk, p.d1, p.d2)
    requires IsFile(s.disk.tree, p.d1) && IsFile(s.disk.tree, p.d2)
    ensures BothCopied(p, d0, v)
    ensures p.Target(i) in v.tree && v.tree[p.Target(i)] == s.disk.tree[p.Source(i)]
  {
    FillGoesOn(p, d0, s, i);
    var u := Filling(p, s, i);
    FillGoesOn(p, d0, u, !i);
    v := Filling(p, u, !i).disk;
    assert Filling(p, u, !i) == CopyState(v, Copied, Copied);
    assert Clear(u.disk, p.Target(!i), p.Target(i));
  }

  /** A source that has been opened as the other target is empty when it is read. */
  lemma ReadWhenEmptyLoses(p: Pair, d0: Disk, i: bool, first: string, second: string)
    requires CanBothCopy(d0, p) && !Clear(d0, p.Target(!i), p.Source(i)) && (if i then second else first) != ""
    requires Clear(d0, p.d1, p.d2)
    ensures MayLose(p, d0, first, second)
  {
    var s := OpenedFirst(p, d0, i);
    var v := FilledAfter(p, d0, s, i);
    assert v.tree[p.Target(i)] == File("");
  }

  /** A source that is the other target holds that one's content when it is read. */
  lemma ReadWhenFilledLoses(p: Pair, d0: Disk, i: bool, first: string, second: string)
    requires CanBothCopy(d0, p) && HeldAt(d0.tree, p.s1, p.s2, first, second)
    requires !Clear(d0, p.Target(!i), p.Source(i)) && Clear(d0, p.Target(!i), p.Source(!i)) && Clear(d0, p.d1, p.d2)
    requires first != second
    ensures MayLose(p, d0, first, second)
  {
    var u, v := InSequence(p, d0, i);
    assert u.tree[p.Source(i)] == d0.tree[p.Source(!i)];
    assert Clear(d0, p.Target(i), p.Source(i));
    assert v.tree[p.Target(i)] == d0.tree[p.Source(!i)];
  }

  /** When a content can get lost it does so in one of these ways. */
  lemma LosingInterleaving(p: Pair, d0: Disk, first: string, second: string)
    requires HeldAt(d0.tree, p.s1, p.s2, first, second) && CanBothCopy(d0, p) && !CopyingKeeps(d0, p, first, second)
    ensures MayLose(p, d0, first, second)
  {
    if first != "" && !Clear(d0, p.d1, p.s1) {
      SelfCopyLoses(p, d0, false, first, second);
    } else if second != "" && !Clear(d0, p.d2, p.s2) {
      SelfCopyLoses(p, d0, true, first, second);
    } else if !Clear(d0, p.d1, p.d2) {
      OneTargetLoses(p, d0, first, second);
    } else {
      var i := !Clear(d0, p.d1, p.s2);
      CrossingLoses(p, d0, i, first, second);
    }
  }

  /** A source that is the other target. */
  lemma CrossingLoses(p: Pair, d0: Disk, i: bool, first: string, second: string)
    requires HeldAt(d0.tree, p.s1, p.s2, first, second) && CanBothCopy(d0, p) && (first != "" || second != "")
    requires first == "" || Clear(d0, p.d1, p.s1)
    requires second == "" || Clear(d0, p.d2, p.s2)
    requires Clear(d0, p.d1, p.d2) && !Clear(d0, p.Target(!i), p.Source(i))
    ensures MayLose(p, d0, first, second)
  {
    if (if i then second else first) != "" {
      ReadWhenEmptyLoses(p, d0, i, first, second);
    } else {
      ReadWhenFilledLoses(p, d0, i, first, second);
    }
  }

  /** A copy that has been opened had room for its target from the beginning. */
  lemma {:induction false} OpenedHadRoom(p: Pair, d0: Disk, turns: seq<Turn>, i: bool)
    requires AfterTurns(p, Begin(d0), turns).Some?
    ensures var s := AfterTurns(p, Begin(d0), turns).value;
            && (s.Phase(i).Opened? || s.Phase(i).Copied? ==> CanCreate(d0.tree, p.Target(i)))
            && forall k :: IsDir(d0.tree, k) <==> IsDir(s.disk.tree, k)
  {
    if turns == [] {
    } else {
      var n := |turns| - 1;
      var s, j, h := AfterTurns(p, Begin(d0), turns[..n]).value, turns[n].second, turns[n].half;
      OpenedHadRoom(p, d0, turns[..n], i);
      forall k
        ensures IsDir(d0.tree, k) <==> IsDir(AfterTurn(p, s, turns[n]).disk.tree, k)
      {
        HalfChanges(s.disk, p.Source(j), p.Target(j), s.Phase(j), h, k);
      }
    }
  }

  lemma CopiesThatKeep(p: Pair, d0: Disk, d: Disk, first: string, second: string)
    requires HeldAt(d0.tree, p.s1, p.s2, first, second) && BothCopied(p, d0, d)
    ensures CanCreate(d0.tree, p.d1) && CanCreate(d0.tree, p.d2)
    ensures CopyingKeeps(d0, p, first, second) ==> HeldAt(d.tree, p.d1, p.d2, first, second)
  {
    var turns :| AfterTurns(p, Begin(d0), turns) == Some(CopyState(d, Copied, Copied));
    OpenedHadRoom(p, d0, turns, false);
    OpenedHadRoom(p, d0, turns, true);
    if CopyingKeeps(d0, p, first, second) {
      StaysOnCourse(d0, p, first, second, turns);
    }
  }

  /**
   * Two copies that succeed may lose a content, in some interleaving, if and only if there is room for the targets and
   * the files are not related as `CopyingKeeps` says.
   */
  lemma CopyingLosesIff(p: Pair, d0: Disk, first: string, second: string)
    requires HeldAt(d0.tree, p.s1, p.s2, first, second)
    ensures MayLose(p, d0, first, second)
            <==> CanCreate(d0.tree, p.d1) && CanCreate(d0.tree, p.d2) && !CopyingKeeps(d0, p, first, second)
  {
    if MayLose(p, d0, first, second) {
      var d :| BothCopied(p, d0, d) && !HeldAt(d.tree, p.d1, p.d2, first, second);
      CopiesThatKeep(p, d0, d, first, second);
    } else if CanBothCopy(d0, p) && !CopyingKeeps(d0, p, first, second) {
      LosingInterleaving(p, d0, first, second);
    }
  }

  // ---------------------------------------------------------------- copies that fail

  /** Neither source is in the file at a target there is room for. */
  predicate FailureSpares(d: Disk, p: Pair) {
    TargetSpares(d, p, p.d1) && TargetSpares(d, p, p.d2)
  }

  predicate TargetSpares(d: Disk, p: Pair, target: Key) {
    CanCreate(d.tree, target) ==> Clear(d, target, p.s1) && Clear(d, target, p.s2)
  }

  /** As long as that is so the sources stay as they are. */
  lemma {:induction false} SparedSources(p: Pair, d0: Disk, turns: seq<Turn>, k: Key)
    requires FailureSpares(d0, p) && AfterTurns(p, Begin(d0), turns).Some? && (k == p.s1 || k == p.s2)
    ensures SameAt(d0.tree, AfterTurns(p, Begin(d0), turns).value.disk.tree, k)
  {
    if turns == [] {
    } else {
      var n := |turns| - 1;
      var s, i, h := AfterTurns(p, Begin(d0), turns[..n]).value, turns[n].second, turns[n].half;
      SparedSources(p, d0, turns[..n], k);
      TurnsTouchTargets(p, d0, turns[..n]);
      OpenedHadRoom(p, d0, turns[..n], i);
      HalfChanges(s.disk, p.Source(i), p.Target(i), s.Phase(i), h, k);
    }
  }

  ghost predicate MayBreak(p: Pair, d0: Disk, first: string, second: string) {
    exists d :: CopyingFailed(p, d0, d) && !HeldAt(d.tree, p.s1, p.s2, first, second)
  }

  /** A target that was opened and then filled with some text. */
  function Broken(d: Disk, target: Key, part: string): Disk
    requires CanCreate(d.tree, target)
  {
    Write(Open(d, target), target, part)
  }

  lemma BreakingFails(p: Pair, d0: Disk, i: bool, part: string)
    requires IsFile(d0.tree, p.Source(i)) && CanCreate(d0.tree, p.Target(i))
    ensures CopyingFailed(p, d0, Broken(d0, p.Target(i), part))
  {
    var s := Begin(d0);
    assert AfterTurns(p, s, []) == Some(s);
    OneMoreTurn(p, s, [], s, Turn(i, Opens));
    var u := AfterTurn(p, s, Turn(i, Opens));
    OneMoreTurn(p, s, [] + [Turn(i, Opens)], u, Turn(i, Breaks(part)));
    var v := AfterTurn(p, u, Turn(i, Breaks(part)));
    assert CopyEnds(p, d0, v) && v.Failed();
  }

  lemma BrokenAt(d: Disk, target: Key, part: string, k: Key)
    requires CanCreate(d.tree, target) && k in d.tree && !Clear(d, target, k)
    ensures k in Broken(d, target, part).tree && Broken(d, target, part).tree[k] == File(part)
  {
  }

  /**
   * Two copies of which one fails may change a source, in some interleaving and with some text written, if and only if
   * there is room for a target in whose file a source is.
   */
  lemma FailingLosesIff(p: Pair, d0: Disk, first: string, second: string)
    requires HeldAt(d0.tree, p.s1, p.s2, first, second)
    ensures MayBreak(p, d0, first, second) <==> !FailureSpares(d0, p)
  {
    if FailureSpares(d0, p) {
      SparedAreHeld(p, d0, first, second);
    } else if !TargetSpares(d0, p, p.d1) {
      BreakingLoses(p, d0, false, first, second);
    } else {
      BreakingLoses(p, d0, true, first, second);
    }
  }

  lemma SparedAreHeld(p: Pair, d0: Disk, first: string, second: string)
    requires HeldAt(d0.tree, p.s1, p.s2, first, second) && FailureSpares(d0, p)
    ensures !MayBreak(p, d0, first, second)
  {
    forall d | CopyingFailed(p, d0, d)
      ensures HeldAt(d.tree, p.s1, p.s2, first, second)
    {
      FailedCopiesSpare(p, d0, d);
    }
  }

  lemma BreakingLoses(p: Pair, d0: Disk, i: bool, first: string, second: string)
    requires HeldAt(d0.tree, p.s1, p.s2, first, second) && !TargetSpares(d0, p, p.Target(i))
    ensures MayBreak(p, d0, first, second)
  {
    var (k, text) := if Clear(d0, p.Target(i), p.s1) then (p.s2, second) else (p.s1, first);
    BreakingFails(p, d0, i, text + "!");
    BrokenAt(d0, p.Target(i), text + "!", k);
    assert text + "!" != text;
  }

  lemma FailedCopiesSpare(p: Pair, d0: Disk, d: Disk)
    requires CopyingFailed(p, d0, d) && FailureSpares(d0, p)
    ensures SameAt(d0.tree, d.tree, p.s1) && SameAt(d0.tree, d.tree, p.s2)
  {
    var s: CopyState :| CopyEnds(p, d0, s) && s.Failed() && s.disk == d;
    var turns :| AfterTurns(p, Begin(d0), turns) == Some(s);
    SparedSources(p, d0, turns, p.s1);
    SparedSources(p, d0, turns, p.s2);
  }

  // ---------------------------------------------------------------- copies that do not disturb each other

  /** Neither target is a source, or the other target, under any name. */
  predicate CopiesApart(d: Disk, p: Pair) {
    Clear(d, p.d1, p.s1) && Clear(d, p.d1, p.s2) && Clear(d, p.d2, p.s1) && Clear(d, p.d2, p.s2) && Clear(d, p.d1, p.d2)
  }

  lemma {:induction false} CopiedWereFiles(p: Pair, d0: Disk, turns: seq<Turn>, i: bool)
    requires AfterTurns(p, Begin(d0), turns).Some?
    ensures var s := AfterTurns(p, Begin(d0), turns).value;
            s.Phase(i).Opened? || s.Phase(i).Copied? ==> IsFile(s.disk.tree, p.Source(i))
  {
    if turns == [] {
    } else {
      var n := |turns| - 1;
      var s, j := AfterTurns(p, Begin(d0), turns[..n]).value, turns[n].second;
      CopiedWereFiles(p, d0, turns[..n], i);
      HalfChanges(s.disk, p.Source(j), p.Target(j), s.Phase(j), turns[n].half, p.Source(i));
    }
  }

  /** Then both targets hold what the sources held, whatever that was, and the sources are as before. */
  lemma ApartCopiesSucceed(p: Pair, d0: Disk, d: Disk)
    requires CopiesApart(d0, p) && BothCopied(p, d0, d)
    ensures IsFile(d0.tree, p.s1) && p.d1 in d.tree && d.tree[p.d1] == d0.tree[p.s1] && SameAt(d0.tree, d.tree, p.s1)
    ensures IsFile(d0.tree, p.s2) && p.d2 in d.tree && d.tree[p.d2] == d0.tree[p.s2] && SameAt(d0.tree, d.tree, p.s2)
  {
    var turns :| AfterTurns(p, Begin(d0), turns) == Some(CopyState(d, Copied, Copied));
    TurnsTouchTargets(p, d0, turns);
    CopiedWereFiles(p, d0, turns, false);
    CopiedWereFiles(p, d0, turns, true);
    assert SameAt(d0.tree, d.tree, p.s1) && SameAt(d0.tree, d.tree, p.s2);
    StaysOnCourse(d0, p, d0.tree[p.s1].content, d0.tree[p.s2].content, turns);
  }

  // ---------------------------------------------------------------- two renames at once

  predicate RenamedInOrder(d0: Disk, s1: Key, d1: Key, s2: Key, d2: Key, d: Disk) {
    && CanRename(d0.tree, s1, d1)
    && CanRename(Move(d0, s1, d1).tree, s2, d2)
    && d == Move(Move(d0, s1, d1), s2, d2)
  }

  predicate RenamedOne(d0: Disk, s: Key, d: Key, e: Disk) {
    CanRename(d0.tree, s, d) && e == Move(d0, s, d)
  }

  predicate BothRenamed(p: Pair, d0: Disk, d: Disk) {
    RenamedInOrder(d0, p.s1, p.d1, p.s2, p.d2, d) || RenamedInOrder(d0, p.s2, p.d2, p.s1, p.d1, d)
  }

  predicate RenamingFailed(p: Pair, d0: Disk, d: Disk) {
    d == d0 || RenamedOne(d0, p.s1, p.d1, d) || RenamedOne(d0, p.s2, p.d2, d)
  }

  /** Two files that can be renamed, in either order. */
  predicate CanBothRename(d: Disk, p: Pair) {
    p.s1 != p.s2 && CanRename(d.tree, p.s1, p.d1) && CanRename(d.tree, p.s2, p.d2)
  }

  /** Two renames under `try_join!`. */
  method RenameBoth(host: Host, s1: PathBuf, d1: PathBuf, s2: PathBuf, d2: PathBuf) returns (ok: bool)
    modifies host
    ensures var p := Pair(host.At(s1), host.At(d1), host.At(s2), host.At(d2));
            && (if ok then BothRenamed(p, old(host.disk), host.disk) else RenamingFailed(p, old(host.disk), host.disk))
            && (host.obliging && CanBothRename(old(host.disk), p) ==> ok)
  {
    var swapped: bool := *;
    if swapped {
      ok := RenameInTurn(host, s2, d2, s1, d1);
    } else {
      ok := RenameInTurn(host, s1, d1, s2, d2);
    }
  }

  /** One rename and then the other, which may also happen when the first has failed. */
  method RenameInTurn(host: Host, s1: PathBuf, d1: PathBuf, s2: PathBuf, d2: PathBuf) returns (ok: bool)
    modifies host
    ensures ok ==> RenamedInOrder(old(host.disk), host.At(s1), host.At(d1), host.At(s2), host.At(d2), host.disk)
    ensures !ok ==> RenamingFailed(Pair(host.At(s1), host.At(d1), host.At(s2), host.At(d2)), old(host.disk), host.disk)
    ensures host.obliging && CanBothRename(old(host.disk), Pair(host.At(s1), host.At(d1), host.At(s2), host.At(d2))) ==>
              ok
  {
    if CanBothRename(host.disk, Pair(host.At(s1), host.At(d1), host.At(s2), host.At(d2))) {
      SecondCanMove(host.disk, host.At(s1), host.At(d1), host.At(s2), host.At(d2));
    }
    ok := host.RenameFile(s1, d1);
    var alsoRuns: bool := *;
    if ok {
      ok := host.RenameFile(s2, d2);
    } else if alsoRuns {
      var late := host.RenameFile(s2, d2);
    }
  }

  /** The targets differ and neither is the other's source; moving a file onto itself is allowed. */
  predicate MovesApart(p: Pair) {
    p.s1 != p.s2 && p.d1 != p.d2 && p.d1 != p.s2 && p.d2 != p.s1
  }

  /** Both files are at their targets, and what is at no other of these four names is as before. */
  ghost predicate MovedBoth(p: Pair, d0: Disk, d: Disk) {
    && IsFile(d0.tree, p.s1) && p.d1 in d.tree && d.tree[p.d1] == d0.tree[p.s1]
    && IsFile(d0.tree, p.s2) && p.d2 in d.tree && d.tree[p.d2] == d0.tree[p.s2]
    && (p.s1 in d.tree ==> SameFile(d0, p.s1, p.d1)) && (p.s2 in d.tree ==> SameFile(d0, p.s2, p.d2))
    && (forall k :: k !in {p.s1, p.d1, p.s2, p.d2} ==> SameAt(d0.tree, d.tree, k))
  }

  lemma MovedInEitherOrder(d0: Disk, s1: Key, d1: Key, s2: Key, d2: Key, d: Disk)
    requires MovesApart(Pair(s1, d1, s2, d2)) && RenamedInOrder(d0, s1, d1, s2, d2, d)
    ensures MovedBoth(Pair(s1, d1, s2, d2), d0, d) && MovedBoth(Pair(s2, d2, s1, d1), d0, d)
  {
    var middle := Move(d0, s1, d1);
    MoveAt(d0, s1, d1);
    MoveAt(middle, s2, d2);
    assert SameAt(d0.tree, middle.tree, s2) && SameAt(middle.tree, d.tree, d1) && SameAt(middle.tree, d.tree, s1);
    SameFileAfterMove(d0, s1, d1, s2, d2);
    forall k | k !in {s1, d1, s2, d2}
      ensures SameAt(d0.tree, d.tree, k)
    {
      assert SameAt(d0.tree, middle.tree, k) && SameAt(middle.tree, d.tree, k);
    }
  }

  lemma SameFileAfterMove(d: Disk, s1: Key, d1: Key, s2: Key, d2: Key)
    requires MovesApart(Pair(s1, d1, s2, d2)) && CanRename(d.tree, s1, d1)
    ensures SameFile(Move(d, s1, d1), s2, d2) ==> SameFile(d, s2, d2)
  {
  }

  /** When nothing is clobbered it does not matter which of the renames comes first. */
  lemma RenamesInOrderCommute(p: Pair, d0: Disk, d: Disk)
    requires MovesApart(p) && BothRenamed(p, d0, d)
    ensures MovedBoth(p, d0, d)
  {
    if RenamedInOrder(d0, p.s1, p.d1, p.s2, p.d2, d) {
      MovedInEitherOrder(d0, p.s1, p.d1, p.s2, p.d2, d);
    } else {
      MovedInEitherOrder(d0, p.s2, p.d2, p.s1, p.d1, d);
    }
  }

  // ---------------------------------------------------------------- renames that lose a content

  /** A rename that is possible and does something. */
  predicate MovesAway(d: Disk, source: Key, target: Key) {
    CanRename(d.tree, source, target) && !SameFile(d, source, target)
  }

  /**
   * What it takes for the first file to go before the second.  Where the first would replace the second, that one's
   * rename must find nothing to do.
   */
  predicate TurnKeeps(d: Disk, s1: Key, d1: Key, s2: Key, d2: Key, first: string, second: string) {
    if s1 == s2 then d1 == s1 ==> SameFile(d, s1, d2)
    else if d1 == s2 then
      first == second && (d2 == s2 || (SameFile(d, s1, d2) && (d2 == s1 ==> SameFile(d, s1, s2))))
    else d1 == d2 ==> first == second
  }

  predicate RenamingKeeps(d: Disk, p: Pair, first: string, second: string) {
    && TurnKeeps(d, p.s1, p.d1, p.s2, p.d2, first, second)
    && TurnKeeps(d, p.s2, p.d2, p.s1, p.d1, second, first)
  }

  lemma RoomAfterMove(d: Disk, s1: Key, d1: Key, k: Key)
    requires CanRename(d.tree, s1, d1)
    ensures CanCreate(Move(d, s1, d1).tree, k) <==> CanCreate(d.tree, k)
  {
    if k != [] {
      DirsAfterMove(d, s1, d1, k);
      DirsAfterMove(d, s1, d1, Up(k));
    }
  }

  lemma DirsAfterMove(d: Disk, s1: Key, d1: Key, k: Key)
    requires CanRename(d.tree, s1, d1)
    ensures IsDir(d.tree, k) <==> IsDir(Move(d, s1, d1).tree, k)
  {
    MoveAt(d, s1, d1);
    assert k != s1 && k != d1 ==> SameAt(d.tree, Move(d, s1, d1).tree, k);
  }

  /** One file under two names, or two files at different places: the first goes, then the second can go. */
  lemma SecondCanMove(d: Disk, s1: Key, d1: Key, s2: Key, d2: Key)
    requires CanRename(d.tree, s1, d1) && IsFile(d.tree, s2) && CanCreate(d.tree, d2)
    ensures CanRename(Move(d, s1, d1).tree, s2, d2) <==> s1 != s2 || SameFile(d, s1, d1)
  {
    RoomAfterMove(d, s1, d1, d2);
    MoveAt(d, s1, d1);
  }

  lemma DifferentInTurn(d: Disk, s1: Key, d1: Key, s2: Key, d2: Key, first: string, second: string)
    requires HeldAt(d.tree, s1, s2, first, second) && s1 != s2 && d1 != s2
    requires CanCreate(d.tree, d1) && CanRename(Move(d, s1, d1).tree, s2, d2)
    ensures HeldAt(Move(Move(d, s1, d1), s2, d2).tree, d1, d2, first, second)
            <==> TurnKeeps(d, s1, d1, s2, d2, first, second)
  {
    var middle := Move(d, s1, d1);
    MoveAt(d, s1, d1);
    MoveAt(middle, s2, d2);
    assert SameAt(d.tree, middle.tree, s2);
    assert d1 != d2 ==> SameAt(middle.tree, Move(middle, s2, d2).tree, d1);
  }

  /** The first takes the place of the second. */
  lemma ReplacingInTurn(d: Disk, s1: Key, s2: Key, d2: Key, first: string, second: string)
    requires HeldAt(d.tree, s1, s2, first, second) && s1 != s2
    requires CanCreate(d.tree, s2) && CanRename(Move(d, s1, s2).tree, s2, d2)
    ensures HeldAt(Move(Move(d, s1, s2), s2, d2).tree, s2, d2, first, second)
            <==> TurnKeeps(d, s1, s2, s2, d2, first, second)
  {
    var middle := Move(d, s1, s2);
    MoveAt(d, s1, s2);
    MoveAt(middle, s2, d2);
    NamesAfterReplacing(d, s1, s2, d2);
  }

  lemma NamesAfterReplacing(d: Disk, s1: Key, s2: Key, d2: Key)
    requires CanRename(d.tree, s1, s2) && IsFile(d.tree, s2) && s1 != s2
    ensures SameFile(Move(d, s1, s2), s2, d2)
            <==> d2 == s2 || (SameFile(d, s1, d2) && (d2 == s1 ==> SameFile(d, s1, s2)))
  {
  }

  /** One file is asked to go to two places. */
  lemma OneFileInTurn(d: Disk, s: Key, d1: Key, d2: Key, content: string)
    requires HeldAt(d.tree, s, s, content, content) && CanRename(d.tree, s, d1)
    requires CanRename(Move(d, s, d1).tree, s, d2)
    ensures HeldAt(Move(Move(d, s, d1), s, d2).tree, d1, d2, content, content)
            <==> TurnKeeps(d, s, d1, s, d2, content, content)
  {
    MoveAt(d, s, d1);
    MoveAt(d, s, d2);
    assert SameFile(d, s, d1);
  }

  lemma InTurn(d: Disk, s1: Key, d1: Key, s2: Key, d2: Key, first: string, second: string, u: Disk)
    requires HeldAt(d.tree, s1, s2, first, second) && RenamedInOrder(d, s1, d1, s2, d2, u)
    ensures CanCreate(d.tree, d1) && CanCreate(d.tree, d2)
    ensures HeldAt(u.tree, d1, d2, first, second) <==> TurnKeeps(d, s1, d1, s2, d2, first, second)
  {
    RoomAfterMove(d, s1, d1, d2);
    if s1 == s2 {
      OneFileInTurn(d, s1, d1, d2, first);
    } else if d1 == s2 {
      ReplacingInTurn(d, s1, s2, d2, first, second);
    } else {
      DifferentInTurn(d, s1, d1, s2, d2, first, second);
    }
  }

  /** Where this order asks for something that is not the case, it can happen. */
  lemma OrderThatLoses(d: Disk, s1: Key, d1: Key, s2: Key, d2: Key, first: string, second: string)
    requires HeldAt(d.tree, s1, s2, first, second) && CanCreate(d.tree, d1) && CanCreate(d.tree, d2)
    requires !TurnKeeps(d, s1, d1, s2, d2, first, second)
    ensures RenamedInOrder(d, s1, d1, s2, d2, Move(Move(d, s1, d1), s2, d2))
    ensures !HeldAt(Move(Move(d, s1, d1), s2, d2).tree, d1, d2, first, second)
  {
    SecondCanMove(d, s1, d1, s2, d2);
    InTurn(d, s1, d1, s2, d2, first, second, Move(Move(d, s1, d1), s2, d2));
  }

  ghost predicate MayMisplace(p: Pair, d0: Disk, first: string, second: string) {
    exists d :: BothRenamed(p, d0, d) && !HeldAt(d.tree, p.d1, p.d2, first, second)
  }

  /**
   * Two renames that succeed may lose a content, in one of their orders, if and only if there is room for the targets
   * and one order does not keep what it asks for.
   */
  lemma RenamingLosesIff(p: Pair, d0: Disk, first: string, second: string)
    requires HeldAt(d0.tree, p.s1, p.s2, first, second)
    ensures MayMisplace(p, d0, first, second)
            <==> CanCreate(d0.tree, p.d1) && CanCreate(d0.tree, p.d2) && !RenamingKeeps(d0, p, first, second)
  {
    if MayMisplace(p, d0, first, second) {
      var d :| BothRenamed(p, d0, d) && !HeldAt(d.tree, p.d1, p.d2, first, second);
      if RenamedInOrder(d0, p.s1, p.d1, p.s2, p.d2, d) {
        InTurn(d0, p.s1, p.d1, p.s2, p.d2, first, second, d);
      } else {
        InTurn(d0, p.s2, p.d2, p.s1, p.d1, second, first, d);
      }
    } else if CanCreate(d0.tree, p.d1) && CanCreate(d0.tree, p.d2) {
      if !TurnKeeps(d0, p.s1, p.d1, p.s2, p.d2, first, second) {
        OrderThatLoses(d0, p.s1, p.d1, p.s2, p.d2, first, second);
      }
      if !TurnKeeps(d0, p.s2, p.d2, p.s1, p.d1, second, first) {
        OrderThatLoses(d0, p.s2, p.d2, p.s1, p.d1, second, first);
      }
    }
  }
}
