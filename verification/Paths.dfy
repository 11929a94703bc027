/**
 Paths at two levels.  A `PathBuf` is what the standard library compares, hashes and resolves: a flag for the
 leading separator and the components.  `Parse` maps the raw strings the program concatenates onto that value, and
 the lemmas below show that the string operations `PathBuf::join` and `JailJoin::jail_join` compute the
 corresponding operation on values.
 */
module Paths {
  import opened Wrappers

  const SEPARATOR := '/'

  datatype PathBuf = PathBuf(rooted: bool, parts: seq<string>) {

    /** `PathBuf::join`: an absolute right-hand side replaces the left-hand side. */
    function Join(other: PathBuf): PathBuf {
      if other.rooted then other else PathBuf(rooted, parts + other.parts)
    }

    /** `PathBuf::jail_join` on values: never a replacement. */
    function JailJoin(other: PathBuf): PathBuf {
      PathBuf(rooted, parts + other.parts)
    }

    /** `Path::parent`: none for the root directory and for the empty path. */
    function Parent(): Option<PathBuf> {
      if parts == [] then None else Some(PathBuf(rooted, parts[..|parts| - 1]))
    }

    /** `Path::file_name`. */
    function FileName(): Option<string> {
      if parts == [] then None else Some(parts[|parts| - 1])
    }

    /** `to_string_lossy`, for a path written without repeated separators. */
    function Text(): string {
      (if rooted then [SEPARATOR] else "") + TextOfParts(parts)
    }
  }

  function TextOfParts(parts: seq<string>): string {
    if parts == [] then "" else if |parts| == 1 then parts[0] else parts[0] + [SEPARATOR] + TextOfParts(parts[1..])
  }

  /** A path made of one ordinary component, such as a file name. */
  function Single(name: string): PathBuf {
    PathBuf(false, [name])
  }

  predicate IsComponent(s: string) {
    s != "" && SEPARATOR !in s
  }

  // ---------------------------------------------------------------- the string level

  /** The length of the longest separator-free prefix. */
  function RunLength(s: string): (n: nat)
    ensures n <= |s|
    ensures SEPARATOR !in s[..n]
    ensures n < |s| ==> s[n] == SEPARATOR
  {
    if s == "" || s[0] == SEPARATOR then 0 else 1 + RunLength(s[1..])
  }

  /** The non-empty pieces between separators. */
  function Segments(s: string): (r: seq<string>)
    ensures forall i :: 0 <= i < |r| ==> IsComponent(r[i])
    decreases |s|
  {
    if s == "" then []
    else if s[0] == SEPARATOR then Segments(s[1..])
    else [s[..RunLength(s)]] + Segments(s[RunLength(s)..])
  }

  function Parse(s: string): PathBuf {
    PathBuf(s != "" && s[0] == SEPARATOR, Segments(s))
  }

  /** `PathBuf::push` on the underlying string. */
  function JoinText(base: string, other: string): string {
    if other != "" && other[0] == SEPARATOR then other
    else if base == "" || base[|base| - 1] == SEPARATOR then base + other
    else base + [SEPARATOR] + other
  }

  /** `trim_start_matches("/")`. */
  function TrimSeparators(s: string): string {
    if s != "" && s[0] == SEPARATOR then TrimSeparators(s[1..]) else s
  }

  function JailJoinText(base: string, other: string): string {
    JoinText(base, TrimSeparators(other))
  }

  lemma {:induction false} RunLengthOfConcat(a: string, b: string)
    ensures RunLength(a + [SEPARATOR] + b) == RunLength(a)
  {
    if a == "" || a[0] == SEPARATOR {
    } else {
      RunLengthOfConcat(a[1..], b);
      assert (a + [SEPARATOR] + b)[1..] == a[1..] + [SEPARATOR] + b;
    }
  }

  /** Cutting a string at a separator cuts its list of components. */
  lemma {:induction false} SegmentsSplitAtSeparator(a: string, b: string)
    ensures Segments(a + [SEPARATOR] + b) == Segments(a) + Segments(b)
    decreases |a|
  {
    var s := a + [SEPARATOR] + b;
    if a == "" {
      assert s == [SEPARATOR] + b && s[1..] == b;
    } else if a[0] == SEPARATOR {
      assert s[1..] == a[1..] + [SEPARATOR] + b;
      SegmentsSplitAtSeparator(a[1..], b);
    } else {
      var n := RunLength(a);
      RunLengthOfConcat(a, b);
      assert n > 0 && s[..n] == a[..n];
      assert s[n..] == a[n..] + [SEPARATOR] + b;
      SegmentsSplitAtSeparator(a[n..], b);
    }
  }

  lemma {:induction false} TrimKeepsSegments(s: string)
    ensures Segments(TrimSeparators(s)) == Segments(s)
    ensures TrimSeparators(s) != "" ==> TrimSeparators(s)[0] != SEPARATOR
  {
    if s == "" || s[0] != SEPARATOR {
    } else {
      TrimKeepsSegments(s[1..]);
    }
  }

  lemma EndsWithSeparator(s: string)
    ensures Segments(s + [SEPARATOR]) == Segments(s)
  {
    SegmentsSplitAtSeparator(s, "");
    assert s + [SEPARATOR] + "" == s + [SEPARATOR];
  }

  lemma SegmentsAfterSeparator(base: string, other: string)
    requires base != "" && base[|base| - 1] == SEPARATOR
    ensures Segments(base + other) == Segments(base) + Segments(other)
  {
    var shorter := base[..|base| - 1];
    assert base == shorter + [SEPARATOR];
    EndsWithSeparator(shorter);
    SegmentsSplitAtSeparator(shorter, other);
  }

  /** Appending a relative string keeps the components of both sides. */
  lemma SegmentsOfJoin(base: string, other: string)
    requires other == "" || other[0] != SEPARATOR
    ensures Segments(JoinText(base, other)) == Segments(base) + Segments(other)
  {
    if base == "" {
      assert JoinText(base, other) == other;
    } else if base[|base| - 1] == SEPARATOR {
      SegmentsAfterSeparator(base, other);
    } else {
      SegmentsSplitAtSeparator(base, other);
    }
  }

  /** Joining strings and then reading components is joining component lists. */
  lemma ParseOfJoin(base: string, other: string)
    ensures Parse(JoinText(base, other)) == Parse(base).Join(Parse(other))
  {
    if other == "" || other[0] != SEPARATOR {
      SegmentsOfJoin(base, other);
      assert JoinText(base, other) != "" ==> JoinText(base, other)[0] == (if base == "" then other[0] else base[0]);
    }
  }

  /**
   * The jail join of any two strings, absolute or not, denotes the components of the base followed by the components
   * of the inner path: the replacing branch of `join` is never taken.
   */
  lemma ParseOfJailJoin(base: string, inner: string)
    ensures Parse(JailJoinText(base, inner)) == Parse(base).JailJoin(Parse(inner))
    ensures Parse(base).parts <= Parse(JailJoinText(base, inner)).parts
    ensures base != "" ==> base <= JailJoinText(base, inner)
  {
    TrimKeepsSegments(inner);
    ParseOfJoin(base, TrimSeparators(inner));
  }

  /** A single component reads back as itself. */
  lemma ParseOfComponent(name: string)
    requires IsComponent(name)
    ensures Parse(name) == Single(name)
    ensures Parse([SEPARATOR] + name) == PathBuf(true, [name])
  {
    RunLengthOfComponent(name);
    assert SEPARATOR !in name && name[0] in name;
    assert name[..|name|] == name && name[|name|..] == "";
    assert Segments("") == [];
    assert Segments(name) == [name];
    assert ([SEPARATOR] + name)[1..] == name;
  }

  lemma {:induction false} RunLengthOfComponent(s: string)
    requires SEPARATOR !in s
    ensures RunLength(s) == |s|
  {
    if s == "" {
    } else {
      assert s[0] in s;
      RunLengthOfComponent(s[1..]);
    }
  }

  lemma {:induction false} SegmentsOfText(parts: seq<string>)
    requires forall part :: part in parts ==> IsComponent(part)
    ensures Segments(TextOfParts(parts)) == parts
    ensures parts != [] ==> TextOfParts(parts) != "" && TextOfParts(parts)[0] != SEPARATOR
  {
    if parts == [] {
    } else {
      assert IsComponent(parts[0]) && parts[0][0] in parts[0];
      ParseOfComponent(parts[0]);
      if |parts| > 1 {
        SegmentsOfText(parts[1..]);
        SegmentsSplitAtSeparator(parts[0], TextOfParts(parts[1..]));
        assert parts == [parts[0]] + parts[1..];
      }
    }
  }

  /** The text of a path reads back as the path. */
  lemma ParseOfText(p: PathBuf)
    requires forall part :: part in p.parts ==> IsComponent(part)
    ensures Parse(p.Text()) == p
  {
    SegmentsOfText(p.parts);
    if p.rooted {
      assert p.Text()[1..] == TextOfParts(p.parts);
    } else {
      assert p.Text() == TextOfParts(p.parts);
    }
  }
}
