/**
 * The resource-path templates of the sample renderer, and a parser that
 * inverts them: every image path is `data/samples/<modality>/<category>/<filename>`.
 */
module SamplePaths {
  import opened Wrappers

  /** The three image directories under each modality. */
  datatype Category = Signals | PosesUniversalPose | PosesBaseline

  function Dir(c: Category): string
  {
    match c
    case Signals => "signals"
    case PosesUniversalPose => "poses-universalpose"
    case PosesBaseline => "poses-baseline"
  }

  const Root: string := "data/samples/"

  /** The template of js/main.js:92-95. */
  function SamplePath(modality: string, c: Category, filename: string): string
  {
    Root + modality + "/" + Dir(c) + "/" + filename
  }

  datatype PathParts = PathParts(modality: string, category: Category, filename: string)

  /** Position of the first `/` in `s`, if there is one. */
  function IndexOfSlash(s: string): (r: Option<nat>)
    ensures r.None? <==> '/' !in s
    ensures r.Some? ==> r.value < |s| && s[r.value] == '/' && '/' !in s[..r.value]
  {
    if |s| == 0 then None
    else if s[0] == '/' then Some(0)
    else
      match IndexOfSlash(s[1..])
      case None => None
      case Some(i) =>
        assert s[..i + 1] == [s[0]] + s[1..][..i];
        Some(i + 1)
  }

  /** Splits `s` at its first `/` into the part before and the part after. */
  function SplitAtSlash(s: string): (r: Option<(string, string)>)
    ensures r.None? <==> '/' !in s
    ensures r.Some? ==> s == r.value.0 + "/" + r.value.1 && '/' !in r.value.0
  {
    match IndexOfSlash(s)
    case None => None
    case Some(i) =>
      assert s == s[..i] + "/" + s[i + 1..];
      Some((s[..i], s[i + 1..]))
  }

  /** The part of `p` after the root directory, if `p` starts with it. */
  function StripRoot(p: string): (r: Option<string>)
    ensures r.Some? ==> p == Root + r.value
  {
    if |p| < |Root| || p[..|Root|] != Root then None
    else
      assert p == p[..|Root|] + p[|Root|..];
      Some(p[|Root|..])
  }

  function CategoryOf(dir: string): (r: Option<Category>)
    ensures r.Some? ==> Dir(r.value) == dir
  {
    if dir == "signals" then Some(Signals)
    else if dir == "poses-universalpose" then Some(PosesUniversalPose)
    else if dir == "poses-baseline" then Some(PosesBaseline)
    else None
  }

  /**
   * Splits an image path back into its modality, category and filename:
   * the modality runs to the first `/` after the root, the category to the
   * next one, and the filename is everything after that.
   */
  function ParsePath(p: string): (r: Option<PathParts>)
    ensures r.Some? ==> p == SamplePath(r.value.modality, r.value.category, r.value.filename)
  {
    match StripRoot(p)
    case None => None
    case Some(rest) =>
      match SplitAtSlash(rest)
      case None => None
      case Some((modality, tail)) =>
        match SplitAtSlash(tail)
        case None => None
        case Some((dir, filename)) =>
          match CategoryOf(dir)
          case None => None
          case Some(c) =>
            PathOf(modality, dir, filename);
            Some(PathParts(modality, c, filename))
  }

  /** Reassociates the concatenation of a sample path. */
  lemma PathOf(modality: string, dir: string, filename: string)
    ensures Root + (modality + "/" + (dir + "/" + filename)) == Root + modality + "/" + dir + "/" + filename
  {
  }

  /** Splitting `a + "/" + b` with no slash in `a` gives back `a` and `b`. */
  lemma SplitAfter(a: string, b: string)
    requires '/' !in a
    ensures SplitAtSlash(a + "/" + b) == Some((a, b))
  {
    var s := a + "/" + b;
    assert s[|a|] == '/';
    assert s[..|a|] == a;
    var r := SplitAtSlash(s);
    assert |r.value.0| == |a|;
    assert r.value.0 == s[..|a|];
    assert r.value.1 == s[|a| + 1..];
  }

  lemma StripRootOf(rest: string)
    ensures StripRoot(Root + rest) == Some(rest)
  {
    var p := Root + rest;
    assert p[..|Root|] == Root;
    assert p[|Root|..] == rest;
  }

  lemma CategoryOfDir(c: Category)
    ensures CategoryOf(Dir(c)) == Some(c) && '/' !in Dir(c)
  {
  }

  /** Every path the renderer builds parses back to what it was built from. */
  lemma ParseSamplePath(modality: string, c: Category, filename: string)
    requires '/' !in modality
    ensures ParsePath(SamplePath(modality, c, filename)) == Some(PathParts(modality, c, filename))
  {
    var p := SamplePath(modality, c, filename);
    var tail := Dir(c) + "/" + filename;
    var rest := modality + "/" + tail;
    PathOf(modality, Dir(c), filename);
    StripRootOf(rest);
    assert StripRoot(p) == Some(rest);
    SplitAfter(modality, tail);
    CategoryOfDir(c);
    SplitAfter(Dir(c), filename);
  }

  /**
   * Two sample images get the same path only when they agree on modality,
   * category and filename (for modality ids without a slash).
   */
  lemma SamplePathInjective(m1: string, c1: Category, f1: string, m2: string, c2: Category, f2: string)
    requires '/' !in m1 && '/' !in m2
    requires SamplePath(m1, c1, f1) == SamplePath(m2, c2, f2)
    ensures m1 == m2 && c1 == c2 && f1 == f2
  {
    ParseSamplePath(m1, c1, f1);
    ParseSamplePath(m2, c2, f2);
  }
}
