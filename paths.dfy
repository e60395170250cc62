/** A model of Node's POSIX `path` module as the transform and the driver use
    it: `parse`, `format`, `normalize`, `join`, `resolve`, `relative`,
    `dirname` and `extname`. A path is a string; its segments are the pieces
    between `/` separators. The working directory that `resolve` and
    `relative` fall back on is a parameter. */
module Paths {
  import opened Wrappers
  import opened Strings

  predicate IsAbsolute(p: string) {
    |p| > 0 && p[0] == '/'
  }

  // ---------------------------------------------------------------------
  // Normalisation of a segment list (Node's `normalizeString`)
  // ---------------------------------------------------------------------

  /** One segment pushed onto the segments kept so far: empty and `.`
      segments vanish, `..` removes the last kept segment, or is kept itself
      in a relative path that has nothing left to remove. */
  function Push(stack: seq<string>, seg: string, absolute: bool): seq<string> {
    if seg == "" || seg == "." then stack
    else if seg == ".." then
      if |stack| > 0 && stack[|stack| - 1] != ".." then stack[..|stack| - 1]
      else if absolute then stack
      else stack + [".."]
    else stack + [seg]
  }

  function Fold(stack: seq<string>, segs: seq<string>, absolute: bool): seq<string>
    decreases |segs|
  {
    if |segs| == 0 then stack else Fold(Push(stack, segs[0], absolute), segs[1..], absolute)
  }

  /** Segments as a normalised path holds them. */
  predicate Clean(segs: seq<string>) {
    forall i :: 0 <= i < |segs| ==> segs[i] != "" && segs[i] != "." && segs[i] != ".."
  }

  predicate NoSlash(segs: seq<string>) {
    forall i :: 0 <= i < |segs| ==> '/' !in segs[i]
  }

  function Normalize(p: string): string {
    if |p| == 0 then "."
    else
      var absolute := p[0] == '/';
      var trailing := p[|p| - 1] == '/';
      var body := JoinWith(Fold([], Split(p, '/'), absolute), "/");
      if |body| == 0 then (if absolute then "/" else if trailing then "./" else ".")
      else (if absolute then "/" else "") + body + (if trailing then "/" else "")
  }

  function NonEmpty(parts: seq<string>): (r: seq<string>)
    ensures forall i :: 0 <= i < |r| ==> r[i] != ""
    decreases |parts|
  {
    if |parts| == 0 then []
    else if parts[0] == "" then NonEmpty(parts[1..])
    else [parts[0]] + NonEmpty(parts[1..])
  }

  /** `path.join(...parts)`. */
  function Join(parts: seq<string>): string {
    var ps := NonEmpty(parts);
    if |ps| == 0 then "." else Normalize(JoinWith(ps, "/"))
  }

  /** The arguments `path.resolve` reads: from the last absolute one on, or
      all of them after the working directory. */
  function ResolveBase(cwd: string, parts: seq<string>): (base: seq<string>)
    ensures |base| >= 1
    decreases |parts|
  {
    if |parts| == 0 then [cwd]
    else
      var last := parts[|parts| - 1];
      if IsAbsolute(last) then [last] else ResolveBase(cwd, parts[..|parts| - 1]) + [last]
  }

  /** The segments of `p1/p2/.../pn`. */
  function SplitAll(parts: seq<string>): seq<string>
    decreases |parts|
  {
    if |parts| == 0 then [] else SplitAll(parts[..|parts| - 1]) + Split(parts[|parts| - 1], '/')
  }

  function ResolvedSegments(cwd: string, parts: seq<string>): seq<string> {
    var base := ResolveBase(cwd, parts);
    Fold([], SplitAll(base), IsAbsolute(base[0]))
  }

  /** `path.resolve(...parts)` with `cwd` as `process.cwd()`. */
  function Resolve(cwd: string, parts: seq<string>): string {
    var base := ResolveBase(cwd, parts);
    var body := JoinWith(ResolvedSegments(cwd, parts), "/");
    if IsAbsolute(base[0]) then "/" + body else if body == "" then "." else body
  }

  /** The length of the longest common prefix of two segment lists. */
  function CommonPrefix(a: seq<string>, b: seq<string>): (n: nat)
    ensures n <= |a| && n <= |b| && a[..n] == b[..n]
    ensures n < |a| && n < |b| ==> a[n] != b[n]
    decreases |a|
  {
    if |a| == 0 || |b| == 0 || a[0] != b[0] then 0
    else
      var n := CommonPrefix(a[1..], b[1..]);
      assert a[..n + 1] == [a[0]] + a[1..][..n];
      assert b[..n + 1] == [b[0]] + b[1..][..n];
      n + 1
  }

  function Ups(k: nat): (r: seq<string>)
    ensures |r| == k && forall i :: 0 <= i < k ==> r[i] == ".."
  {
    seq(k, _ => "..")
  }

  function RelativeSegments(cwd: string, from: string, to: string): seq<string> {
    var f := ResolvedSegments(cwd, [from]);
    var t := ResolvedSegments(cwd, [to]);
    var c := CommonPrefix(f, t);
    Ups(|f| - c) + t[c..]
  }

  /** `path.relative(from, to)`: a `..` for each segment of `from` below the
      common ancestor, then the rest of `to`. */
  function Relative(cwd: string, from: string, to: string): string {
    JoinWith(RelativeSegments(cwd, from, to), "/")
  }

  // ---------------------------------------------------------------------
  // parse / format / dirname / extname
  // ---------------------------------------------------------------------

  datatype Parsed = Parsed(dir: string, name: string, ext: string)

  /** The end of `p[..e]` once trailing slashes are dropped, never below `lo`. */
  function TrimEnd(p: string, lo: nat, e: nat): (r: nat)
    requires lo <= e <= |p|
    ensures lo <= r <= e
    ensures r > lo ==> p[r - 1] != '/'
    ensures forall i :: r <= i < e ==> p[i] == '/'
    decreases e
  {
    if e > lo && p[e - 1] == '/' then TrimEnd(p, lo, e - 1) else e
  }

  /** The last index in `[lo, e)` that holds a slash. */
  function LastSlash(p: string, lo: nat, e: nat): (r: Option<nat>)
    requires lo <= e <= |p|
    ensures r.Some? ==> lo <= r.value < e && p[r.value] == '/'
    ensures r.Some? ==> forall i :: r.value < i < e ==> p[i] != '/'
    ensures r.None? ==> forall i :: lo <= i < e ==> p[i] != '/'
    decreases e
  {
    if e == lo then None
    else if p[e - 1] == '/' then Some(e - 1)
    else LastSlash(p, lo, e - 1)
  }

  function LastDot(s: string, e: nat): (r: Option<nat>)
    requires e <= |s|
    ensures r.Some? ==> r.value < e && s[r.value] == '.'
    ensures r.Some? ==> forall i :: r.value < i < e ==> s[i] != '.'
    ensures r.None? ==> forall i :: 0 <= i < e ==> s[i] != '.'
    decreases e
  {
    if e == 0 then None
    else if s[e - 1] == '.' then Some(e - 1)
    else LastDot(s, e - 1)
  }

  /** The extension of a base name: from its last dot, unless that dot is the
      first character or the base is `..`. */
  function ExtStart(base: string): (k: nat)
    ensures k <= |base|
    ensures k == |base| || base[k] == '.'
  {
    match LastDot(base, |base|)
    case None => |base|
    case Some(k) => if k == 0 || base == ".." then |base| else k
  }

  /** The directory and base name `path.parse` finds: trailing slashes are
      dropped, the base runs from the last remaining slash on. */
  function DirBase(p: string): (r: (string, string))
    ensures '/' !in r.1
  {
    var start := if IsAbsolute(p) then 1 else 0;
    var e := TrimEnd(p, start, |p|);
    match LastSlash(p, start, e)
    case None => (if IsAbsolute(p) then "/" else "", p[start..e])
    case Some(j) => (p[..j], p[j + 1..e])
  }

  /** `path.parse(p)` (the `root` and `base` fields are left out: `base` is
      `name + ext`). */
  function Parse(p: string): Parsed {
    var (dir, base) := DirBase(p);
    var k := ExtStart(base);
    Parsed(dir, base[..k], base[k..])
  }

  /** `path.format({dir, name, ext})`. */
  function Format(dir: string, name: string, ext: string): string {
    if dir == "" then name + ext else dir + "/" + name + ext
  }

  /** `path.dirname(p)`. */
  function Dirname(p: string): string {
    if |p| == 0 then "."
    else
      var e := TrimEnd(p, 1, |p|);
      match LastSlash(p, 1, e)
      case None => if p[0] == '/' then "/" else "."
      case Some(j) => if p[0] == '/' && j == 1 then "//" else p[..j]
  }

  /** `path.extname(p)`. */
  function Extname(p: string): string {
    Parse(p).ext
  }

  // ---------------------------------------------------------------------
  // Properties
  // ---------------------------------------------------------------------

  /** An extension is empty or starts with its dot, and name and extension
      together are the base name, which holds no slash. */
  lemma ExtShape(p: string)
    ensures Parse(p).ext == "" || Parse(p).ext[0] == '.'
    ensures Parse(p).name + Parse(p).ext == DirBase(p).1
    ensures '/' !in Parse(p).name + Parse(p).ext
  {
    var base := DirBase(p).1;
    var k := ExtStart(base);
    assert base[..k] + base[k..] == base;
  }

  lemma DirBaseRelative(p: string)
    requires !IsAbsolute(p)
    requires |p| == 0 || p[|p| - 1] != '/'
    ensures var (dir, base) := DirBase(p); (if dir == "" then base else dir + "/" + base) == p
  {
    var e := TrimEnd(p, 0, |p|);
    assert e == |p|;
    match LastSlash(p, 0, e)
    case None =>
      assert p[0..e] == p;
    case Some(j) =>
      assert j > 0 by { assert p[0] != '/'; }
      assert p[..j] + "/" + p[j + 1..e] == p;
  }

  /** A relative path without a trailing slash. */
  predicate RelativeFile(p: string) {
    !IsAbsolute(p) && (|p| == 0 || p[|p| - 1] != '/')
  }

  /** `format(parse(p))` gives back a relative path without a trailing slash. */
  lemma ParseFormat(p: string)
    requires !IsAbsolute(p)
    requires |p| == 0 || p[|p| - 1] != '/'
    ensures Format(Parse(p).dir, Parse(p).name, Parse(p).ext) == p
  {
    ExtShape(p);
    DirBaseRelative(p);
  }

  lemma {:induction false} FoldAppend(st: seq<string>, a: seq<string>, b: seq<string>, absolute: bool)
    ensures Fold(st, a + b, absolute) == Fold(Fold(st, a, absolute), b, absolute)
    decreases |a|
  {
    if |a| == 0 {
      assert a + b == b;
    } else {
      assert (a + b)[0] == a[0] && (a + b)[1..] == a[1..] + b;
      FoldAppend(Push(st, a[0], absolute), a[1..], b, absolute);
    }
  }

  lemma {:induction false} FoldClean(st: seq<string>, segs: seq<string>, absolute: bool)
    requires Clean(segs)
    ensures Fold(st, segs, absolute) == st + segs
    decreases |segs|
  {
    if |segs| > 0 {
      FoldClean(st + [segs[0]], segs[1..], absolute);
      assert st + [segs[0]] + segs[1..] == st + segs;
    }
  }

  lemma {:induction false} FoldUps(st: seq<string>, k: nat, absolute: bool)
    requires Clean(st) && k <= |st|
    ensures Fold(st, Ups(k), absolute) == st[..|st| - k]
    decreases k
  {
    if k > 0 {
      assert Ups(k)[1..] == Ups(k - 1);
      var st' := st[..|st| - 1];
      assert Push(st, "..", absolute) == st';
      FoldUps(st', k - 1, absolute);
      assert st'[..|st'| - (k - 1)] == st[..|st| - k];
    }
  }

  /** Normalising an absolute path keeps only clean, slash-free segments. */
  lemma {:induction false} FoldAbsoluteClean(st: seq<string>, segs: seq<string>)
    requires Clean(st) && NoSlash(st) && NoSlash(segs)
    ensures Clean(Fold(st, segs, true)) && NoSlash(Fold(st, segs, true))
    decreases |segs|
  {
    if |segs| > 0 {
      FoldAbsoluteClean(Push(st, segs[0], true), segs[1..]);
    }
  }

  lemma {:induction false} SplitAllNoSlash(parts: seq<string>)
    ensures NoSlash(SplitAll(parts))
    decreases |parts|
  {
    if |parts| > 0 {
      SplitAllNoSlash(parts[..|parts| - 1]);
    }
  }

  lemma ResolveBaseAbsolute(cwd: string, parts: seq<string>)
    requires IsAbsolute(cwd)
    ensures IsAbsolute(ResolveBase(cwd, parts)[0])
    decreases |parts|
  {
    if |parts| > 0 && !IsAbsolute(parts[|parts| - 1]) {
      ResolveBaseAbsolute(cwd, parts[..|parts| - 1]);
    }
  }

  lemma ResolvedClean(cwd: string, parts: seq<string>)
    requires IsAbsolute(cwd)
    ensures Clean(ResolvedSegments(cwd, parts)) && NoSlash(ResolvedSegments(cwd, parts))
  {
    ResolveBaseAbsolute(cwd, parts);
    SplitAllNoSlash(ResolveBase(cwd, parts));
    FoldAbsoluteClean([], SplitAll(ResolveBase(cwd, parts)));
  }

  lemma JoinWithHead(parts: seq<string>, sep: string)
    requires |parts| >= 1 && |parts[0]| >= 1
    ensures |JoinWith(parts, sep)| >= 1 && JoinWith(parts, sep)[0] == parts[0][0]
  {
  }

  /** Walking the relative segments from `from` reaches `to`. */
  lemma RelativeWalk(cwd: string, from: string, to: string)
    requires IsAbsolute(cwd)
    ensures Fold(ResolvedSegments(cwd, [from]), RelativeSegments(cwd, from, to), true) == ResolvedSegments(cwd, [to])
  {
    var f := ResolvedSegments(cwd, [from]);
    var t := ResolvedSegments(cwd, [to]);
    ResolvedClean(cwd, [from]);
    ResolvedClean(cwd, [to]);
    var c := CommonPrefix(f, t);
    var k := |f| - c;
    assert RelativeSegments(cwd, from, to) == Ups(k) + t[c..];
    FoldAppend(f, Ups(k), t[c..], true);
    FoldUps(f, k, true);
    assert f[..|f| - k] == t[..c];
    assert Clean(t[c..]) by {
      forall i | 0 <= i < |t[c..]| ensures t[c..][i] != "" && t[c..][i] != "." && t[c..][i] != ".." {
        assert t[c..][i] == t[c + i];
      }
    }
    FoldClean(t[..c], t[c..], true);
    assert t[..c] + t[c..] == t;
  }

  /** The relative segments hold no slash, and the relative path is empty
      exactly when they are; a non-empty one is not absolute. */
  lemma RelativeShape(cwd: string, from: string, to: string)
    requires IsAbsolute(cwd)
    ensures var r := RelativeSegments(cwd, from, to);
      NoSlash(r) && (|r| == 0 ==> Relative(cwd, from, to) == "") &&
      (|r| > 0 ==> !IsAbsolute(Relative(cwd, from, to)))
  {
    var f := ResolvedSegments(cwd, [from]);
    var t := ResolvedSegments(cwd, [to]);
    ResolvedClean(cwd, [from]);
    ResolvedClean(cwd, [to]);
    var c := CommonPrefix(f, t);
    var k := |f| - c;
    var r := Ups(k) + t[c..];
    assert r == RelativeSegments(cwd, from, to);
    assert NoSlash(r) by {
      forall i | 0 <= i < |r| ensures '/' !in r[i] {
        if i >= k { assert r[i] == t[c + (i - k)]; }
      }
    }
    if |r| > 0 {
      assert |r[0]| >= 1 by {
        if k == 0 { assert r[0] == t[c]; }
      }
      JoinWithHead(r, "/");
      var rel := JoinWith(r, "/");
      assert rel[0] != '/' by {
        if k == 0 { assert r[0] == t[c]; assert t[c][0] in t[c]; }
      }
    }
  }

  /** Resolving a relative path against `from` walks its segments from
      `from`'s segments, and stays absolute. */
  lemma ResolveRelative(cwd: string, from: string, to: string)
    requires IsAbsolute(cwd)
    ensures var rel := Relative(cwd, from, to);
      IsAbsolute(ResolveBase(cwd, [from, rel])[0]) &&
      ResolvedSegments(cwd, [from, rel]) == Fold(ResolvedSegments(cwd, [from]), RelativeSegments(cwd, from, to), true)
  {
    var r := RelativeSegments(cwd, from, to);
    var rel := Relative(cwd, from, to);
    var f := ResolvedSegments(cwd, [from]);
    var baseFrom := ResolveBase(cwd, [from]);
    ResolveBaseAbsolute(cwd, [from]);
    RelativeShape(cwd, from, to);
    assert [from, rel][..1] == [from];
    assert ResolveBase(cwd, [from, rel]) == baseFrom + [rel];
    assert SplitAll(baseFrom + [rel]) == SplitAll(baseFrom) + Split(rel, '/') by {
      assert (baseFrom + [rel])[..|baseFrom|] == baseFrom;
    }
    FoldAppend([], SplitAll(baseFrom), Split(rel, '/'), true);
    if |r| == 0 {
      assert Split(rel, '/') == [""];
      assert Fold(f, [""], true) == f;
      assert Fold(f, r, true) == f;
    } else {
      SplitJoin(r, '/');
    }
  }

  /** A file or directory name: non-empty, neither `.` nor `..`, and free of
      slashes. */
  predicate PlainSegment(seg: string) {
    seg != "" && seg != "." && seg != ".." && '/' !in seg
  }

  lemma {:induction false} NonEmptySnoc(parts: seq<string>, seg: string)
    requires seg != ""
    ensures NonEmpty(parts + [seg]) == NonEmpty(parts) + [seg]
    decreases |parts|
  {
    if |parts| == 0 {
      assert parts + [seg] == [seg] && [seg][1..] == [];
    } else {
      assert (parts + [seg])[0] == parts[0] && (parts + [seg])[1..] == parts[1..] + [seg];
      NonEmptySnoc(parts[1..], seg);
    }
  }

  /** The joined text of parts ending in a plain segment splits into the
      segments before it and the segment itself. */
  lemma JoinedSnoc(parts: seq<string>, seg: string) returns (s: string, segs: seq<string>)
    requires PlainSegment(seg)
    ensures Join(parts + [seg]) == Normalize(s)
    ensures Split(s, '/') == segs + [seg]
    ensures |s| >= 1 && s[|s| - 1] != '/'
  {
    NonEmptySnoc(parts, seg);
    var ps := NonEmpty(parts);
    s := JoinWith(ps + [seg], "/");
    if |ps| == 0 {
      assert ps + [seg] == [seg];
      SplitJoin([seg], '/');
      segs := [];
      assert Split(s, '/') == segs + [seg];
    } else {
      JoinWithSnoc(ps, seg, "/");
      SplitSnoc(JoinWith(ps, "/"), '/', seg);
      segs := Split(JoinWith(ps, "/"), '/');
      assert Split(s, '/') == segs + [seg];
    }
    assert |s| >= |seg| && s[|s| - |seg|..] == seg;
    assert s[|s| - 1] == seg[|seg| - 1];
  }

  /** Normalising a path whose last segment is plain keeps that segment
      last, after a prefix that is empty or ends in a slash. */
  lemma NormalizeSnoc(s: string, segs: seq<string>, seg: string) returns (q: string)
    requires PlainSegment(seg)
    requires Split(s, '/') == segs + [seg]
    requires |s| >= 1 && s[|s| - 1] != '/'
    ensures Normalize(s) == q + seg
    ensures q == "" || q[|q| - 1] == '/'
  {
    var absolute := s[0] == '/';
    FoldAppend([], segs, [seg], absolute);
    var f := Fold([], segs, absolute);
    assert Fold(f, [seg], absolute) == f + [seg];
    assert Fold([], Split(s, '/'), absolute) == f + [seg];
    var body := JoinWith(f + [seg], "/");
    var prefix := if absolute then "/" else "";
    if |f| == 0 {
      assert f + [seg] == [seg];
      assert body == seg;
      q := prefix;
    } else {
      JoinWithSnoc(f, seg, "/");
      assert body == JoinWith(f, "/") + "/" + seg;
      q := prefix + JoinWith(f, "/") + "/";
    }
    assert |body| > 0 && Normalize(s) == prefix + body;
  }

  /** `path.join` of parts ending in a plain segment: a prefix that is empty
      or ends in a slash, then the segment. */
  lemma JoinEndsWith(parts: seq<string>, seg: string) returns (q: string)
    requires PlainSegment(seg)
    ensures Join(parts + [seg]) == q + seg
    ensures q == "" || q[|q| - 1] == '/'
  {
    var s, segs := JoinedSnoc(parts, seg);
    q := NormalizeSnoc(s, segs, seg);
  }

  /** The base name of a path that ends in a slash-free name after a slash,
      or is that name, is the name. */
  lemma DirBaseLast(q: string, seg: string)
    requires seg != "" && '/' !in seg && (q == "" || q[|q| - 1] == '/')
    ensures DirBase(q + seg).1 == seg
  {
    var p := q + seg;
    assert forall i :: |q| <= i < |p| ==> p[i] == seg[i - |q|];
    assert p[|p| - 1] != '/';
    var start := if IsAbsolute(p) then 1 else 0;
    var e := TrimEnd(p, start, |p|);
    assert e == |p|;
    var ls := LastSlash(p, start, e);
    if |q| >= 1 && start <= |q| - 1 {
      assert p[|q| - 1] == '/';
      assert ls.Some?;
      assert ls.value == |q| - 1;
      assert p[ls.value + 1..e] == seg;
    } else {
      assert q == "" || (|q| == 1 && start == 1);
      assert forall i :: start <= i < e ==> p[i] != '/';
      assert ls.None?;
      assert p[start..e] == seg;
    }
  }

  /** `path.join(...parts, seg)` has the plain segment `seg` as its base name. */
  lemma JoinBase(parts: seq<string>, seg: string)
    requires PlainSegment(seg)
    ensures DirBase(Join(parts + [seg])).1 == seg
  {
    var q := JoinEndsWith(parts, seg);
    DirBaseLast(q, seg);
  }

  /** Resolving `relative(from, to)` against `from` lands on `to`: the two
      functions are inverse in the way Node documents them. */
  lemma RelativeRoundTrip(cwd: string, from: string, to: string)
    requires IsAbsolute(cwd)
    ensures Resolve(cwd, [from, Relative(cwd, from, to)]) == Resolve(cwd, [to])
  {
    ResolveBaseAbsolute(cwd, [to]);
    RelativeWalk(cwd, from, to);
    ResolveRelative(cwd, from, to);
  }
}
