/** Node's `path.resolve` and `path.dirname` on POSIX, as the resolver calls them.
    `resolve(base, ...p.split("/"))` is modelled at the level of path segments:
    the arguments are scanned from the right until an absolute one is found (else
    the working directory is prefixed), all segments are collected, empty and "."
    segments are dropped and ".." removes the previous segment (at the root it is
    dropped; in a relative result it is kept at the front). */
module PosixPath {
  import opened Wrappers
  import opened Strings

  predicate IsAbsolute(p: string) {
    |p| > 0 && p[0] == '/'
  }

  /** A segment that normalisation keeps as it is. */
  predicate IsPlainSegment(s: string) {
    s != "" && s != "." && s != ".." && '/' !in s
  }

  predicate AllPlain(segs: seq<string>) {
    forall i :: 0 <= i < |segs| ==> IsPlainSegment(segs[i])
  }

  /** An absolute path in normal form: the root, or "/" followed by plain segments
      joined with "/" (no empty, "." or ".." segment, no trailing slash). */
  predicate IsNormalAbsolute(p: string) {
    IsAbsolute(p) && (p == "/" || AllPlain(Split(p, '/')[1..]))
  }

  /** The index of the right-most absolute argument: where `resolve` stops scanning. */
  function LastAbsolute(args: seq<string>): (k: Option<nat>)
    ensures k.Some? ==> k.value < |args| && IsAbsolute(args[k.value])
    ensures k.Some? ==> forall j :: k.value < j < |args| ==> !IsAbsolute(args[j])
    ensures k.None? ==> forall j :: 0 <= j < |args| ==> !IsAbsolute(args[j])
    decreases |args|
  {
    if |args| == 0 then None
    else if IsAbsolute(args[|args| - 1]) then Some(|args| - 1)
    else LastAbsolute(args[..|args| - 1])
  }

  /** All segments of the given path strings, in order. */
  function Segments(parts: seq<string>): (segs: seq<string>)
    ensures forall i :: 0 <= i < |segs| ==> '/' !in segs[i]
    decreases |parts|
  {
    if |parts| == 0 then [] else Split(parts[0], '/') + Segments(parts[1..])
  }

  /** One step of Node's `normalizeString`, on a stack of kept segments. */
  function NormalizeStep(stack: seq<string>, seg: string, absolute: bool): seq<string> {
    if seg == "" || seg == "." then stack
    else if seg == ".." then
      if |stack| > 0 && stack[|stack| - 1] != ".." then stack[..|stack| - 1]
      else if absolute then stack
      else stack + [".."]
    else stack + [seg]
  }

  /** Normalise `segs` onto `stack`. An absolute path keeps only plain segments; a
      relative one keeps plain segments and "..". */
  function Normalize(stack: seq<string>, segs: seq<string>, absolute: bool): (r: seq<string>)
    requires forall i :: 0 <= i < |segs| ==> '/' !in segs[i]
    ensures absolute && AllPlain(stack) ==> AllPlain(r)
    ensures (forall i :: 0 <= i < |stack| ==> stack[i] == ".." || IsPlainSegment(stack[i])) ==>
              forall i :: 0 <= i < |r| ==> r[i] == ".." || IsPlainSegment(r[i])
    decreases |segs|
  {
    if |segs| == 0 then stack
    else Normalize(NormalizeStep(stack, segs[0], absolute), segs[1..], absolute)
  }

  /** `path.resolve(...args)` with working directory `cwd`. When the result is
      absolute it is in normal form. */
  function Resolve(cwd: string, args: seq<string>): (p: string)
    ensures (LastAbsolute(args).Some? || IsAbsolute(cwd)) ==> IsNormalAbsolute(p)
  {
    var k := LastAbsolute(args);
    var absolute := k.Some? || IsAbsolute(cwd);
    var parts := if k.Some? then args[k.value..] else [cwd] + args;
    var segs := Normalize([], Segments(parts), absolute);
    if absolute then
      NormalAbsoluteFromSegments(segs);
      "/" + Join(segs, "/")
    else if segs == [] then "."
    else Join(segs, "/")
  }

  /** The index `end` that Node's `posix.dirname` stops at while scanning from `i`
      down to 1: the first "/" before the last run of non-slash characters. */
  function DirnameEnd(p: string, i: nat, matchedSlash: bool): (e: Option<nat>)
    requires i < |p|
    ensures e.Some? ==> 1 <= e.value <= i && p[e.value] == '/'
    decreases i
  {
    if i < 1 then None
    else if p[i] == '/' then
      if !matchedSlash then Some(i) else DirnameEnd(p, i - 1, true)
    else DirnameEnd(p, i - 1, false)
  }

  /** `path.posix.dirname(p)`. */
  function Dirname(p: string): string {
    if |p| == 0 then "."
    else
      var hasRoot := p[0] == '/';
      var e := DirnameEnd(p, |p| - 1, true);
      if e.None? then (if hasRoot then "/" else ".")
      else if hasRoot && e.value == 1 then "//"
      else p[..e.value]
  }

  // ---------------------------------------------------------------------------
  // Lemmas

  /** Splitting at a separator between two strings splits each side separately. */
  lemma {:induction false} SplitConcat(a: string, b: string, sep: char)
    requires sep !in a
    ensures Split(a + [sep] + b, sep) == Split(a, sep) + Split(b, sep)
    decreases |a|
  {
    if |a| == 0 {
      assert a + [sep] + b == [sep] + b;
      assert ([sep] + b)[1..] == b;
    } else {
      var s := a + [sep] + b;
      assert s[0] == a[0] && s[1..] == a[1..] + [sep] + b;
      assert sep !in a[1..] by {
        forall k | 0 <= k < |a[1..]| ensures a[1..][k] != sep {
          assert a[1..][k] == a[k + 1];
        }
      }
      SplitConcat(a[1..], b, sep);
    }
  }

  /** Splitting a join of separator-free pieces gives the pieces back. */
  lemma {:induction false} SplitJoin(parts: seq<string>, sep: char)
    requires |parts| >= 1
    requires forall i :: 0 <= i < |parts| ==> sep !in parts[i]
    ensures Split(Join(parts, [sep]), sep) == parts
    decreases |parts|
  {
    if |parts| == 1 {
      SplitWithoutSeparator(parts[0], sep);
    } else {
      SplitJoin(parts[1..], sep);
      SplitConcat(parts[0], Join(parts[1..], [sep]), sep);
      SplitWithoutSeparator(parts[0], sep);
      assert parts == [parts[0]] + parts[1..];
    }
  }

  /** "/" followed by plain segments is a normal absolute path. */
  lemma NormalAbsoluteFromSegments(segs: seq<string>)
    requires AllPlain(segs)
    ensures IsNormalAbsolute("/" + Join(segs, "/"))
  {
    var p := "/" + Join(segs, "/");
    if segs != [] {
      assert forall i :: 0 <= i < |segs| ==> '/' !in segs[i];
      SplitJoin(segs, '/');
      SplitConcat("", Join(segs, "/"), '/');
      assert "" + "/" + Join(segs, "/") == p;
      assert Split("", '/') == [""];
      assert Split(p, '/')[1..] == segs;
    }
  }

  /** Plain segments are pushed onto the stack unchanged. */
  lemma {:induction false} NormalizePlain(stack: seq<string>, segs: seq<string>, absolute: bool)
    requires AllPlain(segs)
    ensures Normalize(stack, segs, absolute) == stack + segs
    decreases |segs|
  {
    if |segs| > 0 {
      assert AllPlain(segs[1..]) by {
        forall i | 0 <= i < |segs[1..]| ensures IsPlainSegment(segs[1..][i]) {
          assert segs[1..][i] == segs[i + 1];
        }
      }
      NormalizePlain(stack + [segs[0]], segs[1..], absolute);
      assert stack + [segs[0]] + segs[1..] == stack + segs;
    }
  }

  /** Segments of separator-free strings are the strings themselves. */
  lemma {:induction false} SegmentsOfPieces(pieces: seq<string>)
    requires forall i :: 0 <= i < |pieces| ==> '/' !in pieces[i]
    ensures Segments(pieces) == pieces
    decreases |pieces|
  {
    if |pieces| > 0 {
      SplitWithoutSeparator(pieces[0], '/');
      SegmentsOfPieces(pieces[1..]);
      assert pieces == [pieces[0]] + pieces[1..];
    }
  }

  /** No piece of a split contains "/", so none of them is absolute. */
  lemma SplitPiecesRelative(rel: string)
    ensures forall i :: 0 <= i < |Split(rel, '/')| ==> !IsAbsolute(Split(rel, '/')[i])
  {
  }

  /** `resolve(base, ...rel.split("/"))` never restarts at the root: no piece of a
      split contains "/", so only `base` can be absolute, and a leading "/" in `rel`
      only contributes an empty segment. */
  lemma SplitSegmentsNeverReset(cwd: string, base: string, rel: string)
    requires IsAbsolute(base)
    ensures var pieces := Split(rel, '/');
            Resolve(cwd, [base] + pieces) == "/" + Join(Normalize([], Split(base, '/') + pieces, true), "/")
  {
    var pieces := Split(rel, '/');
    var args := [base] + pieces;
    SplitPiecesRelative(rel);
    forall j | 0 < j < |args| ensures !IsAbsolute(args[j]) {
      assert args[j] == pieces[j - 1];
    }
    assert IsAbsolute(args[0]);
    assert LastAbsolute(args) == Some(0);
    assert args[0..] == args;
    SegmentsOfPieces(pieces);
    assert args[1..] == pieces;
    assert Segments(args) == Split(base, '/') + pieces;
  }

  /** A normal absolute path other than the root is "/" followed by the join of
      its (plain) segment names. */
  lemma NormalAbsoluteNames(base: string) returns (names: seq<string>)
    requires IsNormalAbsolute(base) && base != "/"
    ensures Split(base, '/') == [""] + names
    ensures |names| >= 1 && AllPlain(names)
    ensures base == "/" + Join(names, "/")
  {
    var bs := Split(base, '/');
    JoinSplit(base, '/');
    names := bs[1..];
    assert bs == [bs[0]] + names;
    if |names| == 0 {
      assert false;
    }
    assert Join(bs, "/") == bs[0] + "/" + Join(names, "/");
  }

  /** Under an absolute normalisation a leading empty segment is dropped. */
  lemma NormalizeDropsEmpty(rest: seq<string>)
    requires forall i :: 0 <= i < |rest| ==> '/' !in rest[i]
    ensures Normalize([], [""] + rest, true) == Normalize([], rest, true)
  {
  }

  /** Plain segments stay plain when two lists of them are concatenated. */
  lemma AllPlainAppend(a: seq<string>, b: seq<string>)
    requires AllPlain(a) && AllPlain(b)
    ensures AllPlain(a + b)
  {
  }

  /** The segments of a normal absolute base followed by plain segments survive
      normalisation unchanged (without the leading empty segment of the root). */
  lemma NormalizeUnderBase(base: string, names: seq<string>, pieces: seq<string>)
    requires Split(base, '/') == [""] + names
    requires AllPlain(names) && AllPlain(pieces)
    ensures Normalize([], Split(base, '/') + pieces, true) == names + pieces
  {
    assert Split(base, '/') + pieces == [""] + (names + pieces);
    AllPlainAppend(names, pieces);
    NormalizeDropsEmpty(names + pieces);
    NormalizePlain([], names + pieces, true);
    assert [] + (names + pieces) == names + pieces;
  }

  /** Resolving plain segments under a normal absolute base appends them:
      `resolve("/tpl", ..."foo/bar.txt".split("/"))` is "/tpl/foo/bar.txt". */
  lemma ResolveUnderBase(cwd: string, base: string, rel: string)
    requires IsNormalAbsolute(base) && base != "/"
    requires AllPlain(Split(rel, '/'))
    ensures Resolve(cwd, [base] + Split(rel, '/')) == base + "/" + rel
  {
    var pieces := Split(rel, '/');
    SplitSegmentsNeverReset(cwd, base, rel);
    var names := NormalAbsoluteNames(base);
    NormalizeUnderBase(base, names, pieces);
    JoinAppend(names, pieces, "/");
    JoinSplit(rel, '/');
  }

  /** Non-slash characters from index `i` down to just after a "/" at `d`: the
      dirname scan stops at `d`. */
  lemma {:induction false} DirnameEndAfterSlash(p: string, d: nat, i: nat, matchedSlash: bool)
    requires 1 <= d < i < |p| && p[d] == '/'
    requires forall j :: d < j <= i ==> p[j] != '/'
    ensures DirnameEnd(p, i, matchedSlash) == Some(d)
    decreases i
  {
    if i - 1 > d {
      DirnameEndAfterSlash(p, d, i - 1, false);
    }
  }

  /** The directory of `dir + "/" + name` is `dir`, for a file name `name`
      and a directory not ending in "/". */
  lemma DirnameOfChild(dir: string, name: string)
    requires |dir| > 0 && dir[|dir| - 1] != '/'
    requires name != "" && '/' !in name
    ensures Dirname(dir + "/" + name) == dir
  {
    var p := dir + "/" + name;
    assert p[|dir|] == '/';
    forall j | |dir| < j <= |p| - 1 ensures p[j] != '/' {
      assert p[j] == name[j - |dir| - 1];
    }
    DirnameEndAfterSlash(p, |dir|, |p| - 1, true);
    assert p[..|dir|] == dir;
  }
}
