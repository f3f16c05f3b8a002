/**
 String helpers shared by the browser pages and the backend: the two
 whitespace-trimming operations (ECMAScript's String.prototype.trim and
 Python's str.strip with no argument) and Python's str.join.
 */
module Strings {

  /** Characters removed by ECMAScript's String.prototype.trim: the
      WhiteSpace code points (TAB, VT, FF, ZWNBSP and every Zs space)
      and the LineTerminator code points (LF, CR, LS, PS). */
  predicate IsJsSpace(c: char) {
    var n := c as int;
    || n == 0x09 || n == 0x0A || n == 0x0B || n == 0x0C || n == 0x0D
    || n == 0x20 || n == 0xA0 || n == 0x1680
    || (0x2000 <= n <= 0x200A)
    || n == 0x2028 || n == 0x2029 || n == 0x202F || n == 0x205F
    || n == 0x3000 || n == 0xFEFF
  }

  /** Characters for which Python's str.isspace holds; str.strip() with no
      argument removes exactly these. Unlike the ECMAScript set it contains
      the separators 0x1C-0x1F and NEL (0x85) and not ZWNBSP (0xFEFF). */
  predicate IsPySpace(c: char) {
    var n := c as int;
    || (0x09 <= n <= 0x0D)
    || (0x1C <= n <= 0x20)
    || n == 0x85 || n == 0xA0 || n == 0x1680
    || (0x2000 <= n <= 0x200A)
    || n == 0x2028 || n == 0x2029 || n == 0x202F || n == 0x205F
    || n == 0x3000
  }

  /** Every character of `s` is whitespace under `ws`. */
  predicate AllSpace(s: string, ws: char -> bool) {
    forall i :: 0 <= i < |s| ==> ws(s[i])
  }

  /** Neither the first nor the last character of `s` is whitespace. */
  predicate NoEdgeSpace(s: string, ws: char -> bool) {
    s == [] || (!ws(s[0]) && !ws(s[|s| - 1]))
  }

  /** Reference definition of trimming: `r` is the slice of `s` left after
      removing a whitespace prefix and a whitespace suffix, and `r` itself
      neither starts nor ends with whitespace. */
  ghost predicate IsTrimOf(r: string, s: string, ws: char -> bool) {
    exists i :: IsTrimAt(r, s, ws, i)
  }

  ghost predicate IsTrimAt(r: string, s: string, ws: char -> bool, i: int) {
    && 0 <= i <= |s| - |r|
    && r == s[i..i + |r|]
    && AllSpace(s[..i], ws)
    && AllSpace(s[i + |r|..], ws)
    && NoEdgeSpace(r, ws)
  }

  /** Drops leading whitespace. */
  function TrimStart(s: string, ws: char -> bool): (r: string)
    ensures |r| <= |s| && r == s[|s| - |r|..]
    ensures AllSpace(s[..|s| - |r|], ws)
    ensures r == [] || !ws(r[0])
    decreases |s|
  {
    if |s| > 0 && ws(s[0]) then
      var r := TrimStart(s[1..], ws);
      assert s[..|s| - |r|] == [s[0]] + s[1..][..|s| - 1 - |r|];
      r
    else s
  }

  /** Drops trailing whitespace. */
  function TrimEnd(s: string, ws: char -> bool): (r: string)
    ensures |r| <= |s| && r == s[..|r|]
    ensures AllSpace(s[|r|..], ws)
    ensures r == [] || !ws(r[|r| - 1])
    decreases |s|
  {
    if |s| > 0 && ws(s[|s| - 1]) then
      var r := TrimEnd(s[..|s| - 1], ws);
      assert s[|r|..] == s[..|s| - 1][|r|..] + [s[|s| - 1]];
      r
    else s
  }

  /** Drops leading and trailing whitespace. */
  function Trim(s: string, ws: char -> bool): (r: string)
    ensures IsTrimOf(r, s, ws)
  {
    TrimMeetsReference(s, ws);
    TrimEnd(TrimStart(s, ws), ws)
  }

  lemma TrimMeetsReference(s: string, ws: char -> bool)
    ensures IsTrimOf(TrimEnd(TrimStart(s, ws), ws), s, ws)
  {
    var t := TrimStart(s, ws);
    var r := TrimEnd(t, ws);
    TrimSlices(s, t, r, ws);
  }

  /** A whitespace-free-at-the-front suffix `t` of `s`, cut down to a prefix
      `r` that does not end in whitespace, is a trim of `s`. */
  lemma TrimSlices(s: string, t: string, r: string, ws: char -> bool)
    requires |t| <= |s| && t == s[|s| - |t|..] && AllSpace(s[..|s| - |t|], ws)
    requires t == [] || !ws(t[0])
    requires |r| <= |t| && r == t[..|r|] && AllSpace(t[|r|..], ws)
    requires r == [] || !ws(r[|r| - 1])
    ensures IsTrimAt(r, s, ws, |s| - |t|)
  {
    var i := |s| - |t|;
    assert r == s[i..i + |r|];
    assert s[i + |r|..] == t[|r|..];
    assert r != [] ==> r[0] == t[0];
  }

  /** ECMAScript `s.trim()`. */
  function JsTrim(s: string): string {
    Trim(s, IsJsSpace)
  }

  /** Python `s.strip()`. */
  function PyStrip(s: string): string {
    Trim(s, IsPySpace)
  }

  /** Skipping a whitespace prefix that stops at a non-space character (or
      at the end) is exactly what `TrimStart` does. */
  lemma {:induction false} TrimStartSkips(s: string, ws: char -> bool, i: nat)
    requires i <= |s| && AllSpace(s[..i], ws)
    requires i == |s| || !ws(s[i])
    ensures TrimStart(s, ws) == s[i..]
    decreases i
  {
    if i > 0 {
      assert s[..i][0] == s[0];
      assert s[1..][..i - 1] == s[..i][1..];
      TrimStartSkips(s[1..], ws, i - 1);
      assert s[1..][i - 1..] == s[i..];
    }
  }

  /** Dropping a whitespace suffix that starts after a non-space character
      (or at the start) is exactly what `TrimEnd` does. */
  lemma {:induction false} TrimEndSkips(s: string, ws: char -> bool, j: nat)
    requires j <= |s| && AllSpace(s[j..], ws)
    requires j == 0 || !ws(s[j - 1])
    ensures TrimEnd(s, ws) == s[..j]
    decreases |s| - j
  {
    if j < |s| {
      var u := s[..|s| - 1];
      assert s[j..][|s| - 1 - j] == s[|s| - 1];
      assert u[j..] == s[j..][..|s| - 1 - j];
      TrimEndSkips(u, ws, j);
      assert u[..j] == s[..j];
    }
  }

  /** Every string meeting the reference definition is the one `Trim`
      computes. */
  lemma TrimAtIsTrim(r: string, s: string, ws: char -> bool, i: int)
    requires IsTrimAt(r, s, ws, i)
    ensures r == Trim(s, ws)
  {
    if r == [] {
      EmptyTrimAt(s, ws, i);
    } else {
      NonEmptyTrimAt(r, s, ws, i);
    }
  }

  lemma EmptyTrimAt(s: string, ws: char -> bool, i: int)
    requires IsTrimAt([], s, ws, i)
    ensures TrimEnd(TrimStart(s, ws), ws) == []
  {
    forall k | 0 <= k < |s| ensures ws(s[k]) {
      if k < i {
        assert s[..i][k] == s[k];
      } else {
        assert s[i..][k - i] == s[k];
      }
    }
    assert s[..|s|] == s;
    TrimStartSkips(s, ws, |s|);
  }

  lemma NonEmptyTrimAt(r: string, s: string, ws: char -> bool, i: int)
    requires IsTrimAt(r, s, ws, i) && r != []
    ensures TrimEnd(TrimStart(s, ws), ws) == r
  {
    var n := |r|;
    assert s[i] == r[0];
    TrimStartSkips(s, ws, i);
    var t := s[i..];
    assert TrimStart(s, ws) == t;
    assert t[n..] == s[i + n..];
    assert AllSpace(t[n..], ws);
    assert t[n - 1] == r[n - 1];
    assert !ws(t[n - 1]);
    TrimEndSkips(t, ws, n);
    assert t[..n] == r;
  }

  /** The reference definition admits only one trimmed string. */
  lemma TrimOfUnique(r1: string, r2: string, s: string, ws: char -> bool)
    requires IsTrimOf(r1, s, ws) && IsTrimOf(r2, s, ws)
    ensures r1 == r2
  {
    var i1 :| IsTrimAt(r1, s, ws, i1);
    var i2 :| IsTrimAt(r2, s, ws, i2);
    TrimAtIsTrim(r1, s, ws, i1);
    TrimAtIsTrim(r2, s, ws, i2);
  }

  /** A string trims to nothing exactly when it is all whitespace. */
  lemma TrimEmptyIff(s: string, ws: char -> bool)
    ensures Trim(s, ws) == [] <==> AllSpace(s, ws)
  {
    if AllSpace(s, ws) {
      assert s[..|s|] == s;
      TrimStartSkips(s, ws, |s|);
    }
    if Trim(s, ws) == [] {
      var i :| IsTrimAt([], s, ws, i);
      forall k | 0 <= k < |s| ensures ws(s[k]) {
        if k < i {
          assert s[..i][k] == s[k];
        } else {
          assert s[i..][k - i] == s[k];
        }
      }
    }
  }

  /** A string with no whitespace at either end is its own trim. */
  lemma TrimFixed(s: string, ws: char -> bool)
    requires NoEdgeSpace(s, ws)
    ensures Trim(s, ws) == s
  {
    assert s[..0] == [] && s[0..|s|] == s && s[|s|..] == [];
    TrimAtIsTrim(s, s, ws, 0);
  }

  /** A trimmed string neither starts nor ends with whitespace. */
  lemma TrimNoEdgeSpace(s: string, ws: char -> bool)
    ensures NoEdgeSpace(Trim(s, ws), ws)
  {
    var i :| IsTrimAt(Trim(s, ws), s, ws, i);
  }

  /** Trimming twice is trimming once. */
  lemma TrimIdempotent(s: string, ws: char -> bool)
    ensures Trim(Trim(s, ws), ws) == Trim(s, ws)
  {
    var r := Trim(s, ws);
    var i :| IsTrimAt(r, s, ws, i);
    TrimFixed(r, ws);
  }

  /** The two whitespace sets differ: NEL is stripped by Python but kept by
      ECMAScript, ZWNBSP the other way round; both agree on the ASCII space,
      tab and line breaks. */
  lemma WhitespaceSetsDiffer()
    ensures IsPySpace('\U{85}') && !IsJsSpace('\U{85}')
    ensures IsJsSpace('\U{FEFF}') && !IsPySpace('\U{FEFF}')
    ensures IsJsSpace(' ') && IsPySpace(' ') && IsJsSpace('\t') && IsPySpace('\t')
    ensures IsJsSpace('\n') && IsPySpace('\n') && IsJsSpace('\r') && IsPySpace('\r')
    ensures !IsJsSpace('a') && !IsPySpace('a')
  {
  }

  /** Sum of the lengths of the strings in `xs`. */
  function TotalLength(xs: seq<string>): nat {
    if |xs| == 0 then 0 else |xs[0]| + TotalLength(xs[1..])
  }

  /** Python `sep.join(xs)`: the strings of `xs` in order with `sep`
      between each neighbouring pair. */
  function Join(xs: seq<string>, sep: string): (r: string)
    ensures |xs| == 0 ==> |r| == 0
    ensures |xs| > 0 ==> |r| == TotalLength(xs) + (|xs| - 1) * |sep|
    ensures |xs| == 1 ==> r == xs[0]
  {
    if |xs| == 0 then ""
    else if |xs| == 1 then xs[0]
    else xs[0] + sep + Join(xs[1..], sep)
  }

  /** Appending a string to a non-empty list appends the separator and then
      that string to the join: together with the one-string case this pins
      the join's contents, the parts in order with `sep` between
      neighbours. */
  lemma {:induction false} JoinAppend(xs: seq<string>, x: string, sep: string)
    requires |xs| > 0
    ensures Join(xs + [x], sep) == Join(xs, sep) + sep + x
    decreases |xs|
  {
    if |xs| == 1 {
      assert xs + [x] == [xs[0], x];
      assert (xs + [x])[1..] == [x];
    } else {
      assert (xs + [x])[0] == xs[0];
      assert (xs + [x])[1..] == xs[1..] + [x];
      JoinAppend(xs[1..], x, sep);
    }
  }

  /** With a non-empty separator, a join is empty exactly when there is
      nothing to join or the single string joined is itself empty. */
  lemma {:induction false} JoinEmptyIff(xs: seq<string>, sep: string)
    requires sep != []
    ensures Join(xs, sep) == [] <==> (xs == [] || xs == [[]])
  {
    if |xs| >= 2 {
      assert |Join(xs, sep)| >= |sep|;
    } else if |xs| == 1 {
      assert xs == [xs[0]];
    }
  }
}
