/** The JavaScript string operations the core relies on: `trim`, `startsWith`, `split` and `join`
    with a literal separator, and `replace` with a global literal pattern. Strings are sequences of
    Unicode scalar values. */
module Text {

  /** The ECMAScript WhiteSpace and LineTerminator code points, which is what `trim` removes. */
  predicate IsWhitespace(c: char) {
    || c == ' ' || c == '\t' || c == '\n' || c == '\r' || c == '\U{B}' || c == '\U{C}'
    || c == '\U{A0}' || c == '\U{1680}' || ('\U{2000}' <= c <= '\U{200A}')
    || c == '\U{2028}' || c == '\U{2029}' || c == '\U{202F}' || c == '\U{205F}'
    || c == '\U{3000}' || c == '\U{FEFF}'
  }

  /** Drops the leading whitespace: the result is a suffix of `s` that does not start with whitespace. */
  function TrimStart(s: string): (r: string)
    ensures |r| <= |s| && r == s[|s| - |r|..]
    ensures forall k :: 0 <= k < |s| - |r| ==> IsWhitespace(s[k])
    ensures r != [] ==> !IsWhitespace(r[0])
  {
    if |s| > 0 && IsWhitespace(s[0]) then TrimStart(s[1..]) else s
  }

  /** Drops the trailing whitespace: the result is a prefix of `s` that does not end with whitespace. */
  function TrimEnd(s: string): (r: string)
    ensures |r| <= |s| && r == s[..|r|]
    ensures forall k :: |r| <= k < |s| ==> IsWhitespace(s[k])
    ensures r != [] ==> !IsWhitespace(r[|r| - 1])
  {
    if |s| > 0 && IsWhitespace(s[|s| - 1]) then TrimEnd(s[..|s| - 1]) else s
  }

  /** `s.trim()` */
  function Trim(s: string): string {
    TrimEnd(TrimStart(s))
  }

  /** A string trims to "" exactly when all of its characters are whitespace. */
  lemma TrimEmptyIff(s: string)
    ensures Trim(s) == [] <==> forall k :: 0 <= k < |s| ==> IsWhitespace(s[k])
  {
    var t := TrimStart(s);
    WhitespaceSuffix(s, |s| - |t|, t);
    EmptyIffWhitespace(t, TrimEnd(t));
  }

  /** Past an all-whitespace prefix, `s` is all whitespace exactly when what follows is. */
  lemma WhitespaceSuffix(s: string, i: nat, t: string)
    requires i <= |s| && t == s[i..]
    requires forall k :: 0 <= k < i ==> IsWhitespace(s[k])
    ensures (forall k :: 0 <= k < |s| ==> IsWhitespace(s[k])) <==> (forall k :: 0 <= k < |t| ==> IsWhitespace(t[k]))
  {
    if forall k :: 0 <= k < |t| ==> IsWhitespace(t[k]) {
      forall k | i <= k < |s| ensures IsWhitespace(s[k]) {
        assert s[k] == t[k - i];
      }
    }
  }

  /** A prefix `r` of `t` followed only by whitespace, and not starting with whitespace, is empty
      exactly when `t` is all whitespace. */
  lemma EmptyIffWhitespace(t: string, r: string)
    requires |r| <= |t| && r == t[..|r|]
    requires forall k :: |r| <= k < |t| ==> IsWhitespace(t[k])
    requires r != [] ==> !IsWhitespace(r[0])
    ensures r == [] <==> forall k :: 0 <= k < |t| ==> IsWhitespace(t[k])
  {
    if r != [] {
      assert t[0] == r[0];
    }
  }

  /** `s.startsWith(p)` */
  predicate StartsWith(s: string, p: string) {
    |p| <= |s| && s[..|p|] == p
  }

  /** `s.endsWith(p)` */
  predicate EndsWith(s: string, p: string) {
    |p| <= |s| && s[|s| - |p|..] == p
  }

  /** `pat` occurs in `s` at index `i`. */
  predicate OccursAt(s: string, pat: string, i: int) {
    0 <= i && i + |pat| <= |s| && s[i..i + |pat|] == pat
  }

  /** `pat` occurs nowhere in `s`. */
  predicate Free(s: string, pat: string) {
    forall i :: 0 <= i <= |s| - |pat| ==> !OccursAt(s, pat, i)
  }

  /** No occurrence of `sep` starts inside `p` when `p` is followed by `sep`, so a piece joined
      with `sep` cannot make a separator straddle the boundary. */
  predicate Clean(p: string, sep: string) {
    forall i :: 0 <= i < |p| ==> !OccursAt(p + sep, sep, i)
  }

  /** `s.split(sep)` for a non-empty literal separator: cuts at every leftmost, non-overlapping
      occurrence of `sep`, scanning from the start; there is always at least one piece. */
  function Split(s: string, sep: string): (pieces: seq<string>)
    requires sep != []
    ensures |pieces| >= 1
    decreases |s|
  {
    if |s| < |sep| then [s]
    else if s[..|sep|] == sep then [[]] + Split(s[|sep|..], sep)
    else
      var rest := Split(s[1..], sep);
      [[s[0]] + rest[0]] + rest[1..]
  }

  /** `pieces.join(sep)` */
  function Join(pieces: seq<string>, sep: string): string {
    if |pieces| == 0 then []
    else if |pieces| == 1 then pieces[0]
    else pieces[0] + sep + Join(pieces[1..], sep)
  }

  /** `s.replace(/pat/g, rep)` for a pattern without regular-expression metacharacters and a
      replacement without `$` patterns: every leftmost, non-overlapping occurrence is replaced. */
  function ReplaceAll(s: string, pat: string, rep: string): string
    requires pat != []
  {
    Join(Split(s, pat), rep)
  }

  lemma JoinHeadPrefix(ps: seq<string>, sep: string)
    requires |ps| >= 1
    ensures ps[0] <= Join(ps, sep)
  {
  }

  lemma JoinConsChar(c: char, ps: seq<string>, sep: string)
    requires |ps| >= 1
    ensures Join([[c] + ps[0]] + ps[1..], sep) == [c] + Join(ps, sep)
  {
    var qs := [[c] + ps[0]] + ps[1..];
    if |ps| > 1 {
      assert qs[1..] == ps[1..];
    }
  }

  /** Joining the pieces of a split gives back the string. */
  lemma {:induction false} JoinSplit(s: string, sep: string)
    requires sep != []
    ensures Join(Split(s, sep), sep) == s
    decreases |s|
  {
    if |s| < |sep| {
    } else if s[..|sep|] == sep {
      var rest := Split(s[|sep|..], sep);
      JoinSplit(s[|sep|..], sep);
      var ps := [[]] + rest;
      assert Split(s, sep) == ps;
      assert ps[1..] == rest;
      assert s == s[..|sep|] + s[|sep|..];
    } else {
      var rest := Split(s[1..], sep);
      JoinSplit(s[1..], sep);
      JoinConsChar(s[0], rest, sep);
      assert s == [s[0]] + s[1..];
    }
  }

  /** No piece of a split contains the separator. */
  lemma {:induction false} SplitPiecesFree(s: string, sep: string)
    requires sep != []
    ensures forall k :: 0 <= k < |Split(s, sep)| ==> Free(Split(s, sep)[k], sep)
    decreases |s|
  {
    if |s| < |sep| {
    } else if s[..|sep|] == sep {
      SplitPiecesFree(s[|sep|..], sep);
    } else {
      var rest := Split(s[1..], sep);
      SplitPiecesFree(s[1..], sep);
      JoinSplit(s[1..], sep);
      JoinHeadPrefix(rest, sep);
      ConsFree(s, rest[0], sep);
      var pieces := Split(s, sep);
      assert pieces == [[s[0]] + rest[0]] + rest[1..];
      forall k | 0 < k < |pieces| ensures Free(pieces[k], sep) {
        assert pieces[k] == rest[k];
      }
    }
  }

  /** The first character of `s` followed by a prefix of `s[1..]` without the separator has no
      separator either, when `s` does not start with one. */
  lemma ConsFree(s: string, p: string, sep: string)
    requires sep != [] && |sep| <= |s| && s[..|sep|] != sep
    requires p <= s[1..] && Free(p, sep)
    ensures Free([s[0]] + p, sep)
  {
    var first := [s[0]] + p;
    assert first <= s;
    forall i ensures !OccursAt(first, sep, i) {
      if i == 0 && |sep| <= |first| {
        assert first[..|sep|] == s[..|sep|];
      } else if 1 <= i && i + |sep| <= |first| {
        assert first[i..i + |sep|] == p[i - 1..i - 1 + |sep|];
        assert !OccursAt(p, sep, i - 1);
      }
    }
  }

  /** A string without the separator splits into itself alone. */
  lemma {:induction false} SplitFree(s: string, sep: string)
    requires sep != [] && Free(s, sep)
    ensures Split(s, sep) == [s]
    decreases |s|
  {
    if |s| >= |sep| {
      assert !OccursAt(s, sep, 0);
      forall i ensures !OccursAt(s[1..], sep, i) {
        if 0 <= i && i + |sep| <= |s| - 1 {
          assert s[1..][i..i + |sep|] == s[i + 1..i + 1 + |sep|];
          assert !OccursAt(s, sep, i + 1);
        }
      }
      SplitFree(s[1..], sep);
      assert [s[0]] + s[1..] == s;
    }
  }

  lemma CleanFree(p: string, sep: string)
    requires sep != [] && Clean(p, sep)
    ensures Free(p, sep)
  {
    forall i ensures !OccursAt(p, sep, i) {
      if 0 <= i && i + |sep| <= |p| {
        assert (p + sep)[i..i + |sep|] == p[i..i + |sep|];
        assert !OccursAt(p + sep, sep, i);
      }
    }
  }

  /** For a separator whose first character does not recur in it (". " and " " among them), a
      piece without the separator is clean. */
  lemma FreeClean(p: string, sep: string)
    requires sep != [] && Free(p, sep)
    requires forall j :: 0 < j < |sep| ==> sep[j] != sep[0]
    ensures Clean(p, sep)
  {
    forall i | 0 <= i < |p| ensures !OccursAt(p + sep, sep, i) {
      if i + |sep| <= |p| {
        assert (p + sep)[i..i + |sep|] == p[i..i + |sep|];
        assert !OccursAt(p, sep, i);
      } else if i + |sep| <= |p + sep| {
        assert (p + sep)[i..i + |sep|][|p| - i] == sep[0];
        assert sep[|p| - i] != sep[0];
      }
    }
  }

  /** A prefix of a string without `pat` is without `pat`. */
  lemma FreePrefix(q: string, p: string, pat: string)
    requires q <= p && Free(p, pat)
    ensures Free(q, pat)
  {
    forall i ensures !OccursAt(q, pat, i) {
      if 0 <= i && i + |pat| <= |q| {
        assert q[i..i + |pat|] == p[i..i + |pat|];
        assert !OccursAt(p, pat, i);
      }
    }
  }

  /** A clean piece followed by the separator is split off as one piece. */
  lemma {:induction false} SplitClean(p: string, sep: string, rest: string)
    requires sep != [] && Clean(p, sep)
    ensures Split(p + sep + rest, sep) == [p] + Split(rest, sep)
    decreases |p|
  {
    var s := p + sep + rest;
    if p == [] {
      assert s == sep + rest;
      assert s[..|sep|] == sep;
      assert s[|sep|..] == rest;
    } else {
      assert s[..|sep|] != sep by {
        assert !OccursAt(p + sep, sep, 0);
        assert s[..|sep|] == (p + sep)[..|sep|];
      }
      CleanTail(p, sep);
      SplitClean(p[1..], sep, rest);
      assert s[1..] == p[1..] + sep + rest;
      assert [s[0]] + p[1..] == p;
    }
  }

  lemma CleanTail(p: string, sep: string)
    requires p != [] && Clean(p, sep)
    ensures Clean(p[1..], sep)
  {
    forall i | 0 <= i < |p[1..]| ensures !OccursAt(p[1..] + sep, sep, i) {
      assert (p[1..] + sep)[i..i + |sep|] == (p + sep)[i + 1..i + 1 + |sep|];
      assert !OccursAt(p + sep, sep, i + 1);
    }
  }

  /** Splitting the join of clean pieces gives the pieces back. */
  lemma {:induction false} SplitJoin(ps: seq<string>, sep: string)
    requires sep != [] && |ps| >= 1
    requires forall k :: 0 <= k < |ps| ==> Clean(ps[k], sep)
    ensures Split(Join(ps, sep), sep) == ps
    decreases |ps|
  {
    if |ps| == 1 {
      CleanFree(ps[0], sep);
      SplitFree(ps[0], sep);
    } else {
      SplitJoin(ps[1..], sep);
      SplitClean(ps[0], sep, Join(ps[1..], sep));
      assert [ps[0]] + ps[1..] == ps;
    }
  }

  /** Joining the first `k` pieces and the remaining pieces, with a separator between them, is
      joining all of them. */
  lemma {:induction false} JoinSplitAt(ws: seq<string>, k: nat, sep: string)
    requires 1 <= k < |ws|
    ensures Join(ws, sep) == Join(ws[..k], sep) + sep + Join(ws[k..], sep)
    decreases k
  {
    if k > 1 {
      JoinSplitAt(ws[1..], k - 1, sep);
      assert ws[..k][1..] == ws[1..][..k - 1];
      assert ws[1..][k - 1..] == ws[k..];
    }
  }

  /** Joining the first `k` pieces gives a prefix of joining all of them. */
  lemma JoinPrefix(ws: seq<string>, k: nat, sep: string)
    requires 1 <= k <= |ws|
    ensures Join(ws[..k], sep) <= Join(ws, sep)
  {
    if k == |ws| {
      assert ws[..k] == ws;
    } else {
      JoinSplitAt(ws, k, sep);
    }
  }

  /** Joining pieces that are each no longer than their counterparts is no longer. */
  lemma {:induction false} JoinLengthMono(xs: seq<string>, ys: seq<string>, sep: string)
    requires |xs| == |ys|
    requires forall k :: 0 <= k < |xs| ==> |xs[k]| <= |ys[k]|
    ensures |Join(xs, sep)| <= |Join(ys, sep)|
    decreases |xs|
  {
    if |xs| > 1 {
      JoinLengthMono(xs[1..], ys[1..], sep);
    }
  }

  /** Replacing a pattern that does not occur changes nothing. */
  lemma ReplaceAllFree(s: string, pat: string, rep: string)
    requires pat != [] && Free(s, pat)
    ensures ReplaceAll(s, pat, rep) == s
  {
    SplitFree(s, pat);
  }
}
