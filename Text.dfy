/**
  Character and string primitives that the assistant (JavaScript) and the
  converter (Python) rely on: white space, trimming, splitting, substring
  search, lower-casing and first-token extraction.
*/
module Text {
  import opened Wrappers

  /** The characters JavaScript's `trim` and the regular-expression class `\s` treat as white space. */
  predicate IsJsSpace(c: char) {
    var n := c as int;
    n == 0x09 || n == 0x0A || n == 0x0B || n == 0x0C || n == 0x0D || n == 0x20 ||
    n == 0xA0 || n == 0x1680 || (0x2000 <= n <= 0x200A) || n == 0x2028 || n == 0x2029 ||
    n == 0x202F || n == 0x205F || n == 0x3000 || n == 0xFEFF
  }

  /** The characters Python's `str.isspace` accepts (used by `strip` and `split()`). */
  predicate IsPySpace(c: char) {
    var n := c as int;
    (0x09 <= n <= 0x0D) || (0x1C <= n <= 0x20) || n == 0x85 || n == 0xA0 || n == 0x1680 ||
    (0x2000 <= n <= 0x200A) || n == 0x2028 || n == 0x2029 || n == 0x202F || n == 0x205F ||
    n == 0x3000
  }

  predicate AllOf(s: string, p: char -> bool) {
    forall k :: 0 <= k < |s| ==> p(s[k])
  }

  predicate NoneOf(s: string, p: char -> bool) {
    forall k :: 0 <= k < |s| ==> !p(s[k])
  }

  /** Drops leading characters satisfying `ws`. */
  function TrimStart(s: string, ws: char -> bool): (r: string)
    ensures |r| <= |s|
  {
    if s != [] && ws(s[0]) then TrimStart(s[1..], ws) else s
  }

  /** `TrimStart` removes a prefix made only of `ws` characters and stops at a non-`ws` one. */
  lemma {:induction false} TrimStartSpec(s: string, ws: char -> bool)
    ensures var r := TrimStart(s, ws);
      && r == s[|s| - |r|..] && AllOf(s[..|s| - |r|], ws) && (r == [] || !ws(r[0]))
  {
    if s != [] && ws(s[0]) {
      TrimStartSpec(s[1..], ws);
      var r := TrimStart(s, ws);
      assert s[..|s| - |r|] == [s[0]] + s[1..][..|s| - 1 - |r|];
    }
  }

  /** Drops trailing characters satisfying `ws`. */
  function TrimEnd(s: string, ws: char -> bool): (r: string)
    ensures |r| <= |s|
  {
    if s != [] && ws(s[|s| - 1]) then TrimEnd(s[..|s| - 1], ws) else s
  }

  /** `TrimEnd` removes a suffix made only of `ws` characters and stops at a non-`ws` one. */
  lemma {:induction false} TrimEndSpec(s: string, ws: char -> bool)
    ensures var r := TrimEnd(s, ws);
      && r == s[..|r|] && AllOf(s[|r|..], ws) && (r == [] || !ws(r[|r| - 1]))
  {
    if s != [] && ws(s[|s| - 1]) {
      var t := s[..|s| - 1];
      TrimEndSpec(t, ws);
      var r := TrimEnd(s, ws);
      assert s[|r|..] == t[|r|..] + [s[|s| - 1]];
    }
  }

  /** Both ends trimmed: JavaScript `trim` with `IsJsSpace`, Python `strip()` with `IsPySpace`. */
  function Strip(s: string, ws: char -> bool): string {
    TrimEnd(TrimStart(s, ws), ws)
  }

  /** `Strip` keeps a contiguous slice of `s` and removes only white space around it. */
  lemma StripSlice(s: string, ws: char -> bool) returns (i: nat)
    ensures i + |Strip(s, ws)| <= |s| && Strip(s, ws) == s[i..i + |Strip(s, ws)|]
    ensures AllOf(s[..i], ws) && AllOf(s[i + |Strip(s, ws)|..], ws)
  {
    var a := TrimStart(s, ws);
    i := |s| - |a|;
    var r := TrimEnd(a, ws);
    TrimStartSpec(s, ws);
    TrimEndSpec(a, ws);
    assert a == s[i..];
    assert r == a[..|r|];
    assert s[i..i + |r|] == r;
    assert s[i + |r|..] == a[|r|..];
  }

  /** `Strip` leaves no white space at either end. */
  lemma StripEnds(s: string, ws: char -> bool)
    ensures var r := Strip(s, ws); r == [] || (!ws(r[0]) && !ws(r[|r| - 1]))
  {
    var a := TrimStart(s, ws);
    var r := TrimEnd(a, ws);
    TrimStartSpec(s, ws);
    TrimEndSpec(a, ws);
    if r != [] {
      assert r[0] == a[0];
    }
  }

  /** The trimmed text is empty exactly when every character is white space. */
  lemma StripEmptyIff(s: string, ws: char -> bool)
    ensures Strip(s, ws) == [] <==> AllOf(s, ws)
  {
    var i := StripSlice(s, ws);
    StripEnds(s, ws);
    var r := Strip(s, ws);
    if r == [] {
      assert s == s[..i] + s[i..];
      forall k | 0 <= k < |s| ensures ws(s[k]) {
        if k < i { assert s[k] == s[..i][k]; } else { assert s[k] == s[i..][k - i]; }
      }
    } else {
      assert s[i] == r[0];
    }
  }

  /** `p` occurs in `s` starting at index `i`. */
  predicate OccursAt(s: string, p: string, i: int) {
    0 <= i <= |s| - |p| && s[i..i + |p|] == p
  }

  /** JavaScript `s.includes(p)` / Python `p in s`: `p` occurs at some index of `s`. */
  predicate Contains(s: string, p: string) {
    exists i :: 0 <= i <= |s| - |p| && OccursAt(s, p, i)
  }

  /** Every character of a contained string occurs in the containing one (used with a character that does not, to refute `Contains`). */
  lemma ContainedCharsOccur(s: string, p: string)
    ensures Contains(s, p) ==> forall k :: 0 <= k < |p| ==> p[k] in s
  {
    if Contains(s, p) {
      var i :| 0 <= i <= |s| - |p| && OccursAt(s, p, i);
      forall k | 0 <= k < |p| ensures p[k] in s {
        assert s[i..i + |p|][k] == s[i + k];
      }
    }
  }

  /** `p` is not contained in `s` when its `k`-th character never occurs in `s`. */
  lemma NotContainedForAbsentChar(s: string, p: string, k: nat)
    requires k < |p| && p[k] !in s
    ensures !Contains(s, p)
  {
    ContainedCharsOccur(s, p);
  }

  /** JavaScript `startsWith` / Python `startswith`. */
  predicate StartsWith(s: string, p: string) {
    |p| <= |s| && s[..|p|] == p
  }

  /** Lower-cases one ASCII letter; every other character is kept. */
  function LowerChar(c: char): char {
    if 'A' <= c <= 'Z' then (c as int + 32) as char else c
  }

  /** `toLowerCase()` / `lower()` restricted to ASCII letters. */
  function Lower(s: string): (r: string)
    ensures |r| == |s|
  {
    if s == [] then [] else [LowerChar(s[0])] + Lower(s[1..])
  }

  /** The longest prefix of `s` free of white space: JavaScript `s.split(/\s+/)[0]`. */
  function FirstToken(s: string, ws: char -> bool): (r: string)
    ensures |r| <= |s| && r == s[..|r|]
    ensures NoneOf(r, ws)
    ensures |r| == |s| || ws(s[|r|])
  {
    if s == [] || ws(s[0]) then [] else [s[0]] + FirstToken(s[1..], ws)
  }

  /** Python `str.split()` with no argument: maximal runs of non-white-space characters. */
  function Tokens(s: string, ws: char -> bool): (r: seq<string>)
    ensures forall k :: 0 <= k < |r| ==> r[k] != [] && NoneOf(r[k], ws)
    decreases |s|
  {
    if s == [] then []
    else if ws(s[0]) then Tokens(s[1..], ws)
    else
      var t := FirstToken(s, ws);
      [t] + Tokens(s[|t|..], ws)
  }

  /** The characters of `s` that are not white space, in order. */
  function Visible(s: string, ws: char -> bool): string {
    if s == [] then [] else (if ws(s[0]) then [] else [s[0]]) + Visible(s[1..], ws)
  }

  function Concat(parts: seq<string>): string {
    if parts == [] then [] else parts[0] + Concat(parts[1..])
  }

  lemma {:induction false} VisibleAppend(a: string, b: string, ws: char -> bool)
    ensures Visible(a + b, ws) == Visible(a, ws) + Visible(b, ws)
  {
    if a != [] {
      assert (a + b)[0] == a[0];
      assert (a + b)[1..] == a[1..] + b;
      VisibleAppend(a[1..], b, ws);
    } else {
      assert a + b == b;
    }
  }

  lemma {:induction false} VisibleOfToken(t: string, ws: char -> bool)
    requires NoneOf(t, ws)
    ensures Visible(t, ws) == t
  {
    if t != [] {
      VisibleOfToken(t[1..], ws);
    }
  }

  /** Splitting on white space loses exactly the white space: the tokens glue back to the visible characters. */
  lemma {:induction false} TokensCoverVisible(s: string, ws: char -> bool)
    ensures Concat(Tokens(s, ws)) == Visible(s, ws)
    decreases |s|
  {
    if s == [] {
    } else if ws(s[0]) {
      TokensCoverVisible(s[1..], ws);
    } else {
      var t := FirstToken(s, ws);
      assert s == t + s[|t|..];
      TokensCoverVisible(s[|t|..], ws);
      VisibleAppend(t, s[|t|..], ws);
      VisibleOfToken(t, ws);
    }
  }

  /**
    JavaScript `s.split(re)` where `re` matches exactly one separator character:
    every separator ends a piece, so empty pieces are kept.
  */
  function SplitOn(s: string, sep: char -> bool): (r: seq<string>)
    ensures |r| >= 1
  {
    if s == [] then [[]]
    else
      var rest := SplitOn(s[1..], sep);
      if sep(s[0]) then [[]] + rest else [[s[0]] + rest[0]] + rest[1..]
  }

  /** No piece contains a separator. */
  lemma {:induction false} SplitPiecesFreeOfSeparators(s: string, sep: char -> bool)
    ensures forall k :: 0 <= k < |SplitOn(s, sep)| ==> NoneOf(SplitOn(s, sep)[k], sep)
  {
    if s != [] {
      SplitPiecesFreeOfSeparators(s[1..], sep);
      var rest := SplitOn(s[1..], sep);
      if !sep(s[0]) {
        assert NoneOf([s[0]] + rest[0], sep);
      }
    }
  }

  /** Every piece of a text made only of `p`-characters is made only of `p`-characters. */
  lemma {:induction false} SplitKeepsAllOf(s: string, sep: char -> bool, p: char -> bool)
    requires AllOf(s, p)
    ensures forall k :: 0 <= k < |SplitOn(s, sep)| ==> AllOf(SplitOn(s, sep)[k], p)
  {
    if s != [] {
      SplitKeepsAllOf(s[1..], sep, p);
      var rest := SplitOn(s[1..], sep);
      if !sep(s[0]) {
        assert AllOf([s[0]] + rest[0], p);
      }
    }
  }

  /** The separator characters of `s`, in order. */
  function Separators(s: string, sep: char -> bool): string {
    if s == [] then [] else (if sep(s[0]) then [s[0]] else []) + Separators(s[1..], sep)
  }

  /** `pieces[0] + seps[0] + pieces[1] + ... + pieces[n]`. */
  function Interleave(pieces: seq<string>, seps: string): string
    requires |pieces| == |seps| + 1
  {
    if seps == [] then pieces[0] else pieces[0] + [seps[0]] + Interleave(pieces[1..], seps[1..])
  }

  /** Splitting is lossless: the pieces, rejoined with the separators found, give back the text. */
  lemma {:induction false} SplitRoundTrip(s: string, sep: char -> bool)
    ensures |SplitOn(s, sep)| == |Separators(s, sep)| + 1
    ensures Interleave(SplitOn(s, sep), Separators(s, sep)) == s
  {
    if s != [] {
      SplitRoundTrip(s[1..], sep);
      var rest := SplitOn(s[1..], sep);
      var seps := Separators(s[1..], sep);
      if sep(s[0]) {
        assert SplitOn(s, sep)[1..] == rest;
        assert s == [] + [s[0]] + s[1..];
      } else {
        var r := SplitOn(s, sep);
        assert r[0] == [s[0]] + rest[0];
        assert r[1..] == rest[1..];
        assert Separators(s, sep) == seps;
        if seps == [] {
          assert s == [s[0]] + s[1..];
        } else {
          calc {
            Interleave(r, seps);
            r[0] + [seps[0]] + Interleave(r[1..], seps[1..]);
            [s[0]] + (rest[0] + [seps[0]] + Interleave(rest[1..], seps[1..]));
            [s[0]] + Interleave(rest, seps);
            [s[0]] + s[1..];
            s;
          }
        }
      }
    }
  }

  // ---------------------------------------------------------------------------
  // Character search

  /** The first position of `c` in `s` (JavaScript `indexOf`, Python `find`). */
  function IndexOf(s: string, c: char): (r: Option<nat>)
    ensures r.Some? ==> r.value < |s|
  {
    if s == [] then None
    else if s[0] == c then Some(0)
    else match IndexOf(s[1..], c)
      case Some(i) => Some(i + 1)
      case None => None
  }

  /** The last position of `c` in `s` (JavaScript `lastIndexOf`). */
  function LastIndexOf(s: string, c: char): (r: Option<nat>)
    ensures r.Some? ==> r.value < |s|
  {
    if s == [] then None
    else if s[|s| - 1] == c then Some(|s| - 1)
    else LastIndexOf(s[..|s| - 1], c)
  }

  lemma {:induction false} IndexOfSpec(s: string, c: char)
    ensures IndexOf(s, c).None? <==> c !in s
    ensures IndexOf(s, c).Some? ==>
      s[IndexOf(s, c).value] == c && forall k :: 0 <= k < IndexOf(s, c).value ==> s[k] != c
  {
    if s != [] && s[0] != c {
      IndexOfSpec(s[1..], c);
      assert s == [s[0]] + s[1..];
    }
  }

  lemma {:induction false} LastIndexOfSpec(s: string, c: char)
    ensures LastIndexOf(s, c).None? <==> c !in s
    ensures LastIndexOf(s, c).Some? ==>
      s[LastIndexOf(s, c).value] == c && forall k :: LastIndexOf(s, c).value < k < |s| ==> s[k] != c
  {
    if s != [] && s[|s| - 1] != c {
      LastIndexOfSpec(s[..|s| - 1], c);
      assert s == s[..|s| - 1] + [s[|s| - 1]];
    }
  }
}
