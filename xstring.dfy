/**
 * The string helpers of the translator: substring test, whitespace test,
 * splitting at a delimiter, trimming, replacing and erasing characters.
 * A std::string is a `string`; "not found" positions are NPOS (SIZE_MAX),
 * so every string handled here is shorter than NPOS.
 */
module XString {
  import opened Common

  const WHITESPACE: string := " \n\r\t"
  const NPOS: nat := SIZE_MAX

  /* ---------- searching (the std::string find family) ---------- */

  /** First position at or after `pos` holding `c`, or NPOS. */
  function Find(s: string, c: char, pos: nat): (r: nat)
    requires |s| < NPOS
    ensures r == NPOS || (pos <= r < |s| && s[r] == c)
    ensures forall k :: pos <= k < |s| && k < r ==> s[k] != c
    decreases |s| - pos
  {
    if pos >= |s| then NPOS else if s[pos] == c then pos else Find(s, c, pos + 1)
  }

  /** First position at or after `pos` holding a character not in `chars`, or NPOS. */
  function FindFirstNotOf(s: string, chars: string, pos: nat): (r: nat)
    requires |s| < NPOS
    ensures r == NPOS || (pos <= r < |s| && s[r] !in chars)
    ensures forall k :: pos <= k < |s| && k < r ==> s[k] in chars
    decreases |s| - pos
  {
    if pos >= |s| then NPOS else if s[pos] !in chars then pos else FindFirstNotOf(s, chars, pos + 1)
  }

  /** Last position below `n` holding a character not in `chars`, or NPOS. */
  function FindLastNotOfBelow(s: string, chars: string, n: nat): (r: nat)
    requires n <= |s| < NPOS
    ensures r == NPOS || (r < n && s[r] !in chars)
    ensures forall k :: 0 <= k < n && (r == NPOS || r < k) ==> s[k] in chars
  {
    if n == 0 then NPOS else if s[n - 1] !in chars then n - 1 else FindLastNotOfBelow(s, chars, n - 1)
  }

  function FindLastNotOf(s: string, chars: string): nat
    requires |s| < NPOS
  {
    FindLastNotOfBelow(s, chars, |s|)
  }

  predicate OccursAt(s: string, t: string, i: nat)
  {
    i + |t| <= |s| && s[i..i + |t|] == t
  }

  /** First position at or after `pos` where `t` occurs in `s`, or NPOS. */
  function FindSub(s: string, t: string, pos: nat): (r: nat)
    requires |s| < NPOS
    ensures r == NPOS || (pos <= r && OccursAt(s, t, r))
    ensures r == NPOS ==> forall i :: pos <= i ==> !OccursAt(s, t, i)
    decreases |s| - pos
  {
    if pos + |t| > |s| then NPOS
    else if s[pos..pos + |t|] == t then pos
    else FindSub(s, t, pos + 1)
  }

  /** std::string::substr: at most `count` characters from `pos`. */
  function Substr(s: string, pos: nat, count: nat): (r: string)
    requires pos <= |s|
    ensures |r| == if count < |s| - pos then count else |s| - pos
    ensures forall k :: 0 <= k < |r| ==> r[k] == s[pos + k]
  {
    if count < |s| - pos then s[pos..pos + count] else s[pos..]
  }

  lemma SubstrIsSlice(s: string, pos: nat, count: nat)
    requires pos <= |s|
    ensures Substr(s, pos, count) == s[pos..if count < |s| - pos then pos + count else |s|]
  {
  }

  /* ---------- contains, isEmptyOrWhitespace, trim ---------- */

  predicate Contains(lookIn: string, lookFor: string)
    requires |lookIn| < NPOS
  {
    FindSub(lookIn, lookFor, 0) != NPOS
  }

  lemma {:induction false} ContainsMeansOccurs(lookIn: string, lookFor: string)
    requires |lookIn| < NPOS
    ensures Contains(lookIn, lookFor) <==> exists i :: OccursAt(lookIn, lookFor, i)
  {
    var r := FindSub(lookIn, lookFor, 0);
    if r != NPOS {
      assert OccursAt(lookIn, lookFor, r);
    }
  }

  /** A null pointer, an empty string or a string made only of " \n\r\t". */
  predicate IsEmptyOrWhitespace(p: Option<string>)
    requires p.Some? ==> |p.value| < NPOS
    ensures IsEmptyOrWhitespace(p) <==> p.None? || forall k :: 0 <= k < |p.value| ==> p.value[k] in WHITESPACE
  {
    p.None? || |p.value| == 0 || FindFirstNotOf(p.value, WHITESPACE, 0) == NPOS
  }

  /** `r` is `s` with a prefix and a suffix of characters from `chars` removed at position `i`. */
  predicate IsTrimmedAt(s: string, r: string, chars: string, i: nat)
  {
    && i + |r| <= |s|
    && s[i..i + |r|] == r
    && (forall k :: 0 <= k < i ==> s[k] in chars)
    && (forall k :: i + |r| <= k < |s| ==> s[k] in chars)
  }

  /** Cuts the characters of `trimChars` from both ends: the substring from the first to the last other character, or "". */
  function Trim(s: string, trimChars: string): (r: string)
    requires |s| < NPOS
    ensures (forall k :: 0 <= k < |s| ==> s[k] in trimChars) <==> r == []
    ensures r != [] ==> r[0] !in trimChars && r[|r| - 1] !in trimChars
    ensures exists i :: IsTrimmedAt(s, r, trimChars, i)
  {
    var spos := FindFirstNotOf(s, trimChars, 0);
    var epos := FindLastNotOf(s, trimChars);
    if spos != NPOS && epos != NPOS && epos >= spos then
      var r := s[spos..epos + 1];
      assert IsTrimmedAt(s, r, trimChars, spos);
      r
    else
      assert spos == NPOS;
      assert IsTrimmedAt(s, "", trimChars, 0);
      ""
  }

  /* ---------- trySplit ---------- */

  /** End of the delimiter-free run that starts at `i`. */
  function RunEnd(s: string, d: char, i: nat): (j: nat)
    requires i <= |s|
    ensures i <= j <= |s| && (j == |s| || s[j] == d)
    ensures forall k :: i <= k < j ==> s[k] != d
    decreases |s| - i
  {
    if i == |s| || s[i] == d then i else RunEnd(s, d, i + 1)
  }

  /** The maximal delimiter-free runs of s[i..], in order. */
  function Pieces(s: string, d: char, i: nat): seq<string>
    requires i <= |s|
    decreases |s| - i
  {
    if i == |s| then []
    else if s[i] == d then Pieces(s, d, i + 1)
    else
      var j := RunEnd(s, d, i);
      [s[i..j]] + Pieces(s, d, j)
  }

  /** No piece is empty and no piece holds the delimiter. */
  lemma {:induction false} PiecesWellFormed(s: string, d: char, i: nat)
    requires i <= |s|
    ensures forall p :: p in Pieces(s, d, i) ==> |p| > 0 && d !in p
    decreases |s| - i
  {
    if i == |s| {
    } else if s[i] == d {
      PiecesWellFormed(s, d, i + 1);
    } else {
      var j := RunEnd(s, d, i);
      PiecesWellFormed(s, d, j);
      assert forall k :: 0 <= k < |s[i..j]| ==> s[i..j][k] != d;
    }
  }

  /** Every piece of s[i..] is at most as long as s[i..]. */
  lemma {:induction false} PiecesWithin(s: string, d: char, i: nat)
    requires i <= |s|
    ensures forall k :: 0 <= k < |Pieces(s, d, i)| ==> |Pieces(s, d, i)[k]| <= |s| - i
    decreases |s| - i
  {
    if i == |s| {
    } else if s[i] == d {
      PiecesWithin(s, d, i + 1);
    } else {
      var j := RunEnd(s, d, i);
      PiecesWithin(s, d, j);
      assert Pieces(s, d, i) == [s[i..j]] + Pieces(s, d, j);
    }
  }

  function Concat(ps: seq<string>): string
  {
    if ps == [] then [] else ps[0] + Concat(ps[1..])
  }

  /** Joining the pieces gives back the input without its delimiters. */
  lemma {:induction false} PiecesJoinToNonDelimiters(s: string, d: char, i: nat)
    requires i <= |s|
    ensures Concat(Pieces(s, d, i)) == RemoveAll(s[i..], [d])
    decreases |s| - i
  {
    if i == |s| {
    } else if s[i] == d {
      PiecesJoinToNonDelimiters(s, d, i + 1);
      assert s[i..] == [s[i]] + s[i + 1..];
    } else {
      var j := RunEnd(s, d, i);
      PiecesJoinToNonDelimiters(s, d, j);
      assert s[i..] == s[i..j] + s[j..];
      RemoveAllAppend(s[i..j], s[j..], [d]);
      RemoveAllNone(s[i..j], [d]);
      assert Pieces(s, d, i) == [s[i..j]] + Pieces(s, d, j);
    }
  }

  /** Skipping delimiters does not change the pieces. */
  lemma {:induction false} PiecesSkipDelimiters(s: string, d: char, i: nat, j: nat)
    requires i <= j <= |s|
    requires forall k :: i <= k < j ==> s[k] == d
    ensures Pieces(s, d, i) == Pieces(s, d, j)
    decreases j - i
  {
    if i < j {
      PiecesSkipDelimiters(s, d, i + 1, j);
    }
  }

  function ClipToLength(s: string, pos: nat): nat
  {
    if pos > |s| then |s| else pos
  }

  /** One round of the splitting loop started at `e`: the piece it pushes, if any, and where it stops. */
  lemma SplitRound(s: string, d: char, e: nat, spos: nat, epos: nat)
    requires e <= |s| < NPOS
    requires spos == FindFirstNotOf(s, [d], e) && epos == Find(s, d, spos)
    ensures epos == NPOS || (epos < |s| && s[epos] == d)
    ensures e < |s| && s[e] == d ==> epos > e
    ensures spos < |s| ==> epos > spos && Pieces(s, d, e) == [Substr(s, spos, epos - spos)] + Pieces(s, d, ClipToLength(s, epos))
    ensures spos >= |s| ==> epos == NPOS && Pieces(s, d, e) == []
  {
    if spos == NPOS {
      PiecesSkipDelimiters(s, d, e, |s|);
    } else {
      PiecesSkipDelimiters(s, d, e, spos);
      var j := RunEnd(s, d, spos);
      SubstrIsSlice(s, spos, epos - spos);
      if epos == NPOS {
        assert j == |s|;
      } else {
        assert j == epos;
      }
    }
  }

  /**
   * Splits `s` at `delim` into its maximal non-empty runs; an empty input leaves
   * `out0` untouched and fails; success means at least two pieces.
   */
  method TrySplit(s: string, out0: seq<string>, delim: char) returns (ok: bool, out: seq<string>)
    requires |s| < NPOS
    ensures s == [] ==> !ok && out == out0
    ensures s != [] ==> out == Pieces(s, delim, 0) && (ok <==> |out| >= 2)
  {
    if |s| == 0 {
      return false, out0;
    }
    out := [];
    var spos: nat, epos: nat := 0, 0;
    var first := true;
    while first || epos < |s| - 1
      invariant first ==> epos == 0 && out == []
      invariant !first ==> epos == NPOS || (epos < |s| && s[epos] == delim)
      invariant epos <= |s| || epos == NPOS
      invariant out + Pieces(s, delim, ClipToLength(s, epos)) == Pieces(s, delim, 0)
      decreases |s| - epos + (if first then 1 else 0)
    {
      var e := ClipToLength(s, epos);
      spos := FindFirstNotOf(s, [delim], epos);
      epos := Find(s, delim, spos);
      SplitRound(s, delim, e, spos, epos);
      if spos < |s| && epos > spos {
        var piece := Substr(s, spos, epos - spos);
        assert (out + [piece]) + Pieces(s, delim, ClipToLength(s, epos)) == out + ([piece] + Pieces(s, delim, ClipToLength(s, epos)));
        out := out + [piece];
      }
      first := false;
    }
    if epos != NPOS {
      assert Pieces(s, delim, epos) == Pieces(s, delim, |s|);
    }
    ok := if |out| == 1 then false else |out| != 0;
  }

  /* ---------- filter and erase_any ---------- */

  /** Replaces every character found in `filterChars` by a space. */
  method Filter(str: string, filterChars: string) returns (out: string)
    ensures |out| == |str|
    ensures forall k :: 0 <= k < |str| ==> out[k] == if str[k] in filterChars then ' ' else str[k]
  {
    out := str;
    var i := 0;
    while i < |out|
      invariant |out| == |str| && 0 <= i <= |out|
      invariant forall k :: 0 <= k < i ==> out[k] == if str[k] in filterChars then ' ' else str[k]
      invariant forall k :: i <= k < |out| ==> out[k] == str[k]
    {
      if out[i] in filterChars {
        out := out[i := ' '];
      }
      i := i + 1;
    }
  }

  /** `s` without any character of `cs`, the others in their order. */
  function RemoveAll(s: string, cs: string): (r: string)
    ensures |r| <= |s|
  {
    if s == [] then []
    else if s[0] in cs then RemoveAll(s[1..], cs)
    else [s[0]] + RemoveAll(s[1..], cs)
  }

  lemma {:induction false} RemoveAllAppend(a: string, b: string, cs: string)
    ensures RemoveAll(a + b, cs) == RemoveAll(a, cs) + RemoveAll(b, cs)
  {
    if a != [] {
      assert (a + b)[1..] == a[1..] + b;
      RemoveAllAppend(a[1..], b, cs);
    } else {
      assert a + b == b;
    }
  }

  lemma {:induction false} RemoveAllNone(s: string, cs: string)
    requires forall k :: 0 <= k < |s| ==> s[k] !in cs
    ensures RemoveAll(s, cs) == s
  {
    if s != [] {
      RemoveAllNone(s[1..], cs);
    }
  }

  /** Removing `a` then `b` removes `a + b`. */
  lemma {:induction false} RemoveAllTwice(s: string, a: string, b: string)
    ensures RemoveAll(RemoveAll(s, a), b) == RemoveAll(s, a + b)
  {
    if s != [] {
      RemoveAllTwice(s[1..], a, b);
    }
  }

  /** No removed character is left. */
  lemma {:induction false} RemoveAllRemoves(s: string, cs: string)
    ensures forall k :: 0 <= k < |RemoveAll(s, cs)| ==> RemoveAll(s, cs)[k] !in cs
  {
    if s != [] {
      RemoveAllRemoves(s[1..], cs);
    }
  }

  /** `a` can be obtained from `b` by deleting elements. */
  predicate IsSubsequence(a: string, b: string)
  {
    if a == [] then true
    else if b == [] then false
    else (a[0] == b[0] && IsSubsequence(a[1..], b[1..])) || IsSubsequence(a, b[1..])
  }

  /** The kept characters keep their order and every other character is removed. */
  lemma {:induction false} RemoveAllKeepsOrder(s: string, cs: string)
    ensures IsSubsequence(RemoveAll(s, cs), s)
    ensures forall c :: c !in cs ==> multiset(RemoveAll(s, cs))[c] == multiset(s)[c]
  {
    if s != [] {
      RemoveAllKeepsOrder(s[1..], cs);
      assert s == [s[0]] + s[1..];
      var r := RemoveAll(s[1..], cs);
      if s[0] !in cs {
        assert RemoveAll(s, cs) == [s[0]] + r;
        assert ([s[0]] + r)[1..] == r;
      }
    }
  }

  /** Erases every character of `charsToErase` from `str`, one character at a time. */
  method EraseAny(str: string, charsToErase: string) returns (out: string)
    ensures out == RemoveAll(str, charsToErase)
    ensures forall k :: 0 <= k < |out| ==> out[k] !in charsToErase
  {
    out := str;
    var i := 0;
    RemoveAllNone(str, []);
    while i < |charsToErase|
      invariant 0 <= i <= |charsToErase|
      invariant out == RemoveAll(str, charsToErase[..i])
    {
      var c := charsToErase[i];
      RemoveAllTwice(str, charsToErase[..i], [c]);
      assert charsToErase[..i + 1] == charsToErase[..i] + [c];
      out := RemoveAll(out, [c]);
      i := i + 1;
    }
    assert charsToErase[..i] == charsToErase;
    RemoveAllRemoves(str, charsToErase);
  }
}
