/**
 * The Python `str` operations the core relies on: `isspace`, `strip`, `split()`,
 * `replace(c, '')`, `lower`, `startswith`, the `in` operator, `str(int)` and the
 * zero-padded decimal fields of `strftime`.
 */
module PyStr {

  /** `c.isspace()`: every character Python treats as whitespace in `strip()` and `split()`. */
  predicate IsSpace(c: char) {
    || ('\t' <= c <= '\r')              // \t \n \v \f \r
    || ('\U{1c}' <= c <= '\U{1f}')      // file, group, record and unit separators
    || c == ' ' || c == '\U{85}' || c == '\U{a0}' || c == '\U{1680}'
    || ('\U{2000}' <= c <= '\U{200a}')
    || c == '\U{2028}' || c == '\U{2029}' || c == '\U{202f}' || c == '\U{205f}' || c == '\U{3000}'
  }

  /** `a` can be obtained from `b` by deleting characters. */
  predicate IsSubsequence<T(==)>(a: seq<T>, b: seq<T>)
    decreases |b|
  {
    || a == []
    || (b != [] && ((a[0] == b[0] && IsSubsequence(a[1..], b[1..])) || IsSubsequence(a, b[1..])))
  }

  lemma {:induction false} SubsequenceOfSlice<T>(s: seq<T>, i: nat, j: nat)
    requires i <= j <= |s|
    ensures IsSubsequence(s[i..j], s)
  {
    if i == j {
    } else if i == 0 {
      assert s[i..j][0] == s[0];
      assert s[i..j][1..] == s[1..][0..j - 1];
      SubsequenceOfSlice(s[1..], 0, j - 1);
    } else {
      var u := s[1..];
      assert s[i..j] == u[i - 1..j - 1] by {
        assert forall k :: 0 <= k < j - i ==> s[i..j][k] == s[i + k] == u[i - 1 + k] == u[i - 1..j - 1][k];
      }
      SubsequenceOfSlice(u, i - 1, j - 1);
    }
  }

  lemma {:induction false} SubsequenceTransitive<T>(a: seq<T>, b: seq<T>, c: seq<T>)
    requires IsSubsequence(a, b) && IsSubsequence(b, c)
    ensures IsSubsequence(a, c)
    decreases |c|
  {
    if a == [] {
    } else if IsSubsequence(b, c[1..]) {
      SubsequenceTransitive(a, b, c[1..]);
    } else if IsSubsequence(a, b[1..]) {
      SubsequenceTransitive(a, b[1..], c[1..]);
    } else {
      SubsequenceTransitive(a[1..], b[1..], c[1..]);
    }
  }

  // ---------------------------------------------------------------- strip

  /** `s.lstrip()` */
  function LStrip(s: string): (r: string)
    ensures |r| <= |s| && r == s[|s| - |r|..]
    ensures forall k :: 0 <= k < |s| - |r| ==> IsSpace(s[k])
    ensures r == [] || !IsSpace(r[0])
  {
    if s != [] && IsSpace(s[0]) then LStrip(s[1..]) else s
  }

  /** `s.rstrip()` */
  function RStrip(s: string): (r: string)
    ensures |r| <= |s| && r == s[..|r|]
    ensures forall k :: |r| <= k < |s| ==> IsSpace(s[k])
    ensures r == [] || !IsSpace(r[|r| - 1])
  {
    if s != [] && IsSpace(s[|s| - 1]) then RStrip(s[..|s| - 1]) else s
  }

  /** `r` is `s[i..]` cut short, with only whitespace around it in `s`. */
  predicate StrippedAt(s: string, r: string, i: int) {
    && 0 <= i <= |s| - |r| && r == s[i..i + |r|]
    && (forall k :: 0 <= k < i ==> IsSpace(s[k]))
    && (forall k :: i + |r| <= k < |s| ==> IsSpace(s[k]))
  }

  /**
   * Whitespace removed from the front of `s` leaves `l`, and from the back of `l`
   * leaves `r`: `r` is the slice of `s` after the removed front.
   */
  lemma StrippedOf(s: string, l: string, r: string)
    requires |l| <= |s| && l == s[|s| - |l|..]
    requires forall k :: 0 <= k < |s| - |l| ==> IsSpace(s[k])
    requires |r| <= |l| && r == l[..|r|]
    requires forall k :: |r| <= k < |l| ==> IsSpace(l[k])
    ensures StrippedAt(s, r, |s| - |l|)
  {
    var i := |s| - |l|;
    forall k | i + |r| <= k < |s|
      ensures IsSpace(s[k])
    {
      assert s[k] == l[k - i];
    }
  }

  lemma StrippedSubsequence(s: string, r: string, i: int)
    requires StrippedAt(s, r, i)
    ensures IsSubsequence(r, s)
  {
    SubsequenceOfSlice(s, i, i + |r|);
  }

  /** A prefix of a string that does not start with whitespace, itself not ending in whitespace, has neither end blank. */
  lemma PrefixEnds(l: string, r: string)
    requires l == [] || !IsSpace(l[0])
    requires |r| <= |l| && r == l[..|r|]
    requires r == [] || !IsSpace(r[|r| - 1])
    ensures r == [] || (!IsSpace(r[0]) && !IsSpace(r[|r| - 1]))
  {
    if r != [] {
      assert r[0] == l[0];
    }
  }

  /**
   * What `lstrip` leaves (`l`) and what `rstrip` then leaves (`r`) make `r` the
   * stripped slice of `s`: no whitespace at either end, and a subsequence of `s`.
   */
  lemma StripOf(s: string, l: string, r: string)
    requires |l| <= |s| && l == s[|s| - |l|..]
    requires forall k :: 0 <= k < |s| - |l| ==> IsSpace(s[k])
    requires l == [] || !IsSpace(l[0])
    requires |r| <= |l| && r == l[..|r|]
    requires forall k :: |r| <= k < |l| ==> IsSpace(l[k])
    requires r == [] || !IsSpace(r[|r| - 1])
    ensures StrippedAt(s, r, |s| - |l|)
    ensures IsSubsequence(r, s) && (r == [] || (!IsSpace(r[0]) && !IsSpace(r[|r| - 1])))
  {
    StrippedOf(s, l, r);
    StrippedSubsequence(s, r, |s| - |l|);
    PrefixEnds(l, r);
  }

  /**
   * `s.strip()`: the slice `s[i..i+|r|]` left after removing the whitespace on both
   * ends; it neither begins nor ends with whitespace.
   */
  function Strip(s: string): (r: string)
    ensures exists i :: StrippedAt(s, r, i)
    ensures r == [] || (!IsSpace(r[0]) && !IsSpace(r[|r| - 1]))
    ensures IsSubsequence(r, s)
  {
    var l := LStrip(s);
    StripOf(s, l, RStrip(l));
    RStrip(l)
  }

  /** Stripping a string that does not begin or end with whitespace changes nothing. */
  lemma StripUnchanged(s: string)
    requires s == [] || (!IsSpace(s[0]) && !IsSpace(s[|s| - 1]))
    ensures Strip(s) == s
  {
    assert LStrip(s) == s;
  }

  // ---------------------------------------------------------------- replace

  /** The number of times `c` occurs in `s`: `s.count(c)`. */
  function Occurrences(s: string, c: char): nat {
    if s == [] then 0 else (if s[0] == c then 1 else 0) + Occurrences(s[1..], c)
  }

  /** `s.replace(c, '')` for a single character `c`: exactly the occurrences of `c` go. */
  function RemoveChar(s: string, c: char): (r: string)
    ensures c !in r
    ensures IsSubsequence(r, s)
    ensures |r| == |s| - Occurrences(s, c)
    ensures c !in s ==> r == s
  {
    if s == [] then []
    else
      assert s == [s[0]] + s[1..];
      if s[0] == c then RemoveChar(s[1..], c)
      else
        var r := [s[0]] + RemoveChar(s[1..], c);
        assert r[0] == s[0] && r[1..] == RemoveChar(s[1..], c);
        r
  }

  lemma {:induction false} RemoveCharKeepsAbsent(s: string, c: char, d: char)
    requires d !in s
    ensures d !in RemoveChar(s, c)
  {
    if s != [] {
      RemoveCharKeepsAbsent(s[1..], c, d);
    }
  }

  // ---------------------------------------------------------------- split

  /** The non-whitespace characters of `s`, in order. */
  function NonSpace(s: string): string {
    if s == [] then [] else (if IsSpace(s[0]) then [] else [s[0]]) + NonSpace(s[1..])
  }

  lemma {:induction false} NonSpaceAppend(a: string, b: string)
    ensures NonSpace(a + b) == NonSpace(a) + NonSpace(b)
  {
    if a == [] {
      assert a + b == b;
    } else {
      var x := if IsSpace(a[0]) then [] else [a[0]];
      assert (a + b)[0] == a[0];
      assert (a + b)[1..] == a[1..] + b;
      NonSpaceAppend(a[1..], b);
      assert NonSpace(a + b) == x + NonSpace(a[1..] + b);
      assert x + (NonSpace(a[1..]) + NonSpace(b)) == (x + NonSpace(a[1..])) + NonSpace(b);
    }
  }

  lemma {:induction false} NonSpaceOfSpaces(s: string)
    requires forall k :: 0 <= k < |s| ==> IsSpace(s[k])
    ensures NonSpace(s) == []
  {
    if s != [] {
      NonSpaceOfSpaces(s[1..]);
    }
  }

  lemma {:induction false} NonSpaceOfWord(s: string)
    requires forall k :: 0 <= k < |s| ==> !IsSpace(s[k])
    ensures NonSpace(s) == s
  {
    if s != [] {
      NonSpaceOfWord(s[1..]);
    }
  }

  /** Leading whitespace contributes nothing. */
  lemma NonSpaceOfLStrip(s: string)
    ensures NonSpace(s) == NonSpace(LStrip(s))
  {
    var t := LStrip(s);
    var lead := s[..|s| - |t|];
    assert forall k :: 0 <= k < |lead| ==> IsSpace(lead[k]);
    NonSpaceOfSpaces(lead);
    assert s == lead + t;
    NonSpaceAppend(lead, t);
  }

  /** A string's non-whitespace is its first word followed by the non-whitespace after it. */
  lemma NonSpaceOfWordThenRest(t: string, w: string)
    requires w == TakeWord(t)
    ensures NonSpace(t) == w + NonSpace(t[|w|..])
  {
    var tail := t[|w|..];
    assert t == w + tail;
    NonSpaceAppend(w, tail);
    NonSpaceOfWord(w);
  }

  /** The non-whitespace of `s` is its first word `w` followed by the non-whitespace after it. */
  lemma NonSpaceOfFirstWord(s: string, t: string, w: string)
    requires t == LStrip(s) && w == TakeWord(t)
    ensures NonSpace(s) == w + NonSpace(t[|w|..])
  {
    NonSpaceOfLStrip(s);
    NonSpaceOfWordThenRest(t, w);
  }

  /** A token of `split()`: non-empty and free of whitespace. */
  predicate IsToken(t: string) {
    t != [] && forall k :: 0 <= k < |t| ==> !IsSpace(t[k])
  }

  /** The longest prefix of `s` without whitespace. */
  function TakeWord(s: string): (r: string)
    ensures |r| <= |s| && r == s[..|r|]
    ensures forall k :: 0 <= k < |r| ==> !IsSpace(r[k])
    ensures |r| < |s| ==> IsSpace(s[|r|])
  {
    if s == [] || IsSpace(s[0]) then []
    else
      var w := TakeWord(s[1..]);
      assert s[..1 + |w|] == [s[0]] + w;
      [s[0]] + w
  }

  function Concat(ts: seq<string>): string {
    if ts == [] then [] else ts[0] + Concat(ts[1..])
  }

  /** After leading whitespace, a non-blank string starts with a token, and what follows it is shorter. */
  lemma FirstWordIsToken(s: string)
    requires LStrip(s) != []
    ensures var t := LStrip(s); var w := TakeWord(t);
      IsToken(w) && |t| - |w| < |s|
  {
  }

  /** Putting a token in front of a list of tokens. */
  lemma TokenCons(w: string, rest: seq<string>)
    requires IsToken(w) && forall i :: 0 <= i < |rest| ==> IsToken(rest[i])
    ensures forall i :: 0 <= i < |[w] + rest| ==> IsToken(([w] + rest)[i])
    ensures Concat([w] + rest) == w + Concat(rest)
  {
    assert ([w] + rest)[1..] == rest;
  }

  /**
   * `s.split()` with no separator, which cuts `s` at its runs of whitespace. The
   * contract gives: every element is a token, together they spell the
   * non-whitespace of `s`, and the first is the maximal leading run of
   * non-whitespace (the only element the callers read).
   */
  function Split(s: string): (r: seq<string>)
    ensures forall i :: 0 <= i < |r| ==> IsToken(r[i])
    ensures Concat(r) == NonSpace(s)
    ensures r != [] ==> r[0] == TakeWord(LStrip(s))
    decreases |s|
  {
    var t := LStrip(s);
    if t == [] then
      NonSpaceOfSpaces(s);
      []
    else
      var w := TakeWord(t);
      FirstWordIsToken(s);
      var rest := Split(t[|w|..]);
      NonSpaceOfFirstWord(s, t, w);
      TokenCons(w, rest);
      [w] + rest
  }

  /** A string without non-whitespace has no tokens, and vice versa. */
  lemma SplitEmpty(s: string)
    ensures Split(s) == [] <==> NonSpace(s) == []
  {
    var r := Split(s);
    if r != [] {
      assert IsToken(r[0]);
      assert Concat(r) == r[0] + Concat(r[1..]);
    }
  }

  /** `w` is the first run of non-whitespace of `s`, at `i`: only whitespace before it, whitespace or the end after it. */
  predicate LeadingRunAt(s: string, w: string, i: int) {
    && 0 <= i && i + |w| <= |s| && s[i..i + |w|] == w
    && (forall k :: 0 <= k < i ==> IsSpace(s[k]))
    && (i + |w| == |s| || IsSpace(s[i + |w|]))
  }

  /**
   * The first element of `split()` is maximal: it is the whole first run of
   * non-whitespace, preceded only by whitespace and followed by whitespace or the end.
   */
  lemma SplitFirstToken(s: string)
    ensures var r := Split(s); r != [] ==> IsToken(r[0]) && exists i :: LeadingRunAt(s, r[0], i)
  {
    var r := Split(s);
    if r != [] {
      var t := LStrip(s);
      RunAfterSpaces(s, t, TakeWord(t));
    }
  }

  lemma RunAfterSpaces(s: string, t: string, w: string)
    requires |t| <= |s| && t == s[|s| - |t|..]
    requires forall k :: 0 <= k < |s| - |t| ==> IsSpace(s[k])
    requires |w| <= |t| && w == t[..|w|]
    requires |w| < |t| ==> IsSpace(t[|w|])
    ensures LeadingRunAt(s, w, |s| - |t|)
  {
    var i := |s| - |t|;
    assert s[i..i + |w|] == t[..|w|];
    if |w| < |t| {
      assert s[i + |w|] == t[|w|];
    }
  }

  // ---------------------------------------------------------------- case and search

  /** `c.lower()` for the ASCII letters. */
  function LowerChar(c: char): char {
    if 'A' <= c <= 'Z' then (c as int + 32) as char else c
  }

  /** `s.lower()` */
  function Lower(s: string): (r: string)
    ensures |r| == |s| && forall k :: 0 <= k < |s| ==> r[k] == LowerChar(s[k])
  {
    if s == [] then [] else [LowerChar(s[0])] + Lower(s[1..])
  }

  lemma LowerIdempotent(s: string)
    ensures Lower(Lower(s)) == Lower(s)
  {
  }

  /** `s.startswith(p)` */
  predicate StartsWith(s: string, p: string) {
    |p| <= |s| && s[..|p|] == p
  }

  /** `t in s`: `t` occurs as a contiguous piece of `s`. */
  predicate Contains(s: string, t: string)
    decreases |s|
  {
    StartsWith(s, t) || (s != [] && Contains(s[1..], t))
  }

  /** `t` occurs in `s` starting at index `i`. */
  predicate OccursAt(s: string, t: string, i: int) {
    0 <= i <= |s| - |t| && s[i..i + |t|] == t
  }

  /** `Contains` agrees with the positional definition of a substring. */
  lemma {:induction false} ContainsAt(s: string, t: string)
    ensures Contains(s, t) <==> exists i :: OccursAt(s, t, i)
  {
    if s == [] {
      if exists i :: OccursAt(s, t, i) {
        var i :| OccursAt(s, t, i);
        assert t == [];
        assert StartsWith(s, t);
      }
      if Contains(s, t) {
        assert OccursAt(s, t, 0);
      }
    } else {
      ContainsAt(s[1..], t);
      if Contains(s[1..], t) {
        var i :| OccursAt(s[1..], t, i);
        assert s[i + 1..i + 1 + |t|] == s[1..][i..i + |t|];
        assert OccursAt(s, t, i + 1);
      }
      if StartsWith(s, t) {
        assert OccursAt(s, t, 0);
      }
      if exists i :: OccursAt(s, t, i) {
        var i :| OccursAt(s, t, i);
        if i == 0 {
          assert s[..|t|] == s[0..0 + |t|];
          assert StartsWith(s, t);
        } else {
          assert s[1..][i - 1..i - 1 + |t|] == s[i..i + |t|];
          assert OccursAt(s[1..], t, i - 1);
        }
      }
    }
  }

  /** A string lacking some character of `t` cannot contain `t`. */
  lemma MissingCharNotContained(s: string, t: string, c: char)
    requires c in t && c !in s
    ensures !Contains(s, t)
  {
    ContainsAt(s, t);
  }

  // ---------------------------------------------------------------- numbers

  predicate IsDigit(c: char) {
    '0' <= c <= '9'
  }

  function DigitChar(d: nat): (c: char)
    requires d < 10
  {
    ('0' as int + d) as char
  }

  /** The value of a string of decimal digits. */
  function DigitsValue(s: string): nat
    requires forall k :: 0 <= k < |s| ==> IsDigit(s[k])
  {
    if s == [] then 0
    else
      assert IsDigit(s[|s| - 1]);
      DigitsValue(s[..|s| - 1]) * 10 + (s[|s| - 1] as int - '0' as int)
  }

  function Pow10(w: nat): (p: nat)
    ensures p > 0
  {
    if w == 0 then 1 else 10 * Pow10(w - 1)
  }

  /** `str(n)` for a natural number: digits without leading zeros that denote `n`. */
  function NatToString(n: nat): (r: string)
    ensures r != [] && forall k :: 0 <= k < |r| ==> IsDigit(r[k])
    ensures DigitsValue(r) == n
    ensures r[0] == '0' ==> r == "0"
    decreases n
  {
    if n < 10 then [DigitChar(n)]
    else
      var r := NatToString(n / 10) + [DigitChar(n % 10)];
      assert r[..|r| - 1] == NatToString(n / 10);
      r
  }

  /** `str(n)` for any integer. */
  function IntToString(n: int): (r: string)
    ensures r != [] && IsDigit(r[|r| - 1])
    ensures n < 0 <==> r[0] == '-'
  {
    if n < 0 then "-" + NatToString(-n) else NatToString(n)
  }

  /** The `w` lowest decimal digits of `n`, zero-padded: `%0wd` when `n < 10^w`. */
  function FixedDigits(n: nat, w: nat): (r: string)
    ensures |r| == w && forall k :: 0 <= k < w ==> IsDigit(r[k])
    ensures n < Pow10(w) ==> DigitsValue(r) == n
  {
    if w == 0 then []
    else
      var r := FixedDigits(n / 10, w - 1) + [DigitChar(n % 10)];
      assert r[..|r| - 1] == FixedDigits(n / 10, w - 1);
      r
  }
}
