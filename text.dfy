/**
 * String operations of Python's `str` that the core relies on: prefix tests,
 * substring search (`in`), `replace`, `split`/`join`, `int()`/`str()` on
 * decimal integers, ordering, and `lower()`.
 */
module Text {
  import opened Wrappers
  import opened Sequences

  /** `s.startswith(p)` */
  predicate StartsWith(s: string, p: string) {
    |p| <= |s| && s[..|p|] == p
  }

  /** `needle` occurs in `hay` starting at index `i`. */
  predicate OccursAt(hay: string, needle: string, i: int) {
    0 <= i && i + |needle| <= |hay| && hay[i..i + |needle|] == needle
  }

  /** `needle in hay`, scanning from the left. */
  predicate Contains(hay: string, needle: string)
    decreases |hay|
  {
    StartsWith(hay, needle) || (|hay| > 0 && Contains(hay[1..], needle))
  }

  lemma {:induction false} ContainsIffOccurs(hay: string, needle: string)
    ensures Contains(hay, needle) <==> exists i :: OccursAt(hay, needle, i)
    decreases |hay|
  {
    if StartsWith(hay, needle) {
      assert OccursAt(hay, needle, 0);
    } else if |hay| == 0 {
    } else {
      ContainsIffOccurs(hay[1..], needle);
      if Contains(hay[1..], needle) {
        var i :| OccursAt(hay[1..], needle, i);
        assert hay[i + 1..i + 1 + |needle|] == hay[1..][i..i + |needle|];
        assert OccursAt(hay, needle, i + 1);
      } else {
        forall i | OccursAt(hay, needle, i) ensures i > 0 && OccursAt(hay[1..], needle, i - 1) {
          assert hay[1..][i - 1..i - 1 + |needle|] == hay[i..i + |needle|];
        }
      }
    }
  }

  /** `lower()`, seen as a character-by-character map `lower` (abstract). */
  function LowerStr(lower: char -> char, s: string): (r: string)
    ensures |r| == |s| && forall i :: 0 <= i < |s| ==> r[i] == lower(s[i])
  {
    seq(|s|, i requires 0 <= i < |s| => lower(s[i]))
  }

  /** A lowered string contains a character only if some character of the input lowers to it. */
  lemma {:induction false} LoweredCharOrigin(lower: char -> char, s: string, c: char)
    requires c in LowerStr(lower, s)
    ensures exists x :: x in s && lower(x) == c
  {
    var r := LowerStr(lower, s);
    var i :| 0 <= i < |r| && r[i] == c;
    assert s[i] in s && lower(s[i]) == c;
  }

  /** `s.replace(pat, rep)`: every non-overlapping occurrence, left to right. */
  function ReplaceAll(s: string, pat: string, rep: string): string
    requires pat != ""
    decreases |s|
  {
    if |s| < |pat| then s
    else if s[..|pat|] == pat then rep + ReplaceAll(s[|pat|..], pat, rep)
    else [s[0]] + ReplaceAll(s[1..], pat, rep)
  }

  /** Without an occurrence of the pattern, `replace` returns its input. */
  lemma {:induction false} ReplaceAllAbsent(s: string, pat: string, rep: string)
    requires pat != "" && !Contains(s, pat)
    ensures ReplaceAll(s, pat, rep) == s
    decreases |s|
  {
    if |s| >= |pat| {
      assert s[..|pat|] != pat;
      ReplaceAllAbsent(s[1..], pat, rep);
      assert [s[0]] + s[1..] == s;
    }
  }

  /** A prefix `p` in which no occurrence of the pattern starts is copied unchanged. */
  lemma {:induction false} ReplaceAllSkip(p: string, s: string, pat: string, rep: string)
    requires pat != ""
    requires forall i :: 0 <= i < |p| ==> !StartsWith(p[i..] + s, pat)
    ensures ReplaceAll(p + s, pat, rep) == p + ReplaceAll(s, pat, rep)
    decreases |p|
  {
    if p != [] {
      assert p[0..] + s == p + s;
      assert !StartsWith(p + s, pat);
      forall i | 0 <= i < |p[1..]| ensures !StartsWith(p[1..][i..] + s, pat) {
        assert p[1..][i..] == p[i + 1..];
      }
      ReplaceAllSkip(p[1..], s, pat, rep);
      assert (p + s)[1..] == p[1..] + s;
      if |p + s| >= |pat| {
        assert (p + s)[..|pat|] != pat;
        assert ReplaceAll(p + s, pat, rep) == [(p + s)[0]] + ReplaceAll((p + s)[1..], pat, rep);
        assert [p[0]] + (p[1..] + ReplaceAll(s, pat, rep)) == p + ReplaceAll(s, pat, rep);
      } else {
        assert ReplaceAll(s, pat, rep) == s;
      }
    } else {
      assert p + s == s;
    }
  }

  /**
   * No position of `p` from `i` on begins with the first two characters of
   * `pat` (at the last position, with its first character).
   */
  predicate NoPairStartFrom(p: string, pat: string, i: nat)
    requires |pat| >= 2
    decreases |p| - i
  {
    i >= |p| || ((p[i] != pat[0] || (i + 1 < |p| && p[i + 1] != pat[1])) && NoPairStartFrom(p, pat, i + 1))
  }

  /** A prefix none of whose positions begins the pattern's first two characters holds no start of it. */
  lemma {:induction false} NoStartInPrefix(p: string, s: string, pat: string, from: nat)
    requires |pat| >= 2 && NoPairStartFrom(p, pat, from)
    ensures forall i :: from <= i < |p| ==> !StartsWith(p[i..] + s, pat)
    decreases |p| - from
  {
    if from < |p| {
      NoStartInPrefix(p, s, pat, from + 1);
      var t := p[from..] + s;
      assert t[0] == p[from];
      assert from + 1 < |p| ==> t[1] == p[from + 1];
      if |pat| <= |t| {
        assert t[..|pat|][0] == t[0] && t[..|pat|][1] == t[1];
      }
    }
  }

  /** `s.split(sep)` for a one-character separator. */
  function Split(s: string, sep: char): (parts: seq<string>)
    ensures |parts| >= 1
    ensures forall k :: 0 <= k < |parts| ==> sep !in parts[k]
    decreases |s|
  {
    if sep !in s then [s]
    else
      var i := IndexOf(s, sep);
      [s[..i]] + Split(s[i + 1..], sep)
  }

  /** `sep.join(parts)` */
  function Join(sep: char, parts: seq<string>): string
  {
    if |parts| == 0 then ""
    else if |parts| == 1 then parts[0]
    else parts[0] + [sep] + Join(sep, parts[1..])
  }

  /** Splitting and joining again on the same separator gives the input back. */
  lemma {:induction false} JoinSplit(s: string, sep: char)
    ensures Join(sep, Split(s, sep)) == s
    decreases |s|
  {
    if sep in s {
      var i := IndexOf(s, sep);
      JoinSplit(s[i + 1..], sep);
      var rest := Split(s[i + 1..], sep);
      assert Split(s, sep) == [s[..i]] + rest;
      assert ([s[..i]] + rest)[1..] == rest;
      assert s == s[..i] + [sep] + s[i + 1..];
    }
  }

  /** The split of `head + [sep] + tail`, where `head` holds no separator. */
  lemma SplitAtFirst(head: string, tail: string, sep: char)
    requires sep !in head
    ensures Split(head + [sep] + tail, sep) == [head] + Split(tail, sep)
  {
    var s := head + [sep] + tail;
    assert s[|head|] == sep;
    var i := IndexOf(s, sep);
    assert s[..i] == head && s[i + 1..] == tail;
  }

  // ---- decimal integers: `int(s)` and `str(n)` ----

  predicate IsDigit(c: char) { '0' <= c <= '9' }

  predicate AllDigits(s: string) { forall i :: 0 <= i < |s| ==> IsDigit(s[i]) }

  function DigitChar(d: nat): (c: char)
    requires d < 10
    ensures IsDigit(c)
  {
    (48 + d) as char
  }

  /** `str(n)` for n >= 0 */
  function NatToString(n: nat): (s: string)
    ensures |s| >= 1 && AllDigits(s)
  {
    if n < 10 then [DigitChar(n)] else NatToString(n / 10) + [DigitChar(n % 10)]
  }

  /** The value of a string of decimal digits, leading zeros allowed. */
  function DigitsValue(s: string): nat
    requires AllDigits(s)
  {
    if s == [] then 0 else 10 * DigitsValue(s[..|s| - 1]) + ((s[|s| - 1] as int) - 48)
  }

  /** `str(n)` */
  function IntToString(n: int): string {
    if n < 0 then "-" + NatToString(-n) else NatToString(n)
  }

  /**
   * `int(s)`, restricted to an optional sign followed by one or more ASCII digits;
   * `None` stands for the ValueError Python raises on anything else.
   */
  function ParseInt(s: string): (r: Option<int>)
    ensures r.Some? ==> |s| >= 1
  {
    if |s| >= 2 && (s[0] == '-' || s[0] == '+') && AllDigits(s[1..]) then
      Some(if s[0] == '-' then 0 - DigitsValue(s[1..]) else DigitsValue(s[1..]))
    else if |s| >= 1 && AllDigits(s) then Some(DigitsValue(s))
    else None
  }

  lemma {:induction false} DigitsOfNat(n: nat)
    ensures DigitsValue(NatToString(n)) == n
  {
    if n >= 10 {
      DigitsOfNat(n / 10);
      var s := NatToString(n / 10) + [DigitChar(n % 10)];
      assert s[..|s| - 1] == NatToString(n / 10);
    }
  }

  /** `int(str(n)) == n` */
  lemma IntRoundTrip(n: int)
    ensures ParseInt(IntToString(n)) == Some(n)
  {
    if n < 0 {
      DigitsOfNat(-n);
      assert IntToString(n)[1..] == NatToString(-n);
    } else {
      DigitsOfNat(n);
      var s := NatToString(n);
      assert s[0] != '-' && s[0] != '+' by { assert IsDigit(s[0]); }
    }
  }

  // ---- Python's ordering of strings (by code point, lexicographic) ----

  /** `a[i:] < b[i:]` */
  predicate LexLessFrom(a: string, b: string, i: nat)
    decreases |a| - i
  {
    i < |b| && (i >= |a| || a[i] < b[i] || (a[i] == b[i] && LexLessFrom(a, b, i + 1)))
  }

  /** `a < b` */
  predicate LexLess(a: string, b: string) {
    LexLessFrom(a, b, 0)
  }

  lemma {:induction false} LexLessFromIrreflexive(a: string, i: nat)
    ensures !LexLessFrom(a, a, i)
    decreases |a| - i
  {
    if i < |a| { LexLessFromIrreflexive(a, i + 1); }
  }

  lemma {:induction false} LexLessFromTransitive(a: string, b: string, c: string, i: nat)
    requires LexLessFrom(a, b, i) && LexLessFrom(b, c, i)
    ensures LexLessFrom(a, c, i)
    decreases |a| - i
  {
    if i < |a| && a[i] == b[i] && b[i] == c[i] {
      LexLessFromTransitive(a, b, c, i + 1);
    }
  }

  /** Each element strictly below the next one. */
  predicate StrictlyAscending(s: seq<string>) {
    forall i :: 0 <= i < |s| - 1 ==> LexLess(s[i], s[i + 1])
  }

  /** Strict ascent between neighbours orders every pair, so the elements are distinct. */
  lemma {:induction false} AscendingPairs(s: seq<string>, i: int, j: int)
    requires StrictlyAscending(s) && 0 <= i < j < |s|
    ensures LexLess(s[i], s[j]) && s[i] != s[j]
    decreases j - i
  {
    if j == i + 1 {
    } else {
      AscendingPairs(s, i + 1, j);
      LexLessFromTransitive(s[i], s[i + 1], s[j], 0);
    }
    LexLessFromIrreflexive(s[i], 0);
  }
}
