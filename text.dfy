/**
 * String operations of Python's `str` (strip, lower, find, replace, split,
 * join, str(int)) and of the regular expressions the report pipeline uses,
 * over Dafny strings (sequences of Unicode scalar values, like Python's).
 */
module Text {
  import opened Wrappers

  /** The ASCII whitespace that `str.strip()` and the regex class `\s` match. */
  predicate IsSpace(c: char) {
    c == ' ' || c == '\t' || c == '\n' || c == '\r' || c == '\U{000B}' || c == '\U{000C}'
  }

  predicate AllSpace(s: string) {
    forall k :: 0 <= k < |s| ==> IsSpace(s[k])
  }

  predicate IsDigit(c: char) {
    '0' <= c <= '9'
  }

  predicate AllDigits(s: string) {
    forall k :: 0 <= k < |s| ==> IsDigit(s[k])
  }

  function StripLeft(s: string): (r: string)
    ensures |r| <= |s| && r == s[|s| - |r|..]
    ensures AllSpace(s[..|s| - |r|])
    ensures r == [] || !IsSpace(r[0])
  {
    if |s| > 0 && IsSpace(s[0]) then StripLeft(s[1..]) else s
  }

  function StripRight(s: string): (r: string)
    ensures |r| <= |s| && r == s[..|r|]
    ensures AllSpace(s[|r|..])
    ensures r == [] || !IsSpace(r[|r| - 1])
  {
    if |s| > 0 && IsSpace(s[|s| - 1]) then StripRight(s[..|s| - 1]) else s
  }

  /**
   * `s.strip()`: what is left after removing the whitespace at both ends; the
   * result neither starts nor ends with whitespace.
   */
  function Strip(s: string): (r: string)
    ensures |r| <= |s|
    ensures r == [] || (!IsSpace(r[0]) && !IsSpace(r[|r| - 1]))
  {
    StripRight(StripLeft(s))
  }

  /** The stripped text is the infix of `s` between two runs of whitespace. */
  lemma StripIsInfix(s: string)
    ensures exists i: nat :: i + |Strip(s)| <= |s| && Strip(s) == s[i..i + |Strip(s)|]
                        && AllSpace(s[..i]) && AllSpace(s[i + |Strip(s)|..])
  {
    var l := StripLeft(s);
    var r := StripRight(l);
    var i := |s| - |l|;
    assert r == s[i..i + |r|];
    assert s[i + |r|..] == l[|r|..];
  }

  /** Stripping is idempotent. */
  lemma StripIdempotent(s: string)
    ensures Strip(Strip(s)) == Strip(s)
  {
    var t := Strip(s);
    if t != [] {
      assert !IsSpace(t[0]) && !IsSpace(t[|t| - 1]);
      assert StripLeft(t) == t;
      assert StripRight(t) == t;
    }
  }

  /** A string made only of whitespace strips to the empty string. */
  lemma {:induction false} StripAllSpace(s: string)
    requires AllSpace(s)
    ensures Strip(s) == ""
  {
    StripLeftAllSpace(s);
  }

  lemma {:induction false} StripLeftAllSpace(s: string)
    requires AllSpace(s)
    ensures StripLeft(s) == ""
  {
    if |s| > 0 {
      StripLeftAllSpace(s[1..]);
    }
  }

  /**
   * One character of `str.lower()`: ASCII, Latin-1, the Latin Extended-A
   * letters of Vietnamese (Ă Đ Ĩ Ũ Ơ Ư) and the Vietnamese block
   * U+1EA0..U+1EF9, where capitals sit at even code points.
   */
  function LowerChar(c: char): char {
    if 'A' <= c <= 'Z' then (c as int + 32) as char
    else if '\U{00C0}' <= c <= '\U{00DE}' && c != '\U{00D7}' then (c as int + 32) as char
    else if c == '\U{0102}' || c == '\U{0110}' || c == '\U{0128}' || c == '\U{0168}' || c == '\U{01A0}' || c == '\U{01AF}'
    then (c as int + 1) as char
    else if '\U{1EA0}' <= c <= '\U{1EF9}' && (c as int) % 2 == 0 then (c as int + 1) as char
    else c
  }

  /** `s.lower()`, character by character. */
  function Lower(s: string): (r: string)
    ensures |r| == |s|
  {
    seq(|s|, k requires 0 <= k < |s| => LowerChar(s[k]))
  }

  lemma LowerCharIdempotent(c: char)
    ensures LowerChar(LowerChar(c)) == LowerChar(c)
  {
  }

  /** `p` occurs in `s` starting at index `i`. */
  predicate OccursAt(s: string, p: string, i: nat) {
    i + |p| <= |s| && s[i..i + |p|] == p
  }

  predicate StartsWith(s: string, p: string) {
    OccursAt(s, p, 0)
  }

  /** `s.endswith(p)`. */
  predicate EndsWith(s: string, p: string) {
    |p| <= |s| && OccursAt(s, p, |s| - |p|)
  }

  /**
   * `s.find(p, from)`: the first index at or after `from` where `p` occurs.
   */
  function IndexOf(s: string, p: string, from: nat): (r: Option<nat>)
    ensures r.Some? ==> from <= r.value && OccursAt(s, p, r.value)
    ensures r.Some? ==> forall j :: from <= j < r.value ==> !OccursAt(s, p, j)
    ensures r.None? ==> forall j :: from <= j ==> !OccursAt(s, p, j)
    decreases |s| - from
  {
    if from + |p| > |s| then None
    else if s[from..from + |p|] == p then Some(from)
    else IndexOf(s, p, from + 1)
  }

  /** Python's `p in s`. */
  predicate Contains(s: string, p: string) {
    IndexOf(s, p, 0).Some?
  }

  lemma ContainsIff(s: string, p: string)
    ensures Contains(s, p) <==> exists i: nat :: OccursAt(s, p, i)
  {
  }

  /** A string that occurs inside a prefix or a suffix also occurs in the whole. */
  lemma ContainsInfix(s: string, i: nat, j: nat, p: string)
    requires i <= j <= |s|
    requires Contains(s[i..j], p)
    ensures Contains(s, p)
  {
    var k := IndexOf(s[i..j], p, 0).value;
    assert s[i + k..i + k + |p|] == s[i..j][k..k + |p|];
    assert OccursAt(s, p, i + k);
  }

  /** Python's `s.replace(p, r)`: every non-overlapping occurrence, left to right. */
  function ReplaceAll(s: string, p: string, r: string): string
    requires |p| > 0
    decreases |s|
  {
    if |s| < |p| then s
    else if s[..|p|] == p then r + ReplaceAll(s[|p|..], p, r)
    else [s[0]] + ReplaceAll(s[1..], p, r)
  }

  /** Replacing a pattern that does not occur leaves the text unchanged. */
  lemma {:induction false} ReplaceAllAbsent(s: string, p: string, r: string)
    requires |p| > 0
    requires forall i: nat :: !OccursAt(s, p, i)
    ensures ReplaceAll(s, p, r) == s
  {
    if |s| >= |p| {
      assert !OccursAt(s, p, 0);
      SuffixKeepsNoOccurrence(s, p, 1);
      ReplaceAllAbsent(s[1..], p, r);
    }
  }

  /** No character of `r` appears in `q`. */
  predicate Disjoint(r: string, q: string) {
    forall k, m :: 0 <= k < |r| && 0 <= m < |q| ==> r[k] != q[m]
  }

  /**
   * A prefix of the replaced text is either the same prefix of the original
   * text or already holds a character of the replacement.
   */
  lemma {:induction false} ReplacedPrefix(t: string, p: string, r: string, j: nat)
    requires |p| > 0 && |r| > 0
    requires j <= |ReplaceAll(t, p, r)|
    ensures (j <= |t| && ReplaceAll(t, p, r)[..j] == t[..j])
         || (exists k, m :: 0 <= k < j && 0 <= m < |r| && ReplaceAll(t, p, r)[k] == r[m])
    decreases |t|
  {
    var out := ReplaceAll(t, p, r);
    if |t| < |p| || j == 0 {
    } else if t[..|p|] == p {
      assert out[0] == r[0];
    } else {
      var rest := ReplaceAll(t[1..], p, r);
      assert out == [t[0]] + rest;
      ReplacedPrefix(t[1..], p, r, j - 1);
      if j - 1 <= |t[1..]| && rest[..j - 1] == t[1..][..j - 1] {
        assert out[..j] == [t[0]] + rest[..j - 1];
        assert t[..j] == [t[0]] + t[1..][..j - 1];
      } else {
        var k, m :| 0 <= k < j - 1 && 0 <= m < |r| && rest[k] == r[m];
        assert out[k + 1] == rest[k];
      }
    }
  }

  /**
   * Replacing `p` by a non-empty text that shares no character with `q`
   * creates no new occurrence of `q`; in particular, when `q` is `p` itself,
   * no occurrence of `p` survives.
   */
  lemma {:induction false} ReplaceAllLeavesNo(t: string, p: string, r: string, q: string)
    requires |p| > 0 && |r| > 0 && |q| > 0
    requires Disjoint(r, q)
    requires q == p || forall i: nat :: !OccursAt(t, q, i)
    ensures forall i: nat :: !OccursAt(ReplaceAll(t, p, r), q, i)
    decreases |t|
  {
    if |t| < |p| {
    } else if t[..|p|] == p {
      if q != p {
        SuffixKeepsNoOccurrence(t, q, |p|);
      }
      ReplaceAllLeavesNo(t[|p|..], p, r, q);
      NoOccurrenceAfterReplacement(r, ReplaceAll(t[|p|..], p, r), q);
    } else {
      if q != p {
        SuffixKeepsNoOccurrence(t, q, 1);
      }
      ReplaceAllLeavesNo(t[1..], p, r, q);
      assert !OccursAt(t, q, 0) by {
        if q == p {
          assert t[..|p|] != p;
        }
      }
      NoOccurrenceAfterKeptChar(t, p, r, q);
    }
  }

  lemma NoOccurrenceAfterReplacement(r: string, rest: string, q: string)
    requires |q| > 0 && Disjoint(r, q)
    requires forall i: nat :: !OccursAt(rest, q, i)
    ensures forall i: nat :: !OccursAt(r + rest, q, i)
  {
    var out := r + rest;
    forall i: nat ensures !OccursAt(out, q, i) {
      if i < |r| {
        assert out[i] == r[i] && r[i] != q[0];
      } else if i + |q| <= |out| {
        assert out[i..i + |q|] == rest[i - |r|..i - |r| + |q|];
        assert !OccursAt(rest, q, i - |r|);
      }
    }
  }

  lemma NoOccurrenceAfterKeptChar(t: string, p: string, r: string, q: string)
    requires |p| > 0 && |r| > 0 && |q| > 0 && Disjoint(r, q)
    requires |t| >= |p| && t[..|p|] != p && !OccursAt(t, q, 0)
    requires forall i: nat :: !OccursAt(ReplaceAll(t[1..], p, r), q, i)
    ensures forall i: nat :: !OccursAt(ReplaceAll(t, p, r), q, i)
  {
    var rest := ReplaceAll(t[1..], p, r);
    var out := ReplaceAll(t, p, r);
    assert out == [t[0]] + rest;
    NoOccurrenceAtStart(t, p, r, q);
    forall i: nat ensures !OccursAt(out, q, i) {
      if i > 0 {
        NoOccurrenceAfterHead(t[0], rest, q, i);
      }
    }
  }

  /** Past the first character, an occurrence in `[c] + rest` is one in `rest`. */
  lemma NoOccurrenceAfterHead(c: char, rest: string, q: string, i: nat)
    requires 0 < i && !OccursAt(rest, q, i - 1)
    ensures !OccursAt([c] + rest, q, i)
  {
    var out := [c] + rest;
    if i + |q| <= |out| {
      assert out[i..i + |q|] == rest[i - 1..i - 1 + |q|];
    }
  }

  lemma NoOccurrenceAtStart(t: string, p: string, r: string, q: string)
    requires |p| > 0 && |r| > 0 && |q| > 0 && Disjoint(r, q)
    requires |t| >= |p| && t[..|p|] != p && !OccursAt(t, q, 0)
    ensures !OccursAt(ReplaceAll(t, p, r), q, 0)
  {
    var rest := ReplaceAll(t[1..], p, r);
    var out := ReplaceAll(t, p, r);
    assert out == [t[0]] + rest;
    if |q| <= |out| {
      ReplacedPrefix(t[1..], p, r, |q| - 1);
      if |q| - 1 <= |t[1..]| && rest[..|q| - 1] == t[1..][..|q| - 1] {
        assert out[..|q|] == [t[0]] + rest[..|q| - 1];
        assert t[..|q|] == [t[0]] + t[1..][..|q| - 1];
      } else {
        var k, m :| 0 <= k < |q| - 1 && 0 <= m < |r| && rest[k] == r[m];
        assert r[m] != q[k + 1];
        assert out[k + 1] == rest[k];
        assert out[k + 1] != q[k + 1];
      }
    }
  }

  /** A suffix of a text without `q` is without `q`. */
  lemma SuffixKeepsNoOccurrence(t: string, q: string, n: nat)
    requires n <= |t|
    requires forall i: nat :: !OccursAt(t, q, i)
    ensures forall i: nat :: !OccursAt(t[n..], q, i)
  {
    forall i: nat ensures !OccursAt(t[n..], q, i) {
      assert !OccursAt(t, q, n + i);
      if i + |q| <= |t[n..]| {
        assert t[n..][i..i + |q|] == t[n + i..n + i + |q|];
      }
    }
  }

  /** `s.replace(p, r, 1)`: only the first occurrence. */
  function ReplaceFirst(s: string, p: string, r: string): (out: string)
    ensures !Contains(s, p) ==> out == s
    ensures Contains(s, p) ==> exists i: nat :: OccursAt(s, p, i) && out == s[..i] + r + s[i + |p|..]
  {
    match IndexOf(s, p, 0)
    case None => s
    case Some(i) => s[..i] + r + s[i + |p|..]
  }

  /** One decimal digit. */
  function DigitChar(d: nat): (c: char)
    requires d < 10
    ensures IsDigit(c)
  {
    ('0' as int + d) as char
  }

  /** `str(n)` for a natural number: its decimal digits, most significant first. */
  function NatToString(n: nat): (s: string)
    ensures |s| > 0 && AllDigits(s)
    ensures n >= 10 ==> s[0] != '0'
  {
    if n < 10 then [DigitChar(n)]
    else NatToString(n / 10) + [DigitChar(n % 10)]
  }

  /** The value of a string of decimal digits. */
  function DigitsValue(s: string): nat
    requires AllDigits(s)
  {
    if s == [] then 0 else DigitsValue(s[..|s| - 1]) * 10 + (s[|s| - 1] as int - '0' as int)
  }

  /** `int(str(n)) == n`. */
  lemma {:induction false} NatToStringRoundTrip(n: nat)
    ensures DigitsValue(NatToString(n)) == n
  {
    var s := NatToString(n);
    if n >= 10 {
      NatToStringRoundTrip(n / 10);
      assert s[..|s| - 1] == NatToString(n / 10);
    }
  }

  /** `s.split(sep)` for a one-character separator. */
  function Split(s: string, sep: char): (parts: seq<string>)
    ensures |parts| > 0
    ensures forall k :: 0 <= k < |parts| ==> sep !in parts[k]
  {
    if sep !in s then [s]
    else
      var i := FirstChar(s, sep);
      [s[..i]] + Split(s[i + 1..], sep)
  }

  /** The index of the first `c` in `s`. */
  function FirstChar(s: string, c: char): (i: nat)
    requires c in s
    ensures i < |s| && s[i] == c && c !in s[..i]
  {
    if s[0] == c then 0 else 1 + FirstChar(s[1..], c)
  }

  /** `sep.join(parts)`. */
  function Join(parts: seq<string>, sep: string): string {
    if |parts| == 0 then ""
    else if |parts| == 1 then parts[0]
    else parts[0] + sep + Join(parts[1..], sep)
  }

  /** Joining what was split gives back the text. */
  lemma {:induction false} SplitJoin(s: string, sep: char)
    ensures Join(Split(s, sep), [sep]) == s
    decreases |s|
  {
    if sep in s {
      var i := FirstChar(s, sep);
      SplitJoin(s[i + 1..], sep);
      assert s == s[..i] + [sep] + s[i + 1..];
    }
  }
}
