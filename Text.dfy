/**
 * The JavaScript string operations the dashboard uses, on `seq<char>`:
 * ASCII `toLowerCase`, `includes`, `split(c)[0]`, a string-pattern
 * `replace`, and decimal rendering of a non-negative integer in a template
 * literal.
 */
module Text {

  predicate IsDigit(c: char) {
    '0' <= c <= '9'
  }

  predicate AllDigits(s: string) {
    forall i :: 0 <= i < |s| ==> IsDigit(s[i])
  }

  /** `toLowerCase` on one character, ASCII letters only. */
  function LowerChar(c: char): char {
    if 'A' <= c <= 'Z' then (c as int + 32) as char else c
  }

  function Lower(s: string): (r: string)
    ensures |r| == |s|
    ensures forall i :: 0 <= i < |s| ==> r[i] == LowerChar(s[i])
  {
    if s == [] then [] else [LowerChar(s[0])] + Lower(s[1..])
  }

  /** `hay.includes(needle)`: `needle` occurs somewhere in `hay`. */
  predicate Contains(hay: string, needle: string) {
    needle <= hay || (hay != [] && Contains(hay[1..], needle))
  }

  /** `needle` occurs in `hay` starting at index `i`. */
  ghost predicate OccursAt(hay: string, needle: string, i: int) {
    0 <= i <= |hay| - |needle| && hay[i..i + |needle|] == needle
  }

  /** An occurrence at any index is found by `Contains`. */
  lemma {:induction false} OccursThenContains(hay: string, needle: string, i: int)
    requires OccursAt(hay, needle, i)
    ensures Contains(hay, needle)
  {
    if i == 0 {
      assert hay[..|needle|] == needle;
    } else {
      assert hay[1..][i - 1..i - 1 + |needle|] == hay[i..i + |needle|];
      OccursThenContains(hay[1..], needle, i - 1);
    }
  }

  /** `Contains` only succeeds on an actual occurrence. */
  lemma {:induction false} ContainsThenOccurs(hay: string, needle: string) returns (i: nat)
    requires Contains(hay, needle)
    ensures OccursAt(hay, needle, i)
  {
    if needle <= hay {
      i := 0;
      assert hay[0..|needle|] == needle;
    } else {
      var j := ContainsThenOccurs(hay[1..], needle);
      i := j + 1;
      assert hay[1..][j..j + |needle|] == hay[j + 1..j + 1 + |needle|];
    }
  }

  /** `Contains` agrees with the plain definition of a substring occurrence. */
  lemma ContainsIffOccurs(hay: string, needle: string)
    ensures Contains(hay, needle) <==> exists i :: OccursAt(hay, needle, i)
  {
    if Contains(hay, needle) {
      var i := ContainsThenOccurs(hay, needle);
    }
    if exists i :: OccursAt(hay, needle, i) {
      var i :| OccursAt(hay, needle, i);
      OccursThenContains(hay, needle, i);
    }
  }

  lemma {:induction false} PrefixLower(p: string, s: string)
    requires p <= s
    ensures Lower(p) <= Lower(s)
  {
    if p != [] {
      PrefixLower(p[1..], s[1..]);
    }
  }

  /** Lower-casing both sides keeps every occurrence. */
  lemma {:induction false} LowerKeepsContains(hay: string, needle: string)
    requires Contains(hay, needle)
    ensures Contains(Lower(hay), Lower(needle))
  {
    if needle <= hay {
      PrefixLower(needle, hay);
    } else {
      LowerKeepsContains(hay[1..], needle);
      assert Lower(hay)[1..] == Lower(hay[1..]);
    }
  }

  lemma {:induction false} ContainsInLonger(m: string, h: string, n: string)
    requires m <= h && Contains(m, n)
    ensures Contains(h, n)
  {
    if !(n <= m) {
      ContainsInLonger(m[1..], h[1..], n);
    }
  }

  /** A substring of a substring is a substring. */
  lemma {:induction false} ContainsTransitive(h: string, m: string, n: string)
    requires Contains(h, m) && Contains(m, n)
    ensures Contains(h, n)
  {
    if m <= h {
      ContainsInLonger(m, h, n);
    } else {
      ContainsTransitive(h[1..], m, n);
    }
  }

  /** `s.split(c)[0]`: the text before the first `c`, or all of `s` when it has none. */
  function BeforeFirst(s: string, c: char): (r: string)
    ensures r <= s
    ensures c !in r
    ensures |r| == |s| || s[|r|] == c
  {
    if s == [] then []
    else if s[0] == c then []
    else [s[0]] + BeforeFirst(s[1..], c)
  }

  /** `s.indexOf(c)`, with `|s|` standing for "absent". */
  function FirstIndex(s: string, c: char): (i: nat)
    ensures i <= |s|
    ensures c !in s[..i]
    ensures i < |s| ==> s[i] == c
  {
    if s == [] then 0
    else if s[0] == c then 0
    else
      var j := FirstIndex(s[1..], c);
      assert s[..j + 1] == [s[0]] + s[1..][..j];
      j + 1
  }

  /** The first occurrence comes no later than any occurrence. */
  lemma {:induction false} FirstIndexAtMost(s: string, c: char, i: nat)
    requires i < |s| && s[i] == c
    ensures FirstIndex(s, c) <= i
  {
    if s[0] != c {
      FirstIndexAtMost(s[1..], c, i - 1);
    }
  }

  /** An occurrence with no earlier one is the first. */
  lemma {:induction false} FirstIndexIs(s: string, c: char, i: nat)
    requires i < |s| && s[i] == c && c !in s[..i]
    ensures FirstIndex(s, c) == i
  {
    if i > 0 {
      assert s[0] in s[..i];
      assert s[1..][..i - 1] == s[1..i];
      assert forall x :: x in s[1..i] ==> x in s[..i];
      FirstIndexIs(s[1..], c, i - 1);
    }
  }

  /** `s.replace(from, to)` with a one-character string pattern: only the first occurrence changes. */
  function ReplaceFirst(s: string, from: char, to: char): (r: string)
    ensures |r| == |s|
    ensures var i := FirstIndex(s, from);
      r == if i == |s| then s else s[..i] + [to] + s[i + 1..]
  {
    if s == [] then []
    else if s[0] == from then [to] + s[1..]
    else [s[0]] + ReplaceFirst(s[1..], from, to)
  }

  /** A string without the pattern character comes back unchanged. */
  lemma {:induction false} ReplaceFirstWithout(s: string, from: char, to: char)
    requires from !in s
    ensures ReplaceFirst(s, from, to) == s
  {
    if s != [] {
      ReplaceFirstWithout(s[1..], from, to);
    }
  }

  function DigitChar(d: nat): (c: char)
    requires d < 10
    ensures IsDigit(c)
  {
    ('0' as int + d) as char
  }

  /** `${n}` for a non-negative integer: its decimal digits. */
  function NatToDecimal(n: nat): (s: string)
    ensures |s| > 0 && AllDigits(s)
    ensures s[0] == '0' <==> n == 0
    ensures n == 0 ==> s == "0"
  {
    if n < 10 then [DigitChar(n)] else NatToDecimal(n / 10) + [DigitChar(n % 10)]
  }

  /** The number a string of decimal digits denotes. */
  function DecimalValue(s: string): nat
    requires AllDigits(s)
  {
    if s == [] then 0 else DecimalValue(s[..|s| - 1]) * 10 + (s[|s| - 1] as int - '0' as int)
  }

  lemma {:induction false} DecimalRoundTrip(n: nat)
    ensures DecimalValue(NatToDecimal(n)) == n
  {
    if n >= 10 {
      DecimalRoundTrip(n / 10);
      var s := NatToDecimal(n);
      assert s[..|s| - 1] == NatToDecimal(n / 10);
    }
  }

  /** The `${days}d left` label the expiry badges share. */
  function DaysLeftLabel(days: nat): string {
    NatToDecimal(days) + "d left"
  }

  /** Two day counts never share a `d left` label. */
  lemma DaysLeftLabelInjective(a: nat, b: nat)
    requires DaysLeftLabel(a) == DaysLeftLabel(b)
    ensures a == b
  {
    var la, lb := DaysLeftLabel(a), DaysLeftLabel(b);
    assert la[..|la| - 6] == NatToDecimal(a);
    assert lb[..|lb| - 6] == NatToDecimal(b);
    DecimalRoundTrip(a);
    DecimalRoundTrip(b);
  }

  /** A `d left` label starts with a digit, so it is never a word label. */
  lemma DaysLeftLabelIsNotWord(days: nat, word: string)
    requires word != [] && !IsDigit(word[0])
    ensures DaysLeftLabel(days) != word
  {
    assert DaysLeftLabel(days)[0] == NatToDecimal(days)[0];
  }
}
