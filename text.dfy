/** Python string operations the core relies on: substring search
    (`str.find`, the `in` operator) and the decimal rendering of a
    non-negative integer inside an f-string (`f"sink_{i}"`). */
module Text {

  /** `sub` occurs in `s` starting at position `i`. */
  predicate OccursAt(s: string, sub: string, i: int)
  {
    0 <= i && i + |sub| <= |s| && s[i..i + |sub|] == sub
  }

  /** `s.find(sub, start)`: the least position at or after `start` where
      `sub` occurs, or -1 when there is none. */
  function FindFrom(s: string, sub: string, start: nat): (r: int)
    requires start <= |s|
    ensures r == -1 || (start <= r && OccursAt(s, sub, r))
    ensures r == -1 ==> forall i :: start <= i ==> !OccursAt(s, sub, i)
    ensures r != -1 ==> forall i :: start <= i < r ==> !OccursAt(s, sub, i)
    decreases |s| - start
  {
    if start + |sub| > |s| then -1
    else if s[start..start + |sub|] == sub then start
    else FindFrom(s, sub, start + 1)
  }

  /** `s.find(sub)`. */
  function Find(s: string, sub: string): int
  {
    FindFrom(s, sub, 0)
  }

  /** `sub in s`, which Python defines as `s.find(sub) != -1`. */
  predicate Contains(s: string, sub: string)
  {
    Find(s, sub) != -1
  }

  /** The search agrees with the occurrence definition, in both directions. */
  lemma ContainsIff(s: string, sub: string)
    ensures Contains(s, sub) <==> exists i :: OccursAt(s, sub, i)
  {
    if Contains(s, sub) {
      assert OccursAt(s, sub, Find(s, sub));
    }
  }

  predicate IsDigit(c: char)
  {
    '0' <= c <= '9'
  }

  function DigitChar(d: nat): (c: char)
    requires d < 10
    ensures IsDigit(c) && c as int - '0' as int == d
  {
    ('0' as int + d) as char
  }

  /** `str(n)` / `f"{n}"` for a non-negative integer: decimal digits, no
      leading zero. */
  function NatToString(n: nat): (s: string)
    ensures |s| >= 1
    ensures forall k :: 0 <= k < |s| ==> IsDigit(s[k])
    ensures |s| > 1 ==> s[0] != '0'
    decreases n
  {
    if n < 10 then [DigitChar(n)] else NatToString(n / 10) + [DigitChar(n % 10)]
  }

  /** The number a string of decimal digits denotes (`int(s)`). */
  function DecimalValue(s: string): nat
    requires forall k :: 0 <= k < |s| ==> IsDigit(s[k])
  {
    if s == [] then 0
    else
      assert IsDigit(s[|s| - 1]);
      DecimalValue(s[..|s| - 1]) * 10 + (s[|s| - 1] as int - '0' as int)
  }

  /** Reading back the rendering gives the number: `int(str(n)) == n`. */
  lemma {:induction false} DecimalRoundTrip(n: nat)
    ensures DecimalValue(NatToString(n)) == n
  {
    var s := NatToString(n);
    if n >= 10 {
      DecimalRoundTrip(n / 10);
      assert s[..|s| - 1] == NatToString(n / 10);
    }
  }

  /** Distinct numbers render to distinct strings. */
  lemma NatToStringInjective(i: nat, j: nat)
    ensures NatToString(i) == NatToString(j) ==> i == j
  {
    DecimalRoundTrip(i);
    DecimalRoundTrip(j);
  }

  /** A common prefix followed by two distinct numbers gives distinct names
      (`f"sink_{i}"`, `f"source-bin-{i}"`). */
  lemma PrefixedNamesDistinct(prefix: string, i: nat, j: nat)
    requires i != j
    ensures prefix + NatToString(i) != prefix + NatToString(j)
  {
    NatToStringInjective(i, j);
    assert (prefix + NatToString(i))[|prefix|..] == NatToString(i);
    assert (prefix + NatToString(j))[|prefix|..] == NatToString(j);
  }
}
