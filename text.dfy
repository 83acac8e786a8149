/** The string operations the core relies on: Java's equalsIgnoreCase,
    toLowerCase, contains and Integer.toString, restricted to ASCII letters. */
module Text {
  import opened Wrappers

  /** Character.toLowerCase on the ASCII range. */
  function LowerChar(c: char): (r: char)
    ensures 'A' <= c <= 'Z' ==> r as int == c as int + 32
    ensures !('A' <= c <= 'Z') ==> r == c
  {
    if 'A' <= c <= 'Z' then (c as int + 32) as char else c
  }

  /** String.toLowerCase: same length, every character lowered. */
  function Lower(s: string): (r: string)
    ensures |r| == |s|
    ensures forall i :: 0 <= i < |s| ==> r[i] == LowerChar(s[i])
  {
    if s == [] then [] else [LowerChar(s[0])] + Lower(s[1..])
  }

  /** Lowering a string without upper-case letters leaves it as it is. */
  lemma LowerKeepsLowercase(s: string)
    requires forall i :: 0 <= i < |s| ==> !('A' <= s[i] <= 'Z')
    ensures Lower(s) == s
  {
    assert forall i :: 0 <= i < |s| ==> Lower(s)[i] == s[i];
  }

  /** `literal.equalsIgnoreCase(s)` where `s` may be null (then false): the
      same length, and equal characters at every position once lowered. */
  predicate EqualsIgnoreCase(literal: string, s: Option<string>)
  {
    s.Some? && |s.value| == |literal|
    && forall i :: 0 <= i < |literal| ==> LowerChar(literal[i]) == LowerChar(s.value[i])
  }

  /** equalsIgnoreCase against a literal is equality after lowering both. */
  lemma {:induction false} EqualsIgnoreCaseIsLowerEquality(literal: string, s: string)
    ensures EqualsIgnoreCase(literal, Some(s)) <==> Lower(literal) == Lower(s)
  {
    if Lower(literal) == Lower(s) {
      forall i | 0 <= i < |literal|
        ensures LowerChar(literal[i]) == LowerChar(s[i])
      {
        assert Lower(literal)[i] == Lower(s)[i];
      }
    }
    if EqualsIgnoreCase(literal, Some(s)) {
      assert forall i :: 0 <= i < |literal| ==> Lower(literal)[i] == Lower(s)[i];
    }
  }

  /** `s.contains(sub)`: `sub` occurs at some position of `s`. */
  predicate Contains(s: string, sub: string)
  {
    exists i | 0 <= i <= |s| - |sub| :: OccursAt(s, sub, i)
  }

  /** `sub` sits in `s` starting at index `i`. */
  predicate OccursAt(s: string, sub: string, i: int)
  {
    0 <= i <= |s| - |sub| && s[i..i + |sub|] == sub
  }

  /** Two literals that differ at one position after lowering can never both
      match the same string ignoring case. */
  lemma DistinctIgnoringCase(a: string, b: string, k: nat, s: Option<string>)
    requires k < |a| && k < |b| && LowerChar(a[k]) != LowerChar(b[k])
    ensures !(EqualsIgnoreCase(a, s) && EqualsIgnoreCase(b, s))
  {
  }

  function DigitChar(d: nat): (c: char)
    requires d < 10
    ensures '0' <= c <= '9'
  {
    ("0123456789")[d]
  }

  /** Decimal digits of a natural number, most significant first. */
  function NatToString(n: nat): (r: string)
    ensures |r| >= 1
    ensures forall i :: 0 <= i < |r| ==> '0' <= r[i] <= '9'
    decreases n
  {
    if n < 10 then [DigitChar(n)] else NatToString(n / 10) + [DigitChar(n % 10)]
  }

  /** Integer.toString: a minus sign before the digits of a negative number. */
  function IntToString(i: int): (r: string)
    ensures |r| >= 1
    ensures (r[0] == '-') <==> i < 0
  {
    if i < 0 then "-" + NatToString(-i) else NatToString(i)
  }
}
