/**
 * The three pieces of Python's string behaviour that the agent relies on:
 * `str.lower()` (restricted here to ASCII letters), the substring test `w in s`,
 * and the decimal text that an f-string gives an `int`.
 */
module Text {

  import opened Wrappers

  // ---------------------------------------------------------------------------
  // Lower-casing

  /** Lower-cases one character; only the ASCII letters 'A'..'Z' change. */
  function LowerChar(c: char): (r: char)
    ensures 'A' <= c <= 'Z' ==> 'a' <= r <= 'z' && r as int == c as int + 32
    ensures !('A' <= c <= 'Z') ==> r == c
    ensures !('A' <= r <= 'Z')
  {
    if 'A' <= c <= 'Z' then (c as int + 32) as char else c
  }

  /** `s.lower()`, with ASCII case mapping: character by character, same length. */
  function Lower(s: string): (r: string)
    ensures |r| == |s|
    ensures forall i :: 0 <= i < |s| ==> r[i] == LowerChar(s[i])
  {
    seq(|s|, i requires 0 <= i < |s| => LowerChar(s[i]))
  }

  /** Lower-casing twice is lower-casing once. */
  lemma LowerIdempotent(s: string)
    ensures Lower(Lower(s)) == Lower(s)
  {
  }

  /** Lower-casing commutes with slicing. */
  lemma LowerSlice(s: string, i: nat, j: nat)
    requires i <= j <= |s|
    ensures Lower(s)[i..j] == Lower(s[i..j])
  {
  }

  // ---------------------------------------------------------------------------
  // Substring test

  /** `w` occurs in `s` starting at index `i`. */
  predicate OccursAt(s: string, w: string, i: nat)
  {
    i + |w| <= |s| && s[i..i + |w|] == w
  }

  /** Python's `w in s`: some index of `s` starts an occurrence of `w`. */
  predicate Contains(s: string, w: string)
  {
    exists i: nat :: i <= |s| && OccursAt(s, w, i)
  }

  /** A string occurs inside any string that is built around it. */
  lemma ContainsMiddle(a: string, w: string, b: string)
    ensures Contains(a + w + b, w)
  {
    var s := a + w + b;
    assert s[|a|..|a| + |w|] == w;
    assert OccursAt(s, w, |a|);
  }

  /** An occurrence in the left part of a concatenation is an occurrence in the whole. */
  lemma ContainsLeft(x: string, y: string, w: string)
    requires Contains(x, w)
    ensures Contains(x + y, w)
  {
    var i: nat :| i <= |x| && OccursAt(x, w, i);
    assert (x + y)[i..i + |w|] == x[i..i + |w|];
    assert OccursAt(x + y, w, i);
  }

  /** A string with a character that `s` lacks does not occur in `s`. */
  lemma AbsentChar(s: string, w: string, c: char)
    requires c in w && c !in s
    ensures !Contains(s, w)
  {
  }

  /** An occurrence of `w` in `s` is an occurrence of `Lower(w)` in `Lower(s)`:
      this is why a keyword written in any case is found by the lower-cased test. */
  lemma ContainsLower(s: string, w: string)
    requires Contains(s, w)
    ensures Contains(Lower(s), Lower(w))
  {
    var i: nat :| i <= |s| && OccursAt(s, w, i);
    LowerSlice(s, i, i + |w|);
    assert OccursAt(Lower(s), Lower(w), i);
  }

  // ---------------------------------------------------------------------------
  // Decimal text of an integer

  /** Two strings with the same head and the same tail have the same middle. */
  lemma MiddleDetermined(head: string, m1: string, m2: string, tail: string)
    requires head + m1 + tail == head + m2 + tail
    ensures m1 == m2
  {
    var s := head + m1 + tail;
    assert m1 == s[|head|..|head| + |m1|];
    assert m2 == (head + m2 + tail)[|head|..|head| + |m2|];
  }

  /** The character of one decimal digit. */
  function DigitChar(d: nat): (c: char)
    requires d < 10
    ensures '0' <= c <= '9'
    ensures c as int - '0' as int == d
  {
    ('0' as int + d) as char
  }

  predicate IsDigit(c: char)
  {
    '0' <= c <= '9'
  }

  predicate AllDigits(s: string)
  {
    forall i :: 0 <= i < |s| ==> IsDigit(s[i])
  }

  /** The decimal digits of a natural number, most significant first, without leading zeros. */
  function NatDecimal(n: nat): (r: string)
    ensures |r| > 0 && AllDigits(r)
    ensures |r| > 1 ==> r[0] != '0'
    ensures n > 0 ==> r[0] != '0'
    decreases n
  {
    if n < 10 then [DigitChar(n)] else NatDecimal(n / 10) + [DigitChar(n % 10)]
  }

  /** `str(i)` for a Python `int`: a '-' before the digits of a negative number. */
  function Decimal(i: int): (r: string)
    ensures |r| > 0
    ensures i >= 0 <==> AllDigits(r)
    ensures i < 0 <==> r[0] == '-'
    ensures forall k :: 1 <= k < |r| ==> IsDigit(r[k])
    ensures r[0] == '0' ==> i == 0 && r == "0"
    ensures i < 0 ==> |r| > 1 && r[1] != '0'
  {
    if i < 0 then
      var r := "-" + NatDecimal(-i);
      assert !IsDigit(r[0]);
      r
    else NatDecimal(i)
  }

  /** Reads back a string of decimal digits. */
  function ParseNat(s: string): (n: nat)
    requires AllDigits(s)
    decreases |s|
  {
    if s == [] then 0 else ParseNat(s[..|s| - 1]) * 10 + (s[|s| - 1] as int - '0' as int)
  }

  /** Reads back the decimal text of an integer, with an optional leading '-'. */
  function ParseDecimal(s: string): (r: Option<int>)
  {
    if |s| > 0 && s[0] == '-' && AllDigits(s[1..]) then Some(-(ParseNat(s[1..]) as int))
    else if AllDigits(s) then Some(ParseNat(s))
    else None
  }

  lemma {:induction false} ParseNatDecimal(n: nat)
    ensures ParseNat(NatDecimal(n)) == n
    decreases n
  {
    if n >= 10 {
      var s := NatDecimal(n);
      assert s[..|s| - 1] == NatDecimal(n / 10);
      ParseNatDecimal(n / 10);
    }
  }

  /** Reading back the decimal text of any integer gives that integer. */
  lemma DecimalRoundTrip(i: int)
    ensures ParseDecimal(Decimal(i)) == Some(i)
  {
    if i < 0 {
      assert Decimal(i)[1..] == NatDecimal(-i);
      ParseNatDecimal(-i);
    } else {
      ParseNatDecimal(i);
    }
  }

  /** Different integers have different decimal texts. */
  lemma DecimalInjective(i: int, j: int)
    requires Decimal(i) == Decimal(j)
    ensures i == j
  {
    DecimalRoundTrip(i);
    DecimalRoundTrip(j);
  }
}
