/**
 * String helpers the service relies on: ASCII case mapping (the source's
 * `toLowerCase`/`toUpperCase` restricted to ASCII), substring search
 * (`String.prototype.includes`), slash-free tokens and decimal rendering
 * of integers (template-literal interpolation of a number).
 */
module Text {

  /** Lower-cases an ASCII upper-case letter; every other character is unchanged. */
  function LowerChar(c: char): (r: char)
    ensures 'A' <= c <= 'Z' ==> 'a' <= r <= 'z' && r as int == c as int + 32
    ensures !('A' <= c <= 'Z') ==> r == c
  {
    if 'A' <= c <= 'Z' then (c as int + 32) as char else c
  }

  /** Upper-cases an ASCII lower-case letter; every other character is unchanged. */
  function UpperChar(c: char): (r: char)
    ensures 'a' <= c <= 'z' ==> 'A' <= r <= 'Z' && r as int == c as int - 32
    ensures !('a' <= c <= 'z') ==> r == c
  {
    if 'a' <= c <= 'z' then (c as int - 32) as char else c
  }

  /** No ASCII upper-case letter occurs in `s`. */
  predicate IsLower(s: string) {
    forall i :: 0 <= i < |s| ==> !('A' <= s[i] <= 'Z')
  }

  /** `s.toLowerCase()` on ASCII: the same length, each character lower-cased. */
  function ToLower(s: string): (r: string)
    ensures |r| == |s|
    ensures forall i :: 0 <= i < |s| ==> r[i] == LowerChar(s[i])
    ensures IsLower(r)
  {
    seq(|s|, i requires 0 <= i < |s| => LowerChar(s[i]))
  }

  /** Lower-casing an already lower-case string changes nothing. */
  lemma ToLowerOfLower(s: string)
    requires IsLower(s)
    ensures ToLower(s) == s
  {
  }

  /** `p` is the block of `s` that starts at position `i`. */
  predicate OccursAt(p: string, s: string, i: int) {
    0 <= i <= |s| - |p| && s[i..i + |p|] == p
  }

  /** `p` occurs as a contiguous block of `s` (the meaning of `s.includes(p)`). */
  ghost predicate Occurs(p: string, s: string) {
    exists i :: OccursAt(p, s, i)
  }

  /**
   * `s.includes(p)`: tries every start position from the left. A `true`
   * answer names a real occurrence; `IncludesIffOccurs` gives the converse.
   */
  function Includes(s: string, p: string): (found: bool)
    ensures found ==> Occurs(p, s)
  {
    if |s| < |p| then false
    else if s[..|p|] == p then
      assert OccursAt(p, s, 0);
      true
    else
      var found := Includes(s[1..], p);
      if found then
        var i :| OccursAt(p, s[1..], i);
        TailSlice(s, i, |p|);
        assert OccursAt(p, s, i + 1);
        true
      else
        false
  }

  /** A block of the tail `s[1..]` is the block of `s` one position further on. */
  lemma TailSlice(s: string, i: nat, n: nat)
    requires 1 + i + n <= |s|
    ensures s[1..][i..i + n] == s[i + 1..i + 1 + n]
  {
  }

  /** `Includes` answers exactly the question `Occurs` asks, in both directions. */
  lemma {:induction false} IncludesIffOccurs(s: string, p: string)
    ensures Includes(s, p) <==> Occurs(p, s)
  {
    if |s| < |p| {
    } else if s[..|p|] == p {
      assert OccursAt(p, s, 0);
    } else {
      IncludesIffOccurs(s[1..], p);
      if Occurs(p, s) {
        var i :| OccursAt(p, s, i);
        assert i != 0;
        TailSlice(s, i - 1, |p|);
        assert OccursAt(p, s[1..], i - 1);
      }
    }
  }

  /** A block of `a` or of `b` is a block of `a + b`. */
  lemma OccursInConcat(p: string, a: string, b: string)
    ensures Occurs(p, a) ==> Occurs(p, a + b)
    ensures Occurs(p, b) ==> Occurs(p, a + b)
  {
    if Occurs(p, a) {
      var i :| OccursAt(p, a, i);
      assert (a + b)[i..i + |p|] == a[i..i + |p|];
      assert OccursAt(p, a + b, i);
    }
    if Occurs(p, b) {
      var i :| OccursAt(p, b, i);
      assert (a + b)[|a| + i..|a| + i + |p|] == b[i..i + |p|];
      assert OccursAt(p, a + b, |a| + i);
    }
  }

  /** A block containing a character that `s` lacks does not occur in `s`. */
  lemma AbsentCharNotOccurs(p: string, s: string, j: nat)
    requires j < |p| && p[j] !in s
    ensures !Occurs(p, s)
  {
  }

  /** A block containing two adjacent characters that are never adjacent in `s` does not occur in `s`. */
  lemma AbsentPairNotOccurs(p: string, s: string, j: nat)
    requires j + 1 < |p|
    requires forall i :: 0 <= i < |s| - 1 ==> !(s[i] == p[j] && s[i + 1] == p[j + 1])
    ensures !Occurs(p, s)
  {
    forall i | 0 <= i <= |s| - |p| ensures !OccursAt(p, s, i) {
      var block := s[i..i + |p|];
      assert block[j] == s[i + j] && block[j + 1] == s[i + j + 1];
    }
  }

  /** Concatenation of a list of pieces, in order. */
  function Concat(parts: seq<string>): string {
    if parts == [] then "" else parts[0] + Concat(parts[1..])
  }

  /** Every piece of a concatenation occurs in it verbatim. */
  lemma {:induction false} PieceOccurs(parts: seq<string>, k: nat)
    requires k < |parts|
    ensures Occurs(parts[k], Concat(parts))
  {
    if k == 0 {
      assert Occurs(parts[0], parts[0]) by {
        assert OccursAt(parts[0], parts[0], 0);
      }
      OccursInConcat(parts[0], parts[0], Concat(parts[1..]));
    } else {
      PieceOccurs(parts[1..], k - 1);
      OccursInConcat(parts[k], parts[0], Concat(parts[1..]));
    }
  }

  /** No `/` in `s`. */
  predicate SlashFree(s: string) {
    forall i :: 0 <= i < |s| ==> s[i] != '/'
  }

  /** What the regular-expression class `[^/]+` matches: a non-empty slash-free string. */
  predicate IsToken(s: string) {
    |s| > 0 && SlashFree(s)
  }

  /** Concatenations of slash-free strings are slash-free. */
  lemma SlashFreeConcat(a: string, b: string)
    requires SlashFree(a) && SlashFree(b)
    ensures SlashFree(a + b)
  {
  }

  predicate IsDigit(c: char) {
    '0' <= c <= '9'
  }

  function DigitChar(d: nat): (c: char)
    requires d < 10
    ensures IsDigit(c) && c as int - '0' as int == d
  {
    ('0' as int + d) as char
  }

  /** Decimal rendering of a non-negative integer, most significant digit first, no leading zero. */
  function NatToString(n: nat): (r: string)
    ensures |r| >= 1
    ensures forall i :: 0 <= i < |r| ==> IsDigit(r[i])
    ensures n >= 10 ==> r[0] != '0'
    decreases n
  {
    if n < 10 then [DigitChar(n)] else NatToString(n / 10) + [DigitChar(n % 10)]
  }

  /** The value of a decimal digit. */
  function DigitValue(c: char): (d: nat)
    requires IsDigit(c)
    ensures d < 10
  {
    c as int - '0' as int
  }

  /** The number a string of decimal digits denotes, most significant digit first. */
  function DecimalValue(s: string): nat
    requires forall i :: 0 <= i < |s| ==> IsDigit(s[i])
  {
    if s == [] then 0 else 10 * DecimalValue(s[..|s| - 1]) + DigitValue(s[|s| - 1])
  }

  /** The rendering of `n` denotes `n`. */
  lemma {:induction false} DecimalValueOfNatToString(n: nat)
    ensures DecimalValue(NatToString(n)) == n
    decreases n
  {
    var r := NatToString(n);
    if n < 10 {
      assert r[..|r| - 1] == [];
    } else {
      assert r[..|r| - 1] == NatToString(n / 10);
      DecimalValueOfNatToString(n / 10);
    }
  }

  /** Distinct numbers have distinct renderings. */
  lemma NatToStringInjective(m: nat, n: nat)
    requires NatToString(m) == NatToString(n)
    ensures m == n
  {
    DecimalValueOfNatToString(m);
    DecimalValueOfNatToString(n);
  }

  /** A decimal rendering never contains a `/`, so it is a token. */
  lemma NatToStringIsToken(n: nat)
    ensures IsToken(NatToString(n))
  {
    var r := NatToString(n);
    forall i | 0 <= i < |r| ensures r[i] != '/' {
      assert IsDigit(r[i]);
    }
  }

  function Pow10(k: nat): (p: nat)
    ensures p >= 1
  {
    if k == 0 then 1 else 10 * Pow10(k - 1)
  }

  /** A number with k+1 decimal digits is rendered with exactly k+1 characters. */
  lemma {:induction false} NatToStringLength(n: nat, k: nat)
    requires Pow10(k) <= n < Pow10(k + 1)
    ensures |NatToString(n)| == k + 1
  {
    if k == 0 {
    } else {
      var p := Pow10(k - 1);
      assert Pow10(k) == 10 * p && Pow10(k + 1) == 10 * (10 * p);
      assert p <= n / 10 < 10 * p;
      NatToStringLength(n / 10, k - 1);
    }
  }
}
