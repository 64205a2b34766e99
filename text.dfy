/** The two pieces of Go's string library the provider's error handling rests on:
    `%d` formatting of a status code and `strings.Contains`. */
module Text {

  predicate IsDigit(c: char) { '0' <= c <= '9' }

  function DigitChar(d: nat): (c: char)
    requires d < 10
    ensures IsDigit(c) && c as int - '0' as int == d
  {
    ('0' as int + d) as char
  }

  /** `fmt.Sprintf("%d", n)` for a non-negative n: shortest decimal form, no sign, no leading zero. */
  function Decimal(n: nat): (s: string)
    ensures |s| >= 1 && forall i :: 0 <= i < |s| ==> IsDigit(s[i])
    ensures n < 10 <==> |s| == 1
  {
    if n < 10 then [DigitChar(n)] else Decimal(n / 10) + [DigitChar(n % 10)]
  }

  /** Reads a string of digits back as a number; the reference against which Decimal is checked. */
  function DigitValue(c: char): nat
    requires IsDigit(c)
  {
    c as int - '0' as int
  }

  function ParseDecimal(s: string): nat
    requires forall i :: 0 <= i < |s| ==> IsDigit(s[i])
  {
    if s == [] then 0
    else ParseDecimal(s[..|s| - 1]) * 10 + DigitValue(s[|s| - 1])
  }

  /** Decimal loses nothing: parsing its output gives the number back. */
  lemma {:induction false} DecimalRoundTrip(n: nat)
    ensures ParseDecimal(Decimal(n)) == n
  {
    if n >= 10 {
      DecimalRoundTrip(n / 10);
      var s := Decimal(n);
      assert s[..|s| - 1] == Decimal(n / 10);
    }
  }

  /** Distinct numbers print differently, so a printed code identifies the code. */
  lemma DecimalInjective(m: nat, n: nat)
    requires Decimal(m) == Decimal(n)
    ensures m == n
  {
    DecimalRoundTrip(m);
    DecimalRoundTrip(n);
  }

  /** Codes up to 999 print in at most three digits. */
  lemma {:induction false} DecimalShort(n: nat)
    requires n <= 999
    ensures |Decimal(n)| <= 3
    ensures n >= 100 ==> |Decimal(n)| == 3
  {
    if n >= 10 {
      DecimalShort(n / 10);
    }
  }

  predicate StartsWith(s: string, p: string) {
    |p| <= |s| && s[..|p|] == p
  }

  /** `strings.Contains(s, p)`: p occurs in s at some position. */
  predicate Contains(s: string, p: string)
    ensures Contains(s, p) ==> |p| <= |s|
    ensures StartsWith(s, p) ==> Contains(s, p)
    decreases |s|
  {
    StartsWith(s, p) || (|s| > 0 && Contains(s[1..], p))
  }

  /** p occurs in s starting at position i. */
  predicate OccursAt(s: string, p: string, i: nat) {
    i <= |s| && StartsWith(s[i..], p)
  }

  /** Contains means an occurrence at some explicit position, in both directions. */
  lemma {:induction false} ContainsAt(s: string, p: string)
    ensures Contains(s, p) <==> exists i: nat :: OccursAt(s, p, i)
  {
    assert s[0..] == s;
    if StartsWith(s, p) {
      assert OccursAt(s, p, 0);
    }
    if |s| > 0 {
      ContainsAt(s[1..], p);
      if Contains(s[1..], p) {
        var i: nat :| OccursAt(s[1..], p, i);
        assert s[1..][i..] == s[i + 1..];
        assert OccursAt(s, p, i + 1);
      }
      if i: nat :| OccursAt(s, p, i) {
        if i > 0 {
          assert s[1..][i - 1..] == s[i..];
          assert OccursAt(s[1..], p, i - 1);
        }
      }
    } else {
      if i: nat :| OccursAt(s, p, i) {
        assert i == 0;
      }
    }
  }

  /** A prefix none of whose positions starts an occurrence of p contributes no occurrence:
      the occurrences of p in x + y are those in y. */
  lemma {:induction false} ContainsSkip(x: string, y: string, p: string)
    requires forall k :: 0 <= k < |x| ==> !StartsWith(x[k..] + y, p)
    ensures Contains(x + y, p) <==> Contains(y, p)
  {
    if x != [] {
      assert x[0..] + y == x + y;
      assert !StartsWith(x + y, p);
      assert (x + y)[1..] == x[1..] + y;
      forall k | 0 <= k < |x| - 1 ensures !StartsWith(x[1..][k..] + y, p) {
        assert x[1..][k..] == x[k + 1..];
      }
      ContainsSkip(x[1..], y, p);
    } else {
      assert x + y == y;
    }
  }
}
