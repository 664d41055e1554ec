/**
 * The string operations the widgets rely on, over ASCII character sequences:
 * Rust's `String::insert` / `String::remove` at a character index, `{}` and
 * `{:0w}` formatting of an unsigned integer, ASCII lower-casing and
 * `str::contains`.
 */
module Strings {

  // ---------------------------------------------------------------------------
  // In-place edits of a single line
  // ---------------------------------------------------------------------------

  /** `s.insert(i, c)` for `i <= |s|`. */
  function InsertAt(s: string, i: nat, c: char): (r: string)
    requires i <= |s|
    ensures |r| == |s| + 1 && r[i] == c
    ensures forall k :: 0 <= k < i ==> r[k] == s[k]
    ensures forall k :: i < k < |r| ==> r[k] == s[k - 1]
  {
    s[..i] + [c] + s[i..]
  }

  /** `s.remove(i)` for `i < |s|`. */
  function RemoveAt(s: string, i: nat): (r: string)
    requires i < |s|
    ensures |r| == |s| - 1
    ensures forall k :: 0 <= k < i ==> r[k] == s[k]
    ensures forall k :: i <= k < |r| ==> r[k] == s[k + 1]
  {
    s[..i] + s[i + 1..]
  }

  /** Removing what was just inserted gives the line back. */
  lemma RemoveInsert(s: string, i: nat, c: char)
    requires i <= |s|
    ensures RemoveAt(InsertAt(s, i, c), i) == s
  {
    var r := RemoveAt(InsertAt(s, i, c), i);
    assert |r| == |s|;
    forall k | 0 <= k < |s| ensures r[k] == s[k] {
    }
  }

  // ---------------------------------------------------------------------------
  // Decimal formatting of unsigned integers
  // ---------------------------------------------------------------------------

  predicate IsDigit(c: char) {
    '0' <= c <= '9'
  }

  predicate AllDigits(s: string) {
    forall k :: 0 <= k < |s| ==> IsDigit(s[k])
  }

  function DigitChar(d: nat): (c: char)
    requires d < 10
    ensures IsDigit(c)
  {
    ('0' as int + d) as char
  }

  function DigitValue(c: char): (d: nat)
    requires IsDigit(c)
    ensures d < 10
  {
    c as int - '0' as int
  }

  function Pow10(k: nat): (p: nat)
    ensures p >= 1
  {
    if k == 0 then 1 else 10 * Pow10(k - 1)
  }

  /** Rust's `{}` for an unsigned integer: shortest decimal, no leading zero. */
  function Decimal(n: nat): (s: string)
    ensures |s| >= 1 && AllDigits(s)
  {
    if n < 10 then [DigitChar(n)] else Decimal(n / 10) + [DigitChar(n % 10)]
  }

  /** The number a string of decimal digits denotes. */
  function DecimalValue(s: string): nat
    requires AllDigits(s)
  {
    if s == [] then 0 else 10 * DecimalValue(s[..|s| - 1]) + DigitValue(s[|s| - 1])
  }

  /** Reading back a formatted number gives the number. */
  lemma {:induction false} DecimalRoundTrip(n: nat)
    ensures DecimalValue(Decimal(n)) == n
  {
    var s := Decimal(n);
    if n >= 10 {
      assert s[..|s| - 1] == Decimal(n / 10);
      DecimalRoundTrip(n / 10);
    }
  }

  /** Only zero is formatted with a leading zero digit. */
  lemma {:induction false} DecimalNoLeadingZero(n: nat)
    ensures Decimal(n)[0] == '0' <==> n == 0
  {
    if n >= 10 {
      DecimalNoLeadingZero(n / 10);
    }
  }

  /** `n` takes at most `k` digits exactly when it is below `10^k`. */
  lemma {:induction false} DecimalLength(n: nat, k: nat)
    requires k >= 1
    ensures |Decimal(n)| <= k <==> n < Pow10(k)
  {
    if n >= 10 {
      if k == 1 {
        assert Pow10(1) == 10;
      } else {
        DecimalLength(n / 10, k - 1);
      }
    } else {
      if k > 1 {
        Pow10Grows(k);
      }
    }
  }

  lemma {:induction false} Pow10Grows(k: nat)
    requires k >= 1
    ensures Pow10(k) >= 10
  {
    if k > 1 {
      Pow10Grows(k - 1);
    }
  }

  function Zeros(k: nat): (s: string)
    ensures |s| == k && AllDigits(s)
    ensures forall i :: 0 <= i < k ==> s[i] == '0'
  {
    seq(k, _ => '0')
  }

  /** Rust's `{:0w}` for an unsigned integer: zeros on the left up to width `w`. */
  function ZeroPadded(n: nat, w: nat): (s: string)
    ensures AllDigits(s)
  {
    var d := Decimal(n);
    (if |d| < w then Zeros(w - |d|) else []) + d
  }

  /** The padded field is at least `w` wide and exactly `w` wide when `n < 10^w`. */
  lemma ZeroPaddedWidth(n: nat, w: nat)
    requires w >= 1
    ensures |ZeroPadded(n, w)| >= w
    ensures |ZeroPadded(n, w)| == w <==> n < Pow10(w)
  {
    DecimalLength(n, w);
  }

  /** Leading zeros do not change the value. */
  lemma {:induction false} LeadingZeros(k: nat, s: string)
    requires AllDigits(s)
    ensures DecimalValue(Zeros(k) + s) == DecimalValue(s)
    decreases |s|
  {
    var z := Zeros(k) + s;
    if s == [] {
      assert z == Zeros(k);
      ZerosValue(k);
    } else {
      assert z[..|z| - 1] == Zeros(k) + s[..|s| - 1];
      LeadingZeros(k, s[..|s| - 1]);
    }
  }

  lemma {:induction false} ZerosValue(k: nat)
    ensures DecimalValue(Zeros(k)) == 0
  {
    if k > 0 {
      assert Zeros(k)[..k - 1] == Zeros(k - 1);
      ZerosValue(k - 1);
    }
  }

  /** A zero-padded field still reads back as the number. */
  lemma ZeroPaddedRoundTrip(n: nat, w: nat)
    ensures DecimalValue(ZeroPadded(n, w)) == n
  {
    var d := Decimal(n);
    DecimalRoundTrip(n);
    if |d| < w {
      LeadingZeros(w - |d|, d);
    } else {
      assert ZeroPadded(n, w) == d;
    }
  }

  // ---------------------------------------------------------------------------
  // Case-insensitive substring search
  // ---------------------------------------------------------------------------

  /** ASCII case folding, standing in for Rust's Unicode `to_lowercase`. */
  function LowerChar(c: char): (r: char)
    ensures 'A' <= c <= 'Z' ==> r as int == c as int + 32
    ensures !('A' <= c <= 'Z') ==> r == c
  {
    if 'A' <= c <= 'Z' then (c as int + 32) as char else c
  }

  function Lower(s: string): (r: string)
    ensures |r| == |s|
    ensures forall k :: 0 <= k < |s| ==> r[k] == LowerChar(s[k])
    ensures forall k :: 0 <= k < |r| ==> !('A' <= r[k] <= 'Z')
    ensures forall k :: 0 <= k < |s| && !('A' <= s[k] <= 'Z') ==> r[k] == s[k]
  {
    seq(|s|, k requires 0 <= k < |s| => LowerChar(s[k]))
  }

  lemma LowerIdempotent(s: string)
    ensures Lower(Lower(s)) == Lower(s)
  {
  }

  predicate StartsWith(s: string, p: string) {
    |p| <= |s| && s[..|p|] == p
  }

  /** Rust's `str::contains(p)`: `p` occurs in `s` starting at some position. */
  predicate Contains(s: string, p: string)
    ensures Contains(s, p) ==> |p| <= |s|
    ensures StartsWith(s, p) ==> Contains(s, p)
    decreases |s|
  {
    StartsWith(s, p) || (|s| > 0 && Contains(s[1..], p))
  }

  predicate OccursAt(s: string, p: string, k: int) {
    0 <= k && k + |p| <= |s| && s[k..k + |p|] == p
  }

  /** `Contains` finds exactly the occurrences of `p` at some offset of `s`. */
  lemma {:induction false} ContainsIsOccurrence(s: string, p: string)
    ensures Contains(s, p) <==> exists k :: OccursAt(s, p, k)
    decreases |s|
  {
    if StartsWith(s, p) {
      assert OccursAt(s, p, 0);
    } else if |s| == 0 {
      assert p != [];
    } else {
      ContainsIsOccurrence(s[1..], p);
      if exists k :: OccursAt(s, p, k) {
        var k :| OccursAt(s, p, k);
        assert k != 0;
        assert s[1..][k - 1..k - 1 + |p|] == s[k..k + |p|];
        assert OccursAt(s[1..], p, k - 1);
      }
      if exists k :: OccursAt(s[1..], p, k) {
        var k :| OccursAt(s[1..], p, k);
        assert s[1..][k..k + |p|] == s[k + 1..k + 1 + |p|];
        assert OccursAt(s, p, k + 1);
      }
    }
  }

  /** Every string contains the empty pattern. */
  lemma ContainsEmpty(s: string)
    ensures Contains(s, "")
  {
    assert StartsWith(s, "");
  }

  /** A non-empty pattern whose first character never occurs in `s` is not contained in it. */
  lemma {:induction false} ContainsNeedsFirstChar(s: string, p: string)
    requires p != [] && p[0] !in s
    ensures !Contains(s, p)
    decreases |s|
  {
    if |s| > 0 {
      assert s[0] != p[0];
      assert s[1..] == s[1..] && (forall c :: c in s[1..] ==> c in s);
      ContainsNeedsFirstChar(s[1..], p);
    }
  }
}
