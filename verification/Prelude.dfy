/** Datatypes and small facts that every other module uses. */
module Prelude {

  datatype Option<+T> = None | Some(value: T)

  datatype Result<+T, +E> = Ok(value: T) | Err(error: E)

  /** JSON values are represented by their serialised text. */
  type Json = string

  /** The limits of the runtime are compared with counters that have already been
      incremented, so a configured limit of 0 behaves like a limit of 1. */
  function AtLeastOne(limit: nat): (effective: nat)
    ensures effective >= 1 && effective >= limit
  {
    if limit == 0 then 1 else limit
  }

  function Min(a: nat, b: nat): nat {
    if a <= b then a else b
  }

  function SaturatingSub(a: nat, b: nat): (difference: nat)
    ensures a >= b ==> difference + b == a
    ensures a < b ==> difference == 0
  {
    if a >= b then a - b else 0
  }

  /** The last `n` elements of `s`, or all of `s` when it is shorter. */
  function LastN<T>(s: seq<T>, n: nat): (last: seq<T>)
    ensures |last| == Min(|s|, n)
    ensures last == s[|s| - |last|..]
  {
    if |s| <= n then s else s[|s| - n..]
  }

  /** Decimal digits of a natural number, as the formatting macros print it. */
  function Decimal(n: nat): string {
    if n < 10 then ["0123456789"[n]] else Decimal(n / 10) + ["0123456789"[n % 10]]
  }

  predicate IsDigit(ch: char) {
    '0' <= ch <= '9'
  }

  /** A number without superfluous zeros. */
  predicate IsNumeral(text: string) {
    && text != "" && (forall i | 0 <= i < |text| :: IsDigit(text[i]))
    && (text[0] == '0' ==> |text| == 1)
  }

  function DigitValue(ch: char): nat {
    if IsDigit(ch) then ch as int - '0' as int else 0
  }

  /** The number that these digits stand for. */
  function Value(digits: string): nat {
    if digits == "" then 0 else Value(digits[..|digits| - 1]) * 10 + DigitValue(digits[|digits| - 1])
  }

  lemma DigitReadsBack(d: nat)
    requires d < 10
    ensures IsDigit("0123456789"[d]) && DigitValue("0123456789"[d]) == d
    ensures d > 0 ==> "0123456789"[d] != '0'
  {
  }

  lemma NumeralOfAppend(digits: string, ch: char)
    requires IsNumeral(digits) && digits[0] != '0' && IsDigit(ch)
    ensures IsNumeral(digits + [ch]) && (digits + [ch])[0] != '0'
    ensures Value(digits + [ch]) == Value(digits) * 10 + DigitValue(ch)
  {
    hide DigitValue, IsDigit;
    assert (digits + [ch])[..|digits|] == digits;
  }

  /** What is printed for a number reads back as that number. */
  lemma {:induction false} DecimalReadsBack(n: nat)
    ensures IsNumeral(Decimal(n)) && Value(Decimal(n)) == n
    ensures n > 0 ==> Decimal(n)[0] != '0'
  {
    hide IsDigit, DigitValue;
    DigitReadsBack(n % 10);
    if n < 10 {
      OneDigit("0123456789"[n]);
    } else {
      hide IsNumeral, Value;
      DecimalReadsBack(n / 10);
      NonEmptyDecimal(n / 10);
      NumeralOfAppend(Decimal(n / 10), "0123456789"[n % 10]);
    }
  }

  lemma NonEmptyDecimal(n: nat)
    ensures Decimal(n) != ""
  {
  }

  lemma OneDigit(ch: char)
    requires IsDigit(ch)
    ensures IsNumeral([ch]) && Value([ch]) == DigitValue(ch)
  {
    hide DigitValue;
    assert [ch][..0] == "";
  }

  lemma DecimalsDiffer(m: nat, n: nat)
    requires Decimal(m) == Decimal(n)
    ensures m == n
  {
    DecimalReadsBack(m);
    DecimalReadsBack(n);
  }

  /** A subsequence counts each element at most as often as the whole sequence does. */
  lemma SliceCountsAtMost<T>(s: seq<T>, i: nat, j: nat, x: T)
    requires i <= j <= |s|
    ensures multiset(s[i..j])[x] <= multiset(s)[x]
  {
    assert s == s[..i] + s[i..j] + s[j..];
  }
}
