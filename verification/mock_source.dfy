/**
 The fixed in-memory source the screen paginates over: forty items named
 "1" .. "40", handed out in pages of ten, and the array-slicing primitive
 the fetch stub uses to cut a page out of it.
 */
module MockSource {

  /** Number of items in the source. */
  const SourceLength: nat := 40

  /** Number of items one fetch hands out. */
  const PageSize: nat := 10

  function Min(a: int, b: int): int {
    if a <= b then a else b
  }

  function Max(a: int, b: int): int {
    if a <= b then b else a
  }

  function DigitChar(d: nat): char
    requires d < 10
  {
    ('0' as int + d) as char
  }

  function DigitValue(c: char): nat
    requires '0' <= c <= '9'
  {
    c as int - '0' as int
  }

  predicate IsDigits(s: string) {
    forall i :: 0 <= i < |s| ==> '0' <= s[i] <= '9'
  }

  /** The decimal rendering of a natural number, as a template literal gives it. */
  function Decimal(n: nat): (s: string)
    ensures 1 <= |s|
    ensures IsDigits(s)
    ensures n < 10 <==> |s| == 1
    ensures s[0] != '0' || n == 0
    decreases n
  {
    if n < 10 then [DigitChar(n)] else Decimal(n / 10) + [DigitChar(n % 10)]
  }

  /** Reads a string of decimal digits back as a number; the inverse of Decimal. */
  function Value(s: string): nat
    requires IsDigits(s)
  {
    if |s| == 0 then 0 else 10 * Value(s[..|s| - 1]) + DigitValue(s[|s| - 1])
  }

  lemma {:induction false} DecimalRoundTrip(n: nat)
    ensures Value(Decimal(n)) == n
    decreases n
  {
    var s := Decimal(n);
    if n < 10 {
      assert s[..0] == [];
    } else {
      DecimalRoundTrip(n / 10);
      assert s[..|s| - 1] == Decimal(n / 10);
    }
  }

  lemma DecimalInjective(a: nat, b: nat)
    ensures Decimal(a) == Decimal(b) <==> a == b
  {
    if Decimal(a) == Decimal(b) {
      DecimalRoundTrip(a);
      DecimalRoundTrip(b);
    }
  }

  lemma EveryDecimalReadsBack()
    ensures forall n: nat :: Value(Decimal(n)) == n
  {
    forall n: nat
      ensures Value(Decimal(n)) == n
    {
      DecimalRoundTrip(n);
    }
  }

  /** `s` is how a number is written in decimal: digits only, no leading zero, reading back as `n`. */
  predicate IsNumeralOf(s: string, n: nat) {
    && 1 <= |s|
    && IsDigits(s)
    && s[0] != '0'
    && Value(s) == n
  }

  lemma {:induction false} LeadingDigitMakesPositive(s: string)
    requires 1 <= |s| && IsDigits(s) && s[0] != '0'
    ensures Value(s) >= 1
    decreases |s|
  {
    if |s| > 1 {
      LeadingDigitMakesPositive(s[..|s| - 1]);
    }
  }

  /** A numeral of `n` can only be the decimal rendering of `n`. */
  lemma {:induction false} NumeralIsDecimal(s: string, n: nat)
    requires IsNumeralOf(s, n)
    ensures s == Decimal(n)
    decreases |s|
  {
    var last := s[|s| - 1];
    if |s| == 1 {
      assert Value(s[..0]) == 0;
      assert n == DigitValue(last);
      assert s == [DigitChar(n)];
    } else {
      var prefix := s[..|s| - 1];
      LeadingDigitMakesPositive(prefix);
      assert n / 10 == Value(prefix) && n % 10 == DigitValue(last);
      NumeralIsDecimal(prefix, n / 10);
      assert s == prefix + [last];
    }
  }

  predicate NoDuplicates<T(==)>(s: seq<T>) {
    forall i, j :: 0 <= i < j < |s| ==> s[i] != s[j]
  }

  /**
   The source items "1" .. "40": item i (from zero) is the decimal numeral of
   i + 1, so no item occurs twice.
   */
  function MockData(): (m: seq<string>)
    ensures |m| == SourceLength
    ensures m[0] == "1" && m[9] == "10" && m[39] == "40"
    ensures forall i :: 0 <= i < |m| ==> IsNumeralOf(m[i], i + 1)
    ensures NoDuplicates(m)
  {
    EveryDecimalReadsBack();
    assert Decimal(1) == "1";
    assert Decimal(10) == Decimal(1) + "0";
    assert Decimal(4) == "4";
    assert Decimal(40) == Decimal(4) + "0";
    seq(SourceLength, i requires 0 <= i => Decimal(i + 1))
  }

  /**
   Array slicing with non-negative bounds: both bounds are clamped to the
   length of the sequence, and an empty range gives the empty sequence.
   */
  function Slice<T>(s: seq<T>, start: nat, end: nat): (r: seq<T>)
    ensures |r| == Max(0, Min(end, |s|) - start)
    ensures forall i :: 0 <= i < |r| ==> start + i < |s| && r[i] == s[start + i]
    ensures start <= end <= |s| ==> r == s[start..end]
  {
    var lo := Min(start, |s|);
    var hi := Min(end, |s|);
    if hi <= lo then [] else s[lo..hi]
  }
}
