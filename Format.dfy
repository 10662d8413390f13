/** `pad0(n)` (script.js, lines 242-244): a direction written with at least three
    digits, zero-padded on the left, for a whole number that is not negative. */
module Format {

  predicate IsDigit(c: char) {
    '0' <= c <= '9'
  }

  function DigitChar(d: nat): (c: char)
    requires d < 10
    ensures IsDigit(c)
  {
    ('0' as int + d) as char
  }

  function DigitValue(c: char): nat
    requires IsDigit(c)
  {
    c as int - '0' as int
  }

  /** `n.toString()` for a whole number that is not negative: its decimal digits, with no
      leading zero except for 0 itself. */
  function Decimal(n: nat): (s: string)
    ensures 1 <= |s|
    ensures forall i :: 0 <= i < |s| ==> IsDigit(s[i])
    ensures |s| > 1 ==> s[0] != '0'
    ensures n < 10 <==> |s| == 1
    ensures n < 100 <==> |s| <= 2
  {
    if n < 10 then [DigitChar(n)] else Decimal(n / 10) + [DigitChar(n % 10)]
  }

  function Zeros(k: nat): (s: string)
    ensures |s| == k
    ensures forall i :: 0 <= i < k ==> s[i] == '0'
  {
    if k == 0 then [] else Zeros(k - 1) + ['0']
  }

  /** `n.toString().padStart(3, '0')`. */
  function Pad0(n: nat): (s: string)
    ensures |s| == if |Decimal(n)| < 3 then 3 else |Decimal(n)|
    ensures s[|s| - |Decimal(n)|..] == Decimal(n)
    ensures forall i :: 0 <= i < |s| - |Decimal(n)| ==> s[i] == '0'
  {
    var digits := Decimal(n);
    if |digits| < 3 then Zeros(3 - |digits|) + digits else digits
  }

  /** The number a string of digits denotes. */
  function Value(s: string): nat
    requires forall i :: 0 <= i < |s| ==> IsDigit(s[i])
  {
    if s == [] then 0 else 10 * Value(s[..|s| - 1]) + DigitValue(s[|s| - 1])
  }

  /** The decimal digits denote the number they were written from. */
  lemma {:induction false} ValueOfDecimal(n: nat)
    ensures Value(Decimal(n)) == n
  {
    if n >= 10 {
      ValueOfDecimal(n / 10);
      var s := Decimal(n);
      assert s[..|s| - 1] == Decimal(n / 10);
    }
  }

  /** Leading zeros do not change the number denoted. */
  lemma {:induction false} ValueOfZeroPrefix(k: nat, s: string)
    requires forall i :: 0 <= i < |s| ==> IsDigit(s[i])
    ensures forall i :: 0 <= i < |Zeros(k) + s| ==> IsDigit((Zeros(k) + s)[i])
    ensures Value(Zeros(k) + s) == Value(s)
  {
    var z := Zeros(k) + s;
    assert forall i :: 0 <= i < |z| ==> IsDigit(z[i]) by {
      forall i | 0 <= i < |z| ensures IsDigit(z[i]) {
        if i < k { assert z[i] == '0'; } else { assert z[i] == s[i - k]; }
      }
    }
    if s == [] {
      assert z == Zeros(k);
      ValueOfZeros(k);
    } else {
      ValueOfZeroPrefix(k, s[..|s| - 1]);
      assert z[..|z| - 1] == Zeros(k) + s[..|s| - 1];
    }
  }

  lemma {:induction false} ValueOfZeros(k: nat)
    ensures Value(Zeros(k)) == 0
  {
    if k > 0 {
      ValueOfZeros(k - 1);
      assert Zeros(k)[..k - 1] == Zeros(k - 1);
    }
  }

  /** Padding is reversible: the padded text still denotes `n`. */
  lemma Pad0RoundTrip(n: nat)
    ensures forall i :: 0 <= i < |Pad0(n)| ==> IsDigit(Pad0(n)[i])
    ensures Value(Pad0(n)) == n
  {
    var digits := Decimal(n);
    ValueOfDecimal(n);
    if |digits| < 3 {
      ValueOfZeroPrefix(3 - |digits|, digits);
    }
  }

  /** Numbers below 100 gain leading zeros up to three digits; longer ones are unchanged. */
  lemma Pad0Examples()
    ensures Pad0(0) == "000" && Pad0(5) == "005" && Pad0(90) == "090"
    ensures Pad0(270) == "270" && Pad0(1234) == "1234"
  {
    assert Decimal(90) == "90";
    assert Decimal(270) == "270";
    assert Decimal(1234) == "1234";
  }
}
