/** Numbers as decimal text: the printer and the reader are inverse, and each digit stands for its power of ten. */
module Decimals {
  import opened Common

  function DigitValue(c: char): int { c as int - '0' as int }

  function Pow10(k: nat): nat {
    if k == 0 then 1 else 10 * Pow10(k - 1)
  }

  /** Every digit counts its value times ten to the number of digits behind it. */
  function PlaceValues(s: string): int {
    if s == "" then 0 else DigitValue(s[0]) * Pow10(|s| - 1) + PlaceValues(s[1..])
  }

  lemma {:induction false} PlacesOfFront(front: string, c: char)
    ensures PlaceValues(front + [c]) == 10 * PlaceValues(front) + DigitValue(c)
    decreases front
  {
    var s := front + [c];
    if front == "" {
      assert s[1..] == "" && Pow10(0) == 1;
    } else {
      assert s[0] == front[0] && s[1..] == front[1..] + [c];
      PlacesOfFront(front[1..], c);
      var v, p := DigitValue(front[0]), Pow10(|front| - 1);
      assert Pow10(|front|) == 10 * p;
      TimesTen(v, p);
    }
  }

  lemma TimesTen(v: int, p: int)
    ensures v * (10 * p) == 10 * (v * p)
  {
  }

  /** Reading a text of digits adds up its place values, leading zeros included. */
  lemma {:induction false} DigitsArePlaces(s: string)
    ensures Digits(s) == PlaceValues(s)
    decreases |s|
  {
    if s != "" {
      var n := |s| - 1;
      DigitsArePlaces(s[..n]);
      PlacesOfFront(s[..n], s[n]);
      assert s == s[..n] + [s[n]];
    }
  }

  lemma DigitIsRead(n: nat)
    requires n < 10
    ensures |DecimalDigit(n)| == 1 && IsDigit(DecimalDigit(n)[0]) && DigitValue(DecimalDigit(n)[0]) == n
  {
    var digits := "0123456789";
    assert digits[0] == '0' && digits[1] == '1' && digits[2] == '2' && digits[3] == '3' && digits[4] == '4';
    assert digits[5] == '5' && digits[6] == '6' && digits[7] == '7' && digits[8] == '8' && digits[9] == '9';
  }

  lemma DigitsOfFront(front: string, c: char)
    ensures Digits(front + [c]) == 10 * Digits(front) + DigitValue(c)
  {
    var s := front + [c];
    assert s[..|s| - 1] == front;
  }

  /** The decimal text of a number consists of digits and is read as that number. */
  lemma {:induction false} DecimalIsRead(n: nat)
    ensures Decimal(n) != "" && AllDigits(Decimal(n)) && Digits(Decimal(n)) == n
    decreases n
  {
    if n < 10 {
      DigitIsRead(n);
      assert Decimal(n) == "" + [Decimal(n)[0]];
      DigitsOfFront("", Decimal(n)[0]);
    } else {
      DecimalIsRead(n / 10);
      DigitIsRead(n % 10);
      var c := DecimalDigit(n % 10)[0];
      assert DecimalDigit(n % 10) == [c];
      DigitsOfFront(Decimal(n / 10), c);
    }
  }

  /** It has no leading zero, apart from zero itself. */
  lemma {:induction false} NoLeadingZero(n: nat)
    ensures Decimal(n) != "" && (n > 0 ==> Decimal(n)[0] != '0')
    decreases n
  {
    if n < 10 {
      DigitIsRead(n);
    } else {
      NoLeadingZero(n / 10);
    }
  }

  lemma DecimalTellsApart(m: nat, n: nat)
    ensures Decimal(m) == Decimal(n) <==> m == n
  {
    DecimalIsRead(m);
    DecimalIsRead(n);
  }
}
