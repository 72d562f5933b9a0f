/**
 * validate_national_code: the Iranian national identification number is
 * ten digits whose last digit is a weighted mod-11 check digit of the
 * first nine.  Only ASCII digits are modelled.
 */
module NationalCode {
  import opened Models

  datatype CodeError = NotTenDigits | BadChecksum

  datatype CodeCheck = Accepted | Rejected(error: CodeError)

  function DigitValue(c: char): (d: nat)
    requires IsDigit(c)
    ensures d < 10
  {
    (c as int) - ('0' as int)
  }

  function DigitChar(d: nat): (c: char)
    requires d < 10
    ensures IsDigit(c) && DigitValue(c) == d
  {
    (('0' as int) + d) as char
  }

  predicate DigitsUpTo(v: string, n: nat)
  {
    n <= |v| && forall i :: 0 <= i < n ==> IsDigit(v[i])
  }

  /** The sum of v[i] * (10 - i) over i < n. */
  function WeightedSum(v: string, n: nat): nat
    requires n <= 10 && DigitsUpTo(v, n)
  {
    if n == 0 then 0 else WeightedSum(v, n - 1) + DigitValue(v[n - 1]) * (10 - (n - 1))
  }

  /** The weighted sum of the first n digits depends on those digits only. */
  lemma {:induction false} WeightedSumOfPrefix(v: string, w: string, n: nat)
    requires n <= 10 && DigitsUpTo(v, n) && DigitsUpTo(w, n)
    requires v[..n] == w[..n]
    ensures WeightedSum(v, n) == WeightedSum(w, n)
  {
    if n > 0 {
      assert v[..n - 1] == v[..n][..n - 1] && w[..n - 1] == w[..n][..n - 1];
      assert v[n - 1] == v[..n][n - 1] && w[n - 1] == w[..n][n - 1];
      WeightedSumOfPrefix(v, w, n - 1);
    }
  }

  /** The check digit that the first nine digits of v call for. */
  function CheckDigit(v: string): (d: nat)
    requires DigitsUpTo(v, 9)
    ensures d < 10
  {
    var s := WeightedSum(v, 9) % 11;
    if s < 2 then s else 11 - s
  }

  /** validate_national_code(value): returns normally or raises one of two validation errors. */
  function ValidateNationalCode(v: string): CodeCheck
  {
    if |v| != 10 || !AllDigits(v) then Rejected(NotTenDigits)
    else
      var check := DigitValue(v[9]);
      var s := WeightedSum(v, 9) % 11;
      if (s < 2 && check == s) || (s >= 2 && check == 11 - s) then Accepted
      else Rejected(BadChecksum)
  }

  /** Anything but ten digits is rejected with the length error, before the checksum. */
  lemma RejectsMalformed(v: string)
    ensures ValidateNationalCode(v) == Rejected(NotTenDigits) <==> !(|v| == 10 && AllDigits(v))
  {
  }

  /** A ten-digit code is accepted iff its last digit is the check digit of the first nine. */
  lemma AcceptedIffCheckDigit(v: string)
    requires |v| == 10 && AllDigits(v)
    ensures ValidateNationalCode(v) == Accepted <==> DigitValue(v[9]) == CheckDigit(v)
    ensures ValidateNationalCode(v) != Accepted ==> ValidateNationalCode(v) == Rejected(BadChecksum)
  {
  }

  /** Every nine-digit prefix has exactly one accepting last digit. */
  lemma ExactlyOneCheckDigit(prefix: string)
    requires |prefix| == 9 && AllDigits(prefix)
    ensures ValidateNationalCode(prefix + [DigitChar(CheckDigit(prefix))]) == Accepted
    ensures forall c :: IsDigit(c) && ValidateNationalCode(prefix + [c]) == Accepted ==>
      c == DigitChar(CheckDigit(prefix))
  {
    forall c | IsDigit(c)
      ensures ValidateNationalCode(prefix + [c]) == Accepted <==> c == DigitChar(CheckDigit(prefix))
    {
      var v := prefix + [c];
      assert v[..9] == prefix[..9];
      WeightedSumOfPrefix(v, prefix, 9);
      assert v[9] == c;
      AcceptedIffCheckDigit(v);
      assert DigitValue(c) == CheckDigit(prefix) <==> c == DigitChar(CheckDigit(prefix));
    }
  }
}
