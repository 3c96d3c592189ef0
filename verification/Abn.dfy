/** The Australian Business Number checksum. */
module Abn {

  type DigitValue = d: nat | d < 10

  /**
   * A character as the program's string methods see it: a decimal digit of any script with its value, a sign that
   * counts as a digit but has no decimal value (a superscript, say), or anything else.
   */
  datatype Symbol = Decimal(script: nat, value: DigitValue) | DigitSign(code: nat) | Other(code: nat)

  /** Eleven digit characters; the shape of anything else is another validator's business. */
  predicate HasShape(value: seq<Symbol>) { |value| == 11 && forall i :: 0 <= i < 11 ==> !value[i].Other? }

  /** Eleven decimal digits. */
  predicate IsNumber(value: seq<Symbol>) { |value| == 11 && forall i :: 0 <= i < 11 ==> value[i].Decimal? }

  datatype Verdict = Accepted | ChecksumFailed | ConversionRaised

  function Weight(i: nat): nat
    requires i < 11
  {
    if i == 0 then 10 else 2 * i - 1
  }

  /** The weighted sum of the first n digits, the very first one less one. */
  function WeightedSum(value: seq<Symbol>, n: nat): int
    requires IsNumber(value) && n <= 11
  {
    if n == 0 then 0
    else WeightedSum(value, n - 1) + (value[n - 1].value - if n == 1 then 1 else 0) * Weight(n - 1)
  }

  predicate Passes(value: seq<Symbol>)
    requires IsNumber(value)
  {
    WeightedSum(value, 11) % 89 == 0
  }

  /** Digit signs without a value pass the shape test and then make the conversion raise. */
  method ValidateAbnChecksum(value: seq<Symbol>) returns (verdict: Verdict)
    ensures verdict.ConversionRaised? <==> HasShape(value) && !IsNumber(value)
    ensures verdict.ChecksumFailed? <==> IsNumber(value) && !Passes(value)
  {
    if |value| != 11 {
      return Accepted;
    }
    for i := 0 to 11
      invariant forall k :: 0 <= k < i ==> !value[k].Other?
    {
      if value[i].Other? {
        return Accepted;
      }
    }
    var weights := [10, 1, 3, 5, 7, 9, 11, 13, 15, 17, 19];
    var digits := new int[11];
    for i := 0 to 11
      invariant forall k :: 0 <= k < i ==> value[k].Decimal? && digits[k] == value[k].value
    {
      if value[i].DigitSign? {
        return ConversionRaised;
      }
      digits[i] := value[i].value;
    }
    digits[0] := digits[0] - 1;
    var sum := 0;
    for i := 0 to 11
      invariant sum == WeightedSum(value, i)
      invariant forall k :: 0 <= k < 11 ==> digits[k] == value[k].value - if k == 0 then 1 else 0
    {
      sum := sum + digits[i] * weights[i];
    }
    verdict := if sum % 89 == 0 then Accepted else ChecksumFailed;
  }

  // ---- What the checksum catches ---------------------------------------------

  lemma {:induction false} ChangeMovesSum(value: seq<Symbol>, i: nat, c: Symbol, n: nat)
    requires IsNumber(value) && i < 11 && c.Decimal? && n <= 11
    ensures WeightedSum(value[i := c], n)
         == WeightedSum(value, n) + if i < n then (c.value - value[i].value) * Weight(i) else 0
  {
    if n > 0 {
      ChangeMovesSum(value, i, c, n - 1);
      if i == n - 1 {
        var first := if n == 1 then 1 else 0;
        Distribute(c.value - first, value[i].value - first, Weight(i));
      }
    }
  }

  lemma Distribute(a: int, b: int, w: int)
    ensures a * w == b * w + (a - b) * w
  {
  }

  /** 89 is prime and larger than any digit or weight, so it divides no product of the two. */
  lemma NoFactor(d: int, w: int)
    requires -9 <= d <= 9 && d != 0 && -18 <= w <= 19 && w != 0
    ensures (d * w) % 89 != 0
  {
    match d
    case -9 => case -8 => case -7 => case -6 => case -5 => case -4 => case -3 => case -2 => case -1 =>
    case 1 => case 2 => case 3 => case 4 => case 5 => case 6 => case 7 => case 8 => case _ =>
  }

  lemma ShiftedSumFails(sum: int, change: int)
    requires sum % 89 == 0 && change % 89 != 0
    ensures (sum + change) % 89 != 0
  {
  }

  /** Mistyping any one digit of a valid number is caught. */
  lemma OneWrongDigitFails(value: seq<Symbol>, i: nat, c: Symbol)
    requires IsNumber(value) && Passes(value) && i < 11 && c.Decimal? && c.value != value[i].value
    ensures !Passes(value[i := c])
  {
    ChangeMovesSum(value, i, c, 11);
    NoFactor(c.value - value[i].value, Weight(i));
    ShiftedSumFails(WeightedSum(value, 11), (c.value - value[i].value) * Weight(i));
  }

  lemma Regroup(d: int, v: int, w: int)
    ensures d * v + (-d) * w == d * (v - w)
  {
  }

  /** Swapping any two different digits of a valid number, however far apart, is caught. */
  lemma SwapFails(value: seq<Symbol>, i: nat, j: nat)
    requires IsNumber(value) && Passes(value) && i < j < 11 && value[i].value != value[j].value
    ensures !Passes(value[i := value[j]][j := value[i]])
  {
    var d := value[j].value - value[i].value;
    ChangeMovesSum(value, i, value[j], 11);
    ChangeMovesSum(value[i := value[j]], j, value[i], 11);
    Regroup(d, Weight(i), Weight(j));
    NoFactor(d, Weight(i) - Weight(j));
    ShiftedSumFails(WeightedSum(value, 11), d * (Weight(i) - Weight(j)));
  }
}
