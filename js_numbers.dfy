/** The JavaScript numbers the source reads out of text: `+s` / `Number(s)`
    on strings of decimal digits with at most one decimal point, NaN for
    anything else, and the NaN-aware arithmetic and comparisons the source
    applies to the result. */
module JsNumbers {
  import opened Text

  datatype JsNum = Num(value: real) | NaN

  function Pow10(k: nat): (p: nat)
    ensures p >= 1
  {
    if k == 0 then 1 else 10 * Pow10(k - 1)
  }

  /** Digits and dots only, at most one dot, and at least one digit. */
  predicate IsNumeral(s: string) {
    && (forall i :: 0 <= i < |s| ==> IsDigit(s[i]) || s[i] == '.')
    && Count(s, '.') <= 1
    && exists i :: 0 <= i < |s| && IsDigit(s[i])
  }

  lemma DigitsAround(s: string)
    requires forall i :: 0 <= i < |s| ==> IsDigit(s[i]) || s[i] == '.'
    requires '.' in s && Count(s, '.') == 1
    ensures IsDigits(s[..IndexOf(s, '.')]) && IsDigits(s[IndexOf(s, '.') + 1..])
  {
    var i := IndexOf(s, '.');
    CountSplit(s, i);
    CountPositive(s[i + 1..], '.');
  }

  lemma {:induction false} CountSplit(s: string, i: nat)
    requires i < |s| && s[i] == '.'
    ensures Count(s, '.') == Count(s[..i], '.') + 1 + Count(s[i + 1..], '.')
  {
    if i > 0 {
      CountSplit(s[1..], i - 1);
      assert s[1..][..i - 1] == s[1..i];
      assert s[..i][1..] == s[1..i];
      assert s[1..][i..] == s[i + 1..];
    }
  }

  lemma NoDotDigits(s: string)
    requires forall i :: 0 <= i < |s| ==> IsDigit(s[i]) || s[i] == '.'
    requires Count(s, '.') == 0
    ensures IsDigits(s)
  {
    CountPositive(s, '.');
    assert forall i :: 0 <= i < |s| ==> s[i] != '.';
  }

  /** `Number(s)` on unsigned decimal numerals: "" is 0, digits with at most
      one dot are their decimal value, anything else is NaN. Signs,
      exponents, surrounding whitespace, hexadecimal and "Infinity", which
      JavaScript also reads as numbers, are not covered. */
  function ToNumber(s: string): (n: JsNum)
    ensures s == "" ==> n == Num(0.0)
    ensures s != "" && !IsNumeral(s) ==> n == NaN
    ensures n.Num? ==> n.value >= 0.0
  {
    if s == "" then Num(0.0)
    else if !IsNumeral(s) then NaN
    else if Count(s, '.') == 0 then
      NoDotDigits(s);
      Num(DigitsValue(s) as real)
    else
      CountPositive(s, '.');
      DigitsAround(s);
      var i := IndexOf(s, '.');
      var whole, fraction := s[..i], s[i + 1..];
      Num(DigitsValue(whole) as real + DigitsValue(fraction) as real / Pow10(|fraction|) as real)
  }

  /** `+NatToString(n)` is `n`: a rendered count reads back as itself. */
  lemma NumberOfNatToString(n: nat)
    ensures ToNumber(NatToString(n)) == Num(n as real)
  {
    var s := NatToString(n);
    DigitsHaveNo(s, '.');
    CountPositive(s, '.');
    assert IsDigit(s[0]);
    NatToStringValue(n);
  }

  function Times(k: real, x: JsNum): JsNum {
    match x
    case Num(v) => Num(k * v)
    case NaN => NaN
  }

  /** `x > bound`; every comparison with NaN is false. */
  predicate Above(x: JsNum, bound: real) {
    x.Num? && x.value > bound
  }
}
