/** JavaScript's `Number(text)` conversion, for the integer texts the forms
    hold, and the pages' `Number(v) || 0` coercion. */
module JsNumber {
  import opened JsString

  /** The result of `Number(text)`: a number, or NaN. */
  datatype NumberValue = Num(n: int) | NaN

  predicate IsDigit(c: char) {
    '0' <= c <= '9'
  }

  predicate AllDigits(d: string) {
    forall i :: 0 <= i < |d| ==> IsDigit(d[i])
  }

  function DigitValue(c: char): (v: nat)
    requires IsDigit(c)
    ensures v < 10
  {
    c as int - '0' as int
  }

  /** The value of a run of decimal digits, read left to right. */
  function DigitsValue(d: string): (v: nat)
    requires AllDigits(d)
  {
    if d == [] then 0 else DigitsValue(d[..|d| - 1]) * 10 + DigitValue(d[|d| - 1])
  }

  /** `Number(s)`: surrounding whitespace is ignored, a blank text is 0, an
      optionally signed run of decimal digits is its value, and anything else
      is NaN. */
  function ParseNumber(s: string): (r: NumberValue)
    ensures IsBlank(s) ==> r == Num(0)
  {
    var t := Trim(s);
    if t == "" then Num(0)
    else if t[0] == '-' && |t| > 1 && AllDigits(t[1..]) then Num(-(DigitsValue(t[1..]) as int))
    else if t[0] == '+' && |t| > 1 && AllDigits(t[1..]) then Num(DigitsValue(t[1..]))
    else if AllDigits(t) then Num(DigitsValue(t))
    else NaN
  }

  /** `Number(v) || 0`: NaN (and 0) become 0, any other number stays. */
  function NumberOrZero(v: string): (r: int)
    ensures IsBlank(v) ==> r == 0
    ensures ParseNumber(v).NaN? ==> r == 0
  {
    match ParseNumber(v)
    case Num(n) => n
    case NaN => 0
  }

  /** The decimal text of a natural number, as `toString` writes it. */
  function Decimal(n: nat): (d: string)
    ensures d != [] && AllDigits(d)
    ensures DigitsValue(d) == n
    decreases n
  {
    var last := ['0' + (n % 10) as char];
    if n < 10 then last
    else
      var d := Decimal(n / 10) + last;
      assert d[..|d| - 1] == Decimal(n / 10);
      d
  }

  /** The text `toString` gives an integer. */
  function IntToString(n: int): (s: string)
    ensures s != [] && !IsSpace(s[0]) && !IsSpace(s[|s| - 1])
  {
    if n < 0 then "-" + Decimal(-n) else Decimal(n)
  }

  /** A text without surrounding whitespace is its own trim. */
  lemma TrimOfUnpadded(s: string)
    requires s != [] && !IsSpace(s[0]) && !IsSpace(s[|s| - 1])
    ensures Trim(s) == s
  {
    assert SkipSpaces(s, 0) == 0;
    assert SkipSpacesBack(s, 0, |s|) == |s|;
    assert s[0..|s|] == s;
  }

  /** `Number(String(n)) == n`: converting an integer to text and back gives
      the integer. */
  lemma {:induction false} ParseIntToString(n: int)
    ensures ParseNumber(IntToString(n)) == Num(n)
  {
    var s := IntToString(n);
    TrimOfUnpadded(s);
    if n < 0 {
      assert s[1..] == Decimal(-n);
    }
  }

  /** The `Number(v) || 0` coercion also gives back an integer's own text. */
  lemma NumberOrZeroIntToString(n: int)
    ensures NumberOrZero(IntToString(n)) == n
  {
    ParseIntToString(n);
  }

  /** Text that is not a number is coerced to 0. */
  lemma NumberOrZeroOfWord()
    ensures NumberOrZero("abc") == 0
  {
    TrimOfUnpadded("abc");
    assert !IsDigit("abc"[0]);
  }

  /** Whitespace around a number is ignored. */
  lemma NumberOrZeroOfPadded()
    ensures NumberOrZero(" 12 ") == 12
  {
    var p := " 12 ";
    assert SkipSpaces(p, 0) == 1;
    assert SkipSpacesBack(p, 1, 4) == 3;
    var t := Trim(p);
    assert t == p[1..3] == "12";
    assert AllDigits(t) && t[0] != '-' && t[0] != '+';
    assert "12"[..1] == "1" && "1"[..0] == "";
    assert DigitsValue("12") == 12;
    assert ParseNumber(p) == Num(12);
  }
}
