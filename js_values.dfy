/** JavaScript runtime behaviour that the quotes component relies on:
    optional route parameters and their truthiness, `Array.prototype.indexOf`
    over strings, and the text of an integer as the router writes it into a
    URL together with a decimal reading of such text. */
module JsValues {

  datatype Option<+T> = None | Some(value: T)

  /** A route parameter is truthy when it is there and is not the empty
      string (route parameters are always strings). */
  predicate Supplied(p: Option<string>)
    ensures Supplied(p) ==> p.Some? && |p.value| > 0
  {
    p.Some? && p.value != ""
  }

  /** `xs.indexOf(x)`: the first index holding `x`, or -1 when there is none. */
  function IndexOf(xs: seq<string>, x: string): (r: int)
    ensures -1 <= r < |xs|
    ensures r == -1 <==> x !in xs
    ensures 0 <= r ==> xs[r] == x && x !in xs[..r]
  {
    if |xs| == 0 then -1
    else if xs[0] == x then 0
    else
      var k := IndexOf(xs[1..], x);
      if k == -1 then -1 else k + 1
  }

  predicate IsDigit(c: char) {
    '0' <= c <= '9'
  }

  predicate AllDigits(s: string) {
    forall i :: 0 <= i < |s| ==> IsDigit(s[i])
  }

  function DigitChar(d: int): (c: char)
    requires 0 <= d < 10
    ensures IsDigit(c) && c as int - '0' as int == d
  {
    ('0' as int + d) as char
  }

  /** The decimal digits of `n`, most significant first, no leading zero. */
  function Digits(n: nat): (s: string)
    ensures |s| >= 1 && AllDigits(s)
    ensures |s| > 1 ==> s[0] != '0'
    decreases n
  {
    if n < 10 then [DigitChar(n)] else Digits(n / 10) + [DigitChar(n % 10)]
  }

  /** The value of a string of decimal digits (leading zeros allowed). */
  function DigitsValue(s: string): nat
    requires AllDigits(s)
    decreases |s|
  {
    if |s| == 0 then 0
    else DigitsValue(s[..|s| - 1]) * 10 + (s[|s| - 1] as int - '0' as int)
  }

  /** `String(n)` for an integer `n`: an optional minus sign and the digits. */
  function IntText(n: int): (s: string)
    ensures s != ""
  {
    if n < 0 then "-" + Digits(-n) else Digits(n)
  }

  /** Unary `+` restricted to an optional minus sign followed by decimal
      digits; every other text yields None here. */
  function DecimalNumber(s: string): (r: Option<int>)
    ensures r.Some? ==> s != ""
    ensures s != "" && AllDigits(s) ==> r == Some(DigitsValue(s))
  {
    if s != "" && AllDigits(s) then Some(DigitsValue(s))
    else if |s| > 1 && s[0] == '-' && AllDigits(s[1..]) then Some(-(DigitsValue(s[1..]) as int))
    else None
  }

  /** A numeric conversion that reads back the text of every integer. */
  ghost predicate ReadsDecimals(convert: string -> Option<int>) {
    forall n: int :: convert(IntText(n)) == Some(n)
  }

  lemma {:induction false} DigitsRoundTrip(n: nat)
    ensures DigitsValue(Digits(n)) == n
    decreases n
  {
    if n >= 10 {
      var s := Digits(n);
      assert s[..|s| - 1] == Digits(n / 10);
      DigitsRoundTrip(n / 10);
    }
  }

  lemma IntTextRoundTrip(n: int)
    ensures DecimalNumber(IntText(n)) == Some(n)
  {
    if n < 0 {
      var d := Digits(-n);
      var s := "-" + d;
      assert s == IntText(n);
      assert s[1..] == d;
      assert !AllDigits(s) by { assert !IsDigit(s[0]); }
      DigitsRoundTrip(-n);
    } else {
      DigitsRoundTrip(n);
    }
  }

  lemma DecimalNumberReadsDecimals()
    ensures ReadsDecimals(DecimalNumber)
  {
    forall n: int ensures DecimalNumber(IntText(n)) == Some(n) {
      IntTextRoundTrip(n);
    }
  }
}
