/** The JavaScript values that the IFPA client inspects, JavaScript's notion of
    truthiness, and the conversion of an integral number to its decimal text. */
module JsValues {

  /** A JavaScript value as far as the client looks at it. Objects and arrays
      that the client only passes along are `Obj`, compared by reference. */
  datatype Value =
    | Undefined
    | Null
    | Bool(b: bool)
    | Num(n: int)
    | Str(s: string)
    | Obj(ref: nat)

  /** JavaScript truthiness: `undefined`, `null`, `false`, `0` and `""` are falsy,
      every other value (any object, any array, even an empty one) is truthy. */
  predicate Truthy(v: Value)
    ensures !Truthy(v) <==> v == Undefined || v == Null || v == Bool(false) || v == Num(0) || v == Str("")
  {
    match v
    case Undefined => false
    case Null => false
    case Bool(b) => b
    case Num(n) => n != 0
    case Str(s) => s != ""
    case Obj(_) => true
  }

  predicate IsDigit(c: char) {
    '0' <= c <= '9'
  }

  function DigitChar(d: nat): (c: char)
    requires d < 10
    ensures IsDigit(c) && (c as int) - ('0' as int) == d
  {
    ['0', '1', '2', '3', '4', '5', '6', '7', '8', '9'][d]
  }

  /** The decimal digits of `n`, most significant first, without leading zeros. */
  function DecimalDigits(n: nat): (s: string)
    ensures |s| >= 1
    ensures forall i :: 0 <= i < |s| ==> IsDigit(s[i])
    ensures s[0] == '0' ==> n == 0
  {
    if n < 10 then [DigitChar(n)] else DecimalDigits(n / 10) + [DigitChar(n % 10)]
  }

  /** Reads back a string of decimal digits. */
  function ParseDecimal(s: string): nat
    requires forall i :: 0 <= i < |s| ==> IsDigit(s[i])
  {
    if s == [] then 0
    else
      assert IsDigit(s[|s| - 1]);
      ParseDecimal(s[..|s| - 1]) * 10 + ((s[|s| - 1] as int) - ('0' as int)) as nat
  }

  lemma {:induction false} DecimalRoundTrip(n: nat)
    ensures ParseDecimal(DecimalDigits(n)) == n
  {
    var s := DecimalDigits(n);
    if n >= 10 {
      DecimalRoundTrip(n / 10);
      assert s[..|s| - 1] == DecimalDigits(n / 10);
    }
  }

  /** `String(n)` for an integral JavaScript number: a minus sign for negative
      numbers, then the decimal digits of the magnitude. */
  function NumberToString(n: int): (s: string)
    ensures |s| >= 1
    ensures (s[0] == '-') <==> n < 0
  {
    if n < 0 then "-" + DecimalDigits(-n) else DecimalDigits(n)
  }

  /** Reads back the text `NumberToString` produces. */
  function ParseNumber(s: string): int
    requires |s| >= 1
    requires forall i :: 0 < i < |s| ==> IsDigit(s[i])
    requires s[0] != '-' ==> IsDigit(s[0])
  {
    if s[0] == '-' then 0 - ParseDecimal(s[1..]) as int else ParseDecimal(s)
  }

  lemma NumberRoundTrip(n: int)
    ensures var s := NumberToString(n);
      && (forall i :: 0 < i < |s| ==> IsDigit(s[i]))
      && (s[0] != '-' ==> IsDigit(s[0]))
      && ParseNumber(s) == n
  {
    var s := NumberToString(n);
    if n < 0 {
      var d := DecimalDigits(-n);
      assert s == "-" + d;
      assert s[1..] == d;
      DecimalRoundTrip(-n);
    } else {
      DecimalRoundTrip(n);
    }
  }

  /** Distinct numbers have distinct decimal texts. */
  lemma NumberToStringInjective(a: int, b: int)
    requires NumberToString(a) == NumberToString(b)
    ensures a == b
  {
    NumberRoundTrip(a);
    NumberRoundTrip(b);
  }
}
