// The auction server's text helpers (utils.js): a value from a request or a
// database row turned into a string, with undefined and null becoming the
// empty string, and the same applied to every element of an array.
module JsUtils {

  /** Numbers below 10^21 in magnitude, which `toString` writes in plain
      decimal rather than in exponent form. */
  const PLAIN_LIMIT: int := 1_000_000_000_000_000_000_000

  type PlainInteger = n: int | -PLAIN_LIMIT < n < PLAIN_LIMIT

  /** The JavaScript values these helpers meet: strings, integral numbers,
      booleans, plain objects and arrays, besides `undefined` and `null`. */
  datatype JsValue =
    | Undefined
    | Null
    | Str(s: string)
    | Num(n: PlainInteger)
    | Bool(b: bool)
    | Obj
    | Arr(elements: seq<JsValue>)

  /** The decimal digit for 0..9. */
  function DigitChar(d: int): (c: char)
    requires 0 <= d < 10
    ensures '0' <= c <= '9' && c as int - '0' as int == d
  {
    ('0' as int + d) as char
  }

  /** The decimal digits of a natural number, most significant first, as
      `Number.prototype.toString` writes them. */
  function Digits(n: nat): (r: string)
    ensures |r| > 0 && forall i :: 0 <= i < |r| ==> '0' <= r[i] <= '9'
  {
    if n < 10 then [DigitChar(n)] else Digits(n / 10) + [DigitChar(n % 10)]
  }

  /** The number a string of decimal digits denotes. */
  function DigitsValue(s: string): nat
    requires forall i :: 0 <= i < |s| ==> '0' <= s[i] <= '9'
  {
    if |s| == 0 then 0
    else DigitsValue(s[..|s| - 1]) * 10 + (s[|s| - 1] as int - '0' as int)
  }

  /** Reading the digits back gives the number. */
  lemma {:induction false} DigitsRoundTrip(n: nat)
    ensures DigitsValue(Digits(n)) == n
  {
    if n >= 10 {
      var r := Digits(n);
      assert r[..|r| - 1] == Digits(n / 10);
      DigitsRoundTrip(n / 10);
    }
  }

  /** `toString` on a number: a minus sign before a negative number's digits. */
  function NumberToString(n: PlainInteger): (r: string)
    ensures |r| > 0
    ensures n >= 0 ==> r == Digits(n)
    ensures n < 0 ==> r[0] == '-' && r[1..] == Digits(-n)
  {
    if n < 0 then "-" + Digits(-n) else Digits(n)
  }

  /** The integer a string written by NumberToString denotes. */
  function ParseNumber(s: string): int
    requires |s| > 0
    requires forall i :: 0 < i < |s| ==> '0' <= s[i] <= '9'
    requires s[0] == '-' ==> |s| > 1
    requires s[0] != '-' ==> '0' <= s[0] <= '9'
  {
    if s[0] == '-' then 0 - DigitsValue(s[1..]) else DigitsValue(s)
  }

  /** Numbers survive being written as text. */
  lemma NumberRoundTrip(n: PlainInteger)
    ensures ParseNumber(NumberToString(n)) == n
  {
    if n < 0 {
      DigitsRoundTrip(-n);
    } else {
      DigitsRoundTrip(n);
    }
  }

  /** `Array.prototype.join` with its default separator: the parts with a
      comma between each two. */
  function JoinComma(parts: seq<string>): (r: string)
    ensures |r| >= |parts| - 1
  {
    if |parts| == 0 then ""
    else if |parts| == 1 then parts[0]
    else JoinComma(parts[..|parts| - 1]) + "," + parts[|parts| - 1]
  }

  /** `parseText`: the empty string for `undefined` and `null`, otherwise
      the value's `toString()`. An array's `toString` joins its elements,
      each written as `parseText` writes it, with commas; a plain object
      is written as `[object Object]`. */
  function ParseText(text: JsValue): (r: string)
    ensures text.Str? ==> r == text.s
    ensures text.Num? ==> r == NumberToString(text.n)
    ensures text.Bool? ==> r == (if text.b then "true" else "false")
    ensures text.Obj? ==> r == "[object Object]"
    ensures text.Arr? && |text.elements| == 1 ==> r == ParseText(text.elements[0])
    ensures r == "" <==>
              text == Undefined || text == Null || text == Str("") ||
              (text.Arr? && (|text.elements| == 0 ||
                             (|text.elements| == 1 && ParseText(text.elements[0]) == "")))
  {
    match text
    case Undefined => ""
    case Null => ""
    case Str(s) => s
    case Num(n) => NumberToString(n)
    case Bool(b) => if b then "true" else "false"
    case Obj => "[object Object]"
    case Arr(elements) => JoinComma(ElementTexts(elements))
  }

  /** `parseText` of each element of an array, in order. */
  function ElementTexts(elements: seq<JsValue>): (r: seq<string>)
    ensures |r| == |elements|
    decreases elements, 0
  {
    if |elements| == 0 then []
    else ElementTexts(elements[..|elements| - 1]) + [ParseText(elements[|elements| - 1])]
  }

  /** Element `i` of ElementTexts is `parseText` of element `i`. */
  lemma {:induction false} ElementTextsAt(elements: seq<JsValue>)
    ensures forall i :: 0 <= i < |elements| ==> ElementTexts(elements)[i] == ParseText(elements[i])
  {
    if |elements| > 0 {
      ElementTextsAt(elements[..|elements| - 1]);
    }
  }

  /** Parsing a parsed value changes nothing more. */
  lemma ParseTextIdempotent(text: JsValue)
    ensures ParseText(Str(ParseText(text))) == ParseText(text)
  {
  }

  /** `parseTextArray`: a new array holding `parseText` of each element. */
  method ParseTextArray(arrayToParse: seq<JsValue>) returns (newArray: seq<string>)
    ensures |newArray| == |arrayToParse|
    ensures forall i :: 0 <= i < |arrayToParse| ==> newArray[i] == ParseText(arrayToParse[i])
    // joined with commas, the parsed elements are the array's own text
    ensures JoinComma(newArray) == ParseText(Arr(arrayToParse))
  {
    newArray := [];
    var i := 0;
    while i < |arrayToParse|
      invariant 0 <= i <= |arrayToParse| && |newArray| == i
      invariant forall k :: 0 <= k < i ==> newArray[k] == ParseText(arrayToParse[k])
    {
      newArray := newArray + [ParseText(arrayToParse[i])];
      i := i + 1;
    }
    ElementTextsAt(arrayToParse);
    assert newArray == ElementTexts(arrayToParse);
  }
}
