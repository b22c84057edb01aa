/** The dynamically typed values a query template is filled with, and the
    few pieces of PHP's type juggling that the parser relies on. */
module PhpValues {

  /** The IEEE-754 bit pattern of a PHP float. The model never looks inside it. */
  type FloatBits = bv64

  const ZeroBits: FloatBits := 0
  const OneBits: FloatBits := 0x3FF0_0000_0000_0000

  /** A PHP array key: PHP normalises every key to an int or a string. */
  datatype Key = IntKey(n: int) | StrKey(s: string)

  /** A PHP parameter or skip value: null, a scalar or an array (objects
      and resources are not modelled). An array is its entries in iteration
      order: a list is an array whose keys are 0, 1, 2, ... in order. */
  datatype Value =
    | Null
    | Bool(b: bool)
    | Int(i: int)
    | Float(bits: FloatBits)
    | Str(s: string)
    | Arr(entries: seq<(Key, Value)>)

  /** What the parser takes from its surroundings and does not define itself:
      the driver's string escaping and PHP's conversions that involve floats
      or the parsing of numeric strings. */
  datatype Runtime = Runtime(
    escape: string -> string,             // mysqli::real_escape_string
    floatText: FloatBits -> string,       // (string) of a float
    floatToInt: FloatBits -> int,         // (int) of a float
    stringToInt: string -> int,           // (int) of a string
    intToFloat: int -> FloatBits,         // (float) of an int
    stringToFloat: string -> FloatBits)   // (float) of a string

  /** PHP's `array_is_list`: the keys are exactly 0, 1, ..., n-1, in that order. */
  predicate IsList(entries: seq<(Key, Value)>) {
    forall k :: 0 <= k < |entries| ==> entries[k].0 == IntKey(k)
  }

  /** The list `[v0, v1, ...]` as a PHP array. */
  function ListOf(vs: seq<Value>): (r: seq<(Key, Value)>)
    ensures |r| == |vs| && IsList(r)
    ensures forall k :: 0 <= k < |vs| ==> r[k].1 == vs[k]
  {
    seq(|vs|, k requires 0 <= k < |vs| => (IntKey(k), vs[k]))
  }

  /** `$a . $b` with an `implode` separator: the parts joined by `sep`. */
  function Join(sep: string, parts: seq<string>): string
  {
    if |parts| == 0 then ""
    else if |parts| == 1 then parts[0]
    else parts[0] + sep + Join(sep, parts[1..])
  }

  /** `implode('', $tokens)`. */
  function Concat(tokens: seq<string>): string
  {
    if |tokens| == 0 then "" else tokens[0] + Concat(tokens[1..])
  }

  lemma {:induction false} ConcatAppend(a: seq<string>, b: seq<string>)
    ensures Concat(a + b) == Concat(a) + Concat(b)
  {
    if |a| == 0 {
      assert a + b == b;
    } else {
      assert (a + b)[1..] == a[1..] + b;
      ConcatAppend(a[1..], b);
    }
  }

  lemma {:induction false} JoinSnoc(sep: string, parts: seq<string>, last: string)
    requires |parts| > 0
    ensures Join(sep, parts + [last]) == Join(sep, parts) + sep + last
  {
    if |parts| == 1 {
      assert (parts + [last])[1..] == [last];
    } else {
      assert (parts + [last])[1..] == parts[1..] + [last];
      JoinSnoc(sep, parts[1..], last);
    }
  }

  // ---------------------------------------------------------------------
  // Decimal numerals: PHP's (string) of an int, and its inverse.

  function DigitChar(d: nat): (c: char)
    requires d < 10
    ensures '0' <= c <= '9'
  {
    "0123456789"[d]
  }

  function DigitValue(c: char): (d: nat)
    requires '0' <= c <= '9'
    ensures d < 10 && DigitChar(d) == c
  {
    (c as int - '0' as int) as nat
  }

  predicate AllDigits(s: string) {
    forall k :: 0 <= k < |s| ==> '0' <= s[k] <= '9'
  }

  /** The decimal numeral of a natural number, most significant digit first. */
  function NatText(n: nat): (s: string)
    ensures |s| > 0 && AllDigits(s)
    decreases n
  {
    if n < 10 then [DigitChar(n)] else NatText(n / 10) + [DigitChar(n % 10)]
  }

  /** `'' . $int`: an optional minus sign followed by the digits. */
  function IntText(i: int): string
  {
    if i < 0 then "-" + NatText(-i) else NatText(i)
  }

  /** Reads a string of decimal digits back as a number. */
  function DigitsValue(s: string): nat
    requires AllDigits(s)
  {
    if |s| == 0 then 0 else 10 * DigitsValue(s[..|s| - 1]) + DigitValue(s[|s| - 1])
  }

  /** Reads a decimal numeral back as an int; None when it is not one. */
  function NumeralValue(s: string): Option<int>
  {
    if |s| > 1 && s[0] == '-' && AllDigits(s[1..]) then
      Some(-(DigitsValue(s[1..]) as int))
    else if |s| > 0 && AllDigits(s) then
      Some(DigitsValue(s))
    else None
  }

  datatype Option<T> = None | Some(value: T)

  lemma {:induction false} NatTextValue(n: nat)
    ensures DigitsValue(NatText(n)) == n
    decreases n
  {
    var s := NatText(n);
    if n >= 10 {
      NatTextValue(n / 10);
      assert s[..|s| - 1] == NatText(n / 10);
    }
  }

  lemma NumeralOfDigits(digits: string)
    requires |digits| > 0 && AllDigits(digits)
    ensures NumeralValue(digits) == Some(DigitsValue(digits) as int)
  {
    assert digits[0] != '-';
  }

  lemma NumeralOfNegative(digits: string)
    requires |digits| > 0 && AllDigits(digits)
    ensures NumeralValue("-" + digits) == Some(-(DigitsValue(digits) as int))
  {
    var s := "-" + digits;
    assert s[1..] == digits;
  }

  /** The numeral of an int reads back as that int. */
  lemma {:induction false} IntTextRoundTrip(i: int)
    ensures NumeralValue(IntText(i)) == Some(i)
  {
    var digits := NatText(if i < 0 then -i else i);
    NatTextValue(if i < 0 then -i else i);
    if i < 0 {
      NumeralOfNegative(digits);
    } else {
      NumeralOfDigits(digits);
    }
  }

  // ---------------------------------------------------------------------
  // PHP's casts, as far as the parser uses them.

  /** `(string) $v`, as string concatenation applies it. An array converts to
      the word "Array" (PHP also emits a warning). */
  function PhpString(rt: Runtime, v: Value): string
  {
    match v
    case Null => ""
    case Bool(b) => if b then "1" else ""
    case Int(i) => IntText(i)
    case Float(f) => rt.floatText(f)
    case Str(s) => s
    case Arr(_) => "Array"
  }

  /** `(int) $v`. */
  function IntCast(rt: Runtime, v: Value): int
  {
    match v
    case Null => 0
    case Bool(b) => if b then 1 else 0
    case Int(i) => i
    case Float(f) => rt.floatToInt(f)
    case Str(s) => rt.stringToInt(s)
    case Arr(e) => if |e| == 0 then 0 else 1
  }

  /** `(float) $v`. */
  function FloatCast(rt: Runtime, v: Value): FloatBits
  {
    match v
    case Null => ZeroBits
    case Bool(b) => if b then OneBits else ZeroBits
    case Int(i) => rt.intToFloat(i)
    case Float(f) => f
    case Str(s) => rt.stringToFloat(s)
    case Arr(e) => if |e| == 0 then ZeroBits else OneBits
  }

  /** `(string) $key` of an array key. */
  function KeyText(k: Key): string
  {
    match k
    case IntKey(n) => IntText(n)
    case StrKey(s) => s
  }
}
