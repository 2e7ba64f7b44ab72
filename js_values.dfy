/**
 * The loosely typed values that reach the handlers from JSON bodies
 * (the payment gateway's ResultCode, Amount, PhoneNumber, ...), with
 * JavaScript's truthiness, Mongoose's cast to a String path, and the
 * `Math` rounding functions used on amounts.
 */
module JsValues {
  import opened Wrappers
  import opened Text

  /** A JSON value as the handlers see it; JSON numbers are integers here. */
  datatype JsVal = Undefined | Null | Bool(b: bool) | Num(n: int) | Str(s: string)

  /** JavaScript truthiness: `undefined`, `null`, `false`, `0` and `""` are falsy. */
  predicate Truthy(v: JsVal) {
    match v
    case Undefined => false
    case Null => false
    case Bool(b) => b
    case Num(n) => n != 0
    case Str(s) => s != ""
  }

  /** The value Mongoose stores when `v` is assigned to a path of type String. */
  function CastString(v: JsVal): (r: Option<string>)
    ensures v.Str? ==> r == Some(v.s)
    ensures v.Num? ==> r == Some(IntToString(v.n))
    ensures v.Bool? ==> r == Some(if v.b then "true" else "false")
    ensures r.None? <==> v.Undefined? || v.Null?
  {
    match v
    case Undefined => None
    case Null => None
    case Bool(b) => Some(if b then "true" else "false")
    case Num(n) => Some(IntToString(n))
    case Str(s) => Some(s)
  }

  /** The number 0 and the string "0" are different values, yet store as the same String. */
  lemma NumberAndStringZeroCastAlike()
    ensures Num(0) != Str("0")
    ensures CastString(Num(0)) == CastString(Str("0")) == Some("0")
  {
    assert NatToString(0) == "0";
  }

  /**
   * What a Date path holds: nothing, a time in milliseconds since the epoch, or a
   * string handed to JavaScript's date parser (whose reading is not modelled).
   */
  datatype DateVal = NoDate | DateMs(ms: int) | DateText(text: string)

  /** The largest distance from the epoch, in milliseconds, that a JavaScript Date can hold. */
  const MaxDateMs := 8_640_000_000_000_000

  /** The smallest number whose decimal string Mongoose reads as milliseconds rather than as a year. */
  const MsStringThreshold := 275761

  /**
   * The value Mongoose stores when `v` is assigned to a path of type Date; None is
   * the cast error that makes the next save reject.  A number is milliseconds; so
   * is a string of decimal digits whose value reaches `MsStringThreshold`; any
   * other non-empty string goes to the date parser.
   */
  function CastDate(v: JsVal): (r: Option<DateVal>)
    ensures r == Some(NoDate) <==> v.Undefined? || v.Null? || v == Str("")
    ensures v.Num? ==> (r.Some? <==> -MaxDateMs <= v.n <= MaxDateMs)
    ensures v.Num? && r.Some? ==> r.value == DateMs(v.n)
    ensures v.Bool? ==> r.None?
    ensures v.Str? && v.s != "" && AllDigits(v.s) && ParseInt(v.s).value >= MsStringThreshold ==>
              (r.Some? <==> ParseInt(v.s).value <= MaxDateMs)
              && (r.Some? ==> r.value == DateMs(ParseInt(v.s).value))
    ensures v.Str? && v.s != "" && (!AllDigits(v.s) || ParseInt(v.s).value < MsStringThreshold) ==>
              r == Some(DateText(v.s))
  {
    match v
    case Undefined => Some(NoDate)
    case Null => Some(NoDate)
    case Bool(_) => None
    case Num(n) => if -MaxDateMs <= n <= MaxDateMs then Some(DateMs(n)) else None
    case Str(s) =>
      if s == "" then Some(NoDate)
      else if AllDigits(s) then
        var n := DigitsValue(s, 10);
        if n < MsStringThreshold then Some(DateText(s))
        else if n <= MaxDateMs then Some(DateMs(n))
        else None
      else Some(DateText(s))
  }

  /** `Math.round(x)`: the nearest integer, halves rounded up. */
  function JsRound(x: real): (r: int)
    ensures x - 0.5 < r as real <= x + 0.5
  {
    (x + 0.5).Floor
  }

  /** `Math.floor(x)`. */
  function JsFloor(x: real): (r: int)
    ensures r as real <= x < r as real + 1.0
  {
    x.Floor
  }

  /** `Math.ceil(x)`. */
  function JsCeil(x: real): (r: int)
    ensures r as real - 1.0 < x <= r as real
  {
    -((-x).Floor)
  }
}
