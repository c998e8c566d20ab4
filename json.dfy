/** Decoded JSON values, as the bot receives them from the homework-status
    API, and Python's `str()` rendering of the scalar ones. */
module Json {

  /** A decoded JSON value. Objects are maps: nothing in the modelled code
      depends on the order of an object's keys. Floating-point numbers are
      not part of this model. */
  datatype Json =
    | JNull
    | JBool(b: bool)
    | JInt(i: int)
    | JStr(s: string)
    | JArr(items: seq<Json>)
    | JObj(fields: map<string, Json>)

  /** The decimal digit for `d`. */
  function DigitChar(d: nat): (c: char)
    requires d < 10
    ensures '0' <= c <= '9'
  {
    ('0' as int + d) as char
  }

  /** The number a string of decimal digits denotes. */
  function DecimalValue(s: string): (value: nat)
    requires forall k :: 0 <= k < |s| ==> '0' <= s[k] <= '9'
  {
    if s == [] then 0
    else DecimalValue(s[..|s| - 1]) * 10 + (s[|s| - 1] as int - '0' as int)
  }

  /** The decimal digits of `n`, most significant first, without leading zeros. */
  function Digits(n: nat): (s: string)
    ensures |s| >= 1
    ensures forall k :: 0 <= k < |s| ==> '0' <= s[k] <= '9'
    ensures n < 10 <==> |s| == 1
    ensures DecimalValue(s) == n
    ensures s[0] == '0' ==> n == 0
    decreases n
  {
    if n < 10 then [DigitChar(n)] else Digits(n / 10) + [DigitChar(n % 10)]
  }

  /** Python's `str()` of an int: an optional minus sign and the decimal digits. */
  function IntText(i: int): (s: string)
    ensures |s| >= 1
    ensures (i < 0) <==> s[0] == '-'
    ensures var digits := if i < 0 then s[1..] else s;
            && (forall k :: 0 <= k < |digits| ==> '0' <= digits[k] <= '9')
            && |digits| >= 1
            && (digits[0] == '0' ==> i == 0)
            && DecimalValue(digits) == if i < 0 then -i else i
  {
    if i < 0 then "-" + Digits(-i) else Digits(i)
  }

  /** Python's `str()` of a decoded JSON value, as an f-string interpolates it.
      Strings render as themselves, integers in decimal, booleans and null as
      `True`, `False` and `None`. A list or object renders as a bare pair of
      brackets: its contents are not reproduced. */
  function Render(j: Json): (s: string)
    ensures j.JStr? ==> s == j.s
    ensures j.JNull? ==> s == "None"
    ensures j.JBool? ==> s == (if j.b then "True" else "False")
    ensures j.JInt? ==> s == IntText(j.i)
  {
    match j
    case JNull => "None"
    case JBool(b) => if b then "True" else "False"
    case JInt(i) => IntText(i)
    case JStr(s) => s
    case JArr(_) => "[]"
    case JObj(_) => "{}"
  }
}
