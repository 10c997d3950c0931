/**
 * The JavaScript values the API's handlers inspect: JSON body fields and
 * query-string parameters, the numbers `Number(...)` produces from them, and
 * the decimal text a template literal such as `${id}` gives an integer id.
 */
module JsValues {

  datatype Option<+T> = None | Some(value: T)

  /** A JavaScript number: a finite value, one of the two infinities, or NaN. */
  datatype JsNumber = Finite(value: real) | Infinity(negative: bool) | NaN

  /**
   * A value read from a request. `Object` stands for arrays and plain
   * objects and carries the text their `toString` gives, which is what
   * `Number(...)` converts.
   */
  datatype JsValue =
    | Undefined
    | Null
    | Bool(b: bool)
    | Number(n: JsNumber)
    | Str(s: string)
    | Object(text: string)

  /**
   * `Number(v)`. The conversion of a string to a number is the engine's
   * StringToNumber, supplied by the caller as `strToNum`.
   */
  function ToNumber(v: JsValue, strToNum: string -> JsNumber): JsNumber
  {
    match v
    case Undefined => NaN
    case Null => Finite(0.0)
    case Bool(b) => Finite(if b then 1.0 else 0.0)
    case Number(n) => n
    case Str(s) => strToNum(s)
    case Object(text) => strToNum(text)
  }

  /** `Number.isNaN(n)`: true of NaN only, so both infinities pass. */
  predicate IsNaN(n: JsNumber)
  {
    n.NaN?
  }

  /** The row key a number equal to `n` selects from an integer id column, if any. */
  function KeyOf(n: JsNumber): (k: Option<int>)
    ensures k.Some? <==> n.Finite? && n.value == n.value.Floor as real
    ensures k.Some? ==> n == Finite(k.value as real)
  {
    if n.Finite? && n.value == n.value.Floor as real then Some(n.value.Floor) else None
  }

  // ---------------------------------------------------------------------
  // Decimal rendering of integers, as `${id}` gives it for the ids the
  // database assigns.

  predicate IsDigit(c: char)
  {
    '0' <= c <= '9'
  }

  predicate AllDigits(s: string)
  {
    forall i | 0 <= i < |s| :: IsDigit(s[i])
  }

  function DigitChar(d: nat): (c: char)
    requires d < 10
    ensures IsDigit(c) && c as int - '0' as int == d
  {
    ('0' as int + d) as char
  }

  /** The decimal digits of `n`, most significant first, without leading zeros. */
  function NatToString(n: nat): (s: string)
    ensures |s| > 0 && AllDigits(s)
    decreases n
  {
    if n < 10 then [DigitChar(n)] else NatToString(n / 10) + [DigitChar(n % 10)]
  }

  /** The template-literal text of an integer: a '-' sign, then the digits of its magnitude. */
  function IntToString(i: int): (s: string)
    ensures |s| > 0
    ensures i < 0 <==> s[0] == '-'
  {
    if i < 0 then "-" + NatToString(-i) else NatToString(i)
  }

  /** The value of a string of decimal digits. */
  function ParseDigits(s: string): nat
    requires AllDigits(s)
    decreases |s|
  {
    if |s| == 0 then 0 else ParseDigits(s[..|s| - 1]) * 10 + (s[|s| - 1] as int - '0' as int)
  }

  /** The inverse of IntToString on the strings it produces. */
  function ParseInt(s: string): int
    requires |s| > 0
    requires if s[0] == '-' then AllDigits(s[1..]) else AllDigits(s)
  {
    if s[0] == '-' then -(ParseDigits(s[1..]) as int) else ParseDigits(s)
  }

  lemma {:induction false} ParseNatToString(n: nat)
    ensures ParseDigits(NatToString(n)) == n
    decreases n
  {
    if n >= 10 {
      var front := NatToString(n / 10);
      ParseNatToString(n / 10);
      var s := front + [DigitChar(n % 10)];
      assert s[..|s| - 1] == front;
    }
  }

  /** Rendering an integer and reading it back gives the integer again. */
  lemma IntToStringRoundTrip(i: int)
    ensures var s := IntToString(i);
      (if s[0] == '-' then AllDigits(s[1..]) else AllDigits(s)) && ParseInt(s) == i
  {
    if i < 0 {
      var digits := NatToString(-i);
      assert IntToString(i)[1..] == digits;
      ParseNatToString(-i);
    } else {
      ParseNatToString(i);
    }
  }

  /** Distinct integers render as distinct texts. */
  lemma IntToStringInjective(a: int, b: int)
    requires IntToString(a) == IntToString(b)
    ensures a == b
  {
    IntToStringRoundTrip(a);
    IntToStringRoundTrip(b);
  }

  /**
   * The text `${x}` gives for an id that may be `undefined`, as when a
   * handler reads a property the object does not have.
   */
  function RenderId(id: Option<int>): (s: string)
    ensures id.None? ==> s == "undefined"
    ensures id.Some? ==> s == IntToString(id.value)
  {
    match id
    case None => "undefined"
    case Some(i) => IntToString(i)
  }

  /** `part` occurs in `s` starting at index `i`. */
  predicate OccursAt(s: string, part: string, i: int)
  {
    0 <= i <= |s| - |part| && s[i..i + |part|] == part
  }

  /** `s` contains `part` as a contiguous piece. */
  ghost predicate Contains(s: string, part: string)
  {
    exists i :: OccursAt(s, part, i)
  }

  /** Whatever surrounds it, a piece is contained in the text built around it. */
  lemma ContainsMiddle(prefix: string, part: string, suffix: string)
    ensures Contains(prefix + part + suffix, part)
  {
    var s := prefix + part + suffix;
    assert OccursAt(s, part, |prefix|);
  }
}
