/** Java-side vocabulary shared by the whole model: nullable values, the throwables
    that cross the hidden-API boundary, and the integer text conversions the handlers
    rely on (`Integer.parseInt` and `int` string concatenation). */
module Java {

  /** A Java reference that may be `null`. */
  datatype Option<+T> = None | Some(value: T)

  /** The underlying cause carried by a throwable. `Message` stands for a throwable
      constructed from a text alone, without a cause. */
  datatype Cause =
    | RemoteException
    | SecurityException
    | NoSuchMethodError
    | NullPointerException
    | ArrayIndexOutOfBoundsException
    | NumberFormatException
    | Message(text: string)

  /** The three ways a call can end abruptly: wrapped in `HiddenAPIsException`
      (a per-call failure the handlers catch), wrapped in `HiddenAPIsError`
      (a missing framework member, which most handlers let escape), or any other
      Java throwable propagating unwrapped. */
  datatype Throwable =
    | HiddenApisException(cause: Cause)
    | HiddenApisError(cause: Cause)
    | Unchecked(cause: Cause)

  /** The outcome of one call: a value, or a throwable. */
  datatype Call<+T> = Ok(value: T) | Threw(thrown: Throwable) {

    predicate IsHiddenApisException() {
      Threw? && thrown.HiddenApisException?
    }
  }

  const INT_MIN: int := -0x8000_0000
  const INT_MAX: int := 0x7fff_ffff

  /** Java's 32-bit `int` range. */
  predicate IsInt32(n: int) {
    INT_MIN <= n <= INT_MAX
  }

  predicate IsDigit(c: char) {
    '0' <= c <= '9'
  }

  predicate AllDigits(s: string) {
    forall i :: 0 <= i < |s| ==> IsDigit(s[i])
  }

  function DigitValue(c: char): (d: nat)
    requires IsDigit(c)
    ensures d < 10
  {
    (c as int) - ('0' as int)
  }

  function Digit(d: nat): (c: char)
    requires d < 10
    ensures IsDigit(c) && DigitValue(c) == d
  {
    (('0' as int) + d) as char
  }

  /** The value of a run of decimal digits, most significant first. */
  function DigitsValue(s: string): nat
    requires AllDigits(s)
  {
    if |s| == 0 then 0 else DigitsValue(s[..|s| - 1]) * 10 + DigitValue(s[|s| - 1])
  }

  /** `Integer.parseInt(s)`: an optional sign followed by at least one digit, whose
      value fits in an `int`; `None` stands for the `NumberFormatException`. */
  function ParseInt(s: string): (r: Option<int>)
    ensures r.Some? ==> IsInt32(r.value)
    ensures r.Some? ==> |s| > 0 && (IsDigit(s[0]) || s[0] == '-' || s[0] == '+')
  {
    if |s| == 0 then None
    else
      var signed := s[0] == '-' || s[0] == '+';
      var body := if signed then s[1..] else s;
      if |body| == 0 || !AllDigits(body) then None
      else
        var magnitude: int := DigitsValue(body);
        var v := if s[0] == '-' then 0 - magnitude else magnitude;
        if IsInt32(v) then Some(v) else None
  }

  /** Decimal digits of a natural number, without leading zeros. */
  function NatToString(n: nat): (s: string)
    ensures |s| > 0 && AllDigits(s)
    ensures |s| > 1 ==> s[0] != '0'
  {
    if n < 10 then [Digit(n)] else NatToString(n / 10) + [Digit(n % 10)]
  }

  /** `Integer.toString(n)`, as produced by `n + "..."` in Java. */
  function IntToString(n: int): (s: string)
    ensures |s| > 0
    ensures forall i :: 0 <= i < |s| ==> IsDigit(s[i]) || (i == 0 && s[i] == '-')
  {
    if n < 0 then "-" + NatToString(-n) else NatToString(n)
  }

  lemma {:induction false} NatToStringValue(n: nat)
    ensures DigitsValue(NatToString(n)) == n
    decreases n
  {
    var s := NatToString(n);
    if n < 10 {
      assert s[..|s| - 1] == [];
    } else {
      NatToStringValue(n / 10);
      assert s[..|s| - 1] == NatToString(n / 10);
    }
  }

  /** Parsing the text Java prints for an `int` gives the `int` back. */
  lemma ParseIntToString(n: int)
    requires IsInt32(n)
    ensures ParseInt(IntToString(n)) == Some(n)
  {
    var s := IntToString(n);
    if n < 0 {
      NatToStringValue(-n);
      assert s[1..] == NatToString(-n);
    } else {
      NatToStringValue(n);
    }
  }
}
