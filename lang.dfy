// Java library behaviour the game code relies on: nullable results,
// exceptions as error values, Integer.parseInt, decimal printing of an int,
// and the ASCII part of String.toLowerCase / equalsIgnoreCase.
module Lang {

  datatype Option<T> = None | Some(value: T)

  /** A value, or the message of the exception the Java code would throw. */
  datatype Result<T> = Ok(value: T) | Err(msg: string)

  const INT_MIN: int := -0x8000_0000
  const INT_MAX: int := 0x7FFF_FFFF

  predicate IsInt32(n: int) { INT_MIN <= n <= INT_MAX }

  /** Java's int. */
  newtype Int32 = n: int | -0x8000_0000 <= n <= 0x7FFF_FFFF

  predicate IsDigit(c: char) { '0' <= c <= '9' }

  predicate AllDigits(s: string) { forall i :: 0 <= i < |s| ==> IsDigit(s[i]) }

  function DigitValue(c: char): (d: nat)
    requires IsDigit(c)
    ensures d < 10
  {
    c as int - '0' as int
  }

  function DigitChar(d: nat): (c: char)
    requires d < 10
    ensures IsDigit(c) && DigitValue(c) == d
  {
    ('0' as int + d) as char
  }

  /** The number a string of decimal digits denotes, most significant digit first. */
  function DigitsValue(s: string): nat
    requires AllDigits(s)
  {
    if |s| == 0 then 0 else 10 * DigitsValue(s[..|s| - 1]) + DigitValue(s[|s| - 1])
  }

  /**
   * Integer.parseInt(s) with radix 10: an optional '+' or '-', then one or more
   * digits; the value must fit in a 32-bit int. Anything else raises
   * NumberFormatException, modelled as Err.
   */
  function ParseInt(s: string): (r: Result<int>)
    ensures r.Ok? ==> IsInt32(r.value)
    ensures r.Ok? ==> |s| > 0 && AllDigits(if s[0] == '-' || s[0] == '+' then s[1..] else s)
    ensures |s| > 0 && AllDigits(s) && DigitsValue(s) <= INT_MAX ==> r == Ok(DigitsValue(s))
  {
    if |s| == 0 then Err("For input string: \"\"")
    else
      var neg := s[0] == '-';
      var digits := if s[0] == '-' || s[0] == '+' then s[1..] else s;
      if |digits| == 0 || !AllDigits(digits) then Err("For input string: \"" + s + "\"")
      else
        var m: int := DigitsValue(digits);
        var v := if neg then -m else m;
        if IsInt32(v) then Ok(v) else Err("For input string: \"" + s + "\"")
  }

  /** The decimal digits of a natural number, as Integer.toString prints them. */
  function NatToString(n: nat): (s: string)
    ensures |s| > 0 && AllDigits(s)
    decreases n
  {
    if n < 10 then [DigitChar(n)] else NatToString(n / 10) + [DigitChar(n % 10)]
  }

  /** String.valueOf(int) / the "" + n concatenation: a '-' sign for negatives. */
  function IntToString(n: int): (s: string)
    ensures |s| > 0
  {
    if n < 0 then "-" + NatToString(-n) else NatToString(n)
  }

  lemma {:induction false} NatToStringValue(n: nat)
    ensures DigitsValue(NatToString(n)) == n
    decreases n
  {
    var s := NatToString(n);
    if n >= 10 {
      NatToStringValue(n / 10);
      assert s[..|s| - 1] == NatToString(n / 10);
    }
  }

  /** Integer.parseInt reads back every int that Integer.toString prints. */
  lemma ParseIntToString(n: int)
    requires IsInt32(n)
    ensures ParseInt(IntToString(n)) == Ok(n)
  {
    var s := IntToString(n);
    var digits := if n < 0 then NatToString(-n) else NatToString(n);
    if n < 0 {
      NatToStringValue(-n);
      assert s[0] == '-' && s[1..] == digits;
    } else {
      NatToStringValue(n);
      assert s == digits && s[0] != '-' && s[0] != '+';
    }
    ParseIntDigits(s, digits);
  }

  /** One step of ParseInt: the sign decides, the digits give the magnitude. */
  lemma ParseIntDigits(s: string, digits: string)
    requires |s| > 0 && |digits| > 0 && AllDigits(digits)
    requires digits == (if s[0] == '-' || s[0] == '+' then s[1..] else s)
    requires IsInt32(if s[0] == '-' then -(DigitsValue(digits) as int) else DigitsValue(digits) as int)
    ensures ParseInt(s) == Ok(if s[0] == '-' then -(DigitsValue(digits) as int) else DigitsValue(digits) as int)
  {
  }

  /** Character.toLowerCase restricted to ASCII letters. */
  function ToLower(c: char): (r: char)
    ensures 'A' <= c <= 'Z' ==> r as int == c as int + 32
    ensures !('A' <= c <= 'Z') ==> r == c
  {
    if 'A' <= c <= 'Z' then (c as int + 32) as char else c
  }

  /** String.toLowerCase, character by character. */
  function ToLowerString(s: string): (r: string)
    ensures |r| == |s| && forall i :: 0 <= i < |s| ==> r[i] == ToLower(s[i])
  {
    seq(|s|, i requires 0 <= i < |s| => ToLower(s[i]))
  }

  /**
   * String.equalsIgnoreCase: same length and, position by position, the same
   * character once both are lowered (ASCII letters only).
   */
  predicate EqualsIgnoreCase(a: string, b: string)
  {
    |a| == |b| && forall i :: 0 <= i < |a| ==> ToLower(a[i]) == ToLower(b[i])
  }

  lemma EqualsIgnoreCaseEquivalence(a: string, b: string, c: string)
    ensures EqualsIgnoreCase(a, a)
    ensures EqualsIgnoreCase(a, b) ==> EqualsIgnoreCase(b, a)
    ensures EqualsIgnoreCase(a, b) && EqualsIgnoreCase(b, c) ==> EqualsIgnoreCase(a, c)
    ensures EqualsIgnoreCase(a, b) <==> ToLowerString(a) == ToLowerString(b)
  {
    if EqualsIgnoreCase(a, b) {
      assert forall i :: 0 <= i < |a| ==> ToLowerString(a)[i] == ToLowerString(b)[i];
    }
    if ToLowerString(a) == ToLowerString(b) {
      assert forall i :: 0 <= i < |a| ==> ToLower(a[i]) == ToLowerString(a)[i] == ToLowerString(b)[i] == ToLower(b[i]);
    }
  }
}
