/** Decimal rendering of integers, as Go's `%d` verb prints an `int`, and the
    parser that undoes it.  The parser accepts exactly the canonical strings
    that the renderer produces, so the two are inverse to each other. */
module Decimal {
  import opened Wrappers

  predicate IsDigit(c: char) {
    '0' <= c <= '9'
  }

  predicate AllDigits(s: string) {
    forall i :: 0 <= i < |s| ==> IsDigit(s[i])
  }

  /** A non-empty digit string without superfluous leading zeros. */
  predicate IsCanonical(s: string) {
    |s| > 0 && AllDigits(s) && (s[0] == '0' ==> |s| == 1)
  }

  function DigitValue(c: char): (d: nat)
    requires IsDigit(c)
    ensures d < 10
  {
    c as int - '0' as int
  }

  function DigitChar(d: nat): (c: char)
    requires d < 10
    ensures IsDigit(c) && DigitValue(c) == d
  {
    (d + '0' as int) as char
  }

  /** The number a digit string denotes, most significant digit first. */
  function Value(s: string): (v: nat)
    requires AllDigits(s)
  {
    if s == [] then 0 else Value(s[..|s| - 1]) * 10 + DigitValue(s[|s| - 1])
  }

  /** The digits of `n`, most significant first. */
  function NatDigits(n: nat): (s: string)
    ensures IsCanonical(s)
    ensures s[0] == '0' <==> n == 0
    ensures Value(s) == n
  {
    if n < 10 then
      [DigitChar(n)]
    else
      var p := NatDigits(n / 10);
      var s := p + [DigitChar(n % 10)];
      assert s[..|s| - 1] == p;
      s
  }

  /** `fmt.Sprintf("%d", n)`: a minus sign for negative numbers, then the digits. */
  function Itoa(n: int): (s: string)
    ensures |s| > 0
    ensures forall i :: 0 <= i < |s| ==> IsDigit(s[i]) || (i == 0 && s[i] == '-')
    ensures s[0] == '-' <==> n < 0
  {
    if n < 0 then "-" + NatDigits(-n) else NatDigits(n)
  }

  /** The canonical reading of a digit string, if it is one: what it returns
      is the number whose rendering the string is. */
  function ParseNat(s: string): (r: Option<nat>)
    ensures r.Some? <==> IsCanonical(s)
    ensures r.Some? ==> NatDigits(r.value) == s
  {
    if IsCanonical(s) then
      NatDigitsOfValue(s);
      Some(Value(s))
    else
      None
  }

  /** The integer a canonical decimal string denotes: an optional minus sign
      before a non-zero magnitude, or a bare magnitude. */
  function ParseInt(s: string): (r: Option<int>) {
    if |s| > 0 && s[0] == '-' then
      match ParseNat(s[1..])
      case Some(n) => if n == 0 then None else Some(-(n as int))
      case None => None
    else
      match ParseNat(s)
      case Some(n) => Some(n)
      case None => None
  }

  /** A canonical string that does not start with zero denotes a positive number. */
  lemma {:induction false} ValuePositive(s: string)
    requires IsCanonical(s) && s[0] != '0'
    ensures Value(s) > 0
  {
    if |s| > 1 {
      var p := s[..|s| - 1];
      assert p[0] == s[0];
      ValuePositive(p);
    }
  }

  /** Rendering the value of a canonical string gives the string back. */
  lemma {:induction false} NatDigitsOfValue(s: string)
    requires IsCanonical(s)
    ensures NatDigits(Value(s)) == s
  {
    if |s| > 1 {
      var p := s[..|s| - 1];
      assert p[0] == s[0];
      ValuePositive(p);
      NatDigitsOfValue(p);
      var n := Value(s);
      assert n / 10 == Value(p) && n % 10 == DigitValue(s[|s| - 1]);
      assert s == p + [s[|s| - 1]];
    } else {
      assert s[0] == '0' ==> Value(s) == 0;
    }
  }

  /** Parsing what `Itoa` printed gives the number back. */
  lemma ParseIntItoa(n: int)
    ensures ParseInt(Itoa(n)) == Some(n)
  {
    var s := Itoa(n);
    if n < 0 {
      assert s[1..] == NatDigits(-n);
    }
  }

  /** Whatever `ParseInt` accepts is exactly what `Itoa` prints for its value. */
  lemma ItoaParseInt(s: string, n: int)
    requires ParseInt(s) == Some(n)
    ensures Itoa(n) == s
  {
    if |s| > 0 && s[0] == '-' {
      NatDigitsOfValue(s[1..]);
      assert s == "-" + s[1..];
    } else {
      NatDigitsOfValue(s);
    }
  }

  /** `ParseInt` and `Itoa` are inverse: a string parses to `n` exactly when it
      is the rendering of `n`. */
  lemma ParseIntIff(s: string, n: int)
    ensures ParseInt(s) == Some(n) <==> s == Itoa(n)
  {
    if ParseInt(s) == Some(n) {
      ItoaParseInt(s, n);
    }
    if s == Itoa(n) {
      ParseIntItoa(n);
    }
  }
}
