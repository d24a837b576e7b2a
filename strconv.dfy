/**
  Go's `strconv.Atoi` and `strconv.ParseInt(s, 10, 64)` on a 64-bit
  platform, as the port lists and the properties lookups use them, with
  the reference meaning they implement: an optional sign followed by
  decimal digits, whose value fits in a signed 64-bit integer.
 */
module Strconv {
  import opened Common

  const MaxUint64: int := 0xFFFF_FFFF_FFFF_FFFF
  const MaxInt64: int := 0x7FFF_FFFF_FFFF_FFFF
  const MinInt64: int := -0x8000_0000_0000_0000

  predicate IsDigit(c: char)
  {
    '0' <= c <= '9'
  }

  function DigitValue(c: char): nat
    requires IsDigit(c)
  {
    c as int - '0' as int
  }

  predicate AllDigits(s: string)
  {
    forall i :: 0 <= i < |s| ==> IsDigit(s[i])
  }

  /** Positional value of a string of decimal digits. */
  function DigitsValue(ds: string): nat
    requires AllDigits(ds)
  {
    if ds == [] then 0 else DigitsValue(ds[..|ds| - 1]) * 10 + DigitValue(ds[|ds| - 1])
  }

  predicate HasSign(s: string)
  {
    |s| > 0 && (s[0] == '+' || s[0] == '-')
  }

  /** The string without its leading sign, if it has one. */
  function Unsigned(s: string): string
  {
    if HasSign(s) then s[1..] else s
  }

  /** An optional sign followed by at least one decimal digit. */
  predicate IsDecimal(s: string)
  {
    |Unsigned(s)| > 0 && AllDigits(Unsigned(s))
  }

  /** The integer a decimal string denotes. */
  function DecimalValue(s: string): int
    requires IsDecimal(s)
  {
    if s[0] == '-' then -(DigitsValue(Unsigned(s)) as int) else DigitsValue(Unsigned(s))
  }

  predicate InInt64(n: int)
  {
    MinInt64 <= n <= MaxInt64
  }

  /** Outcome of the digit loop of `strconv.ParseUint`. */
  datatype Scan = Digits(n: nat) | SyntaxFail | RangeFail

  /** The digit loop of `strconv.ParseUint(s, 10, 64)`, from the
      accumulated value `acc`: the first character that is not a digit is
      a syntax error, and the first digit that would carry the value past
      2^64 - 1 is a range error, whichever comes first. */
  function ScanUint(s: string, acc: nat): Scan
    decreases |s|
  {
    if s == [] then Digits(acc)
    else if !IsDigit(s[0]) then SyntaxFail
    else if acc * 10 + DigitValue(s[0]) > MaxUint64 then RangeFail
    else ScanUint(s[1..], acc * 10 + DigitValue(s[0]))
  }

  datatype Parse = Parsed(n: int) | Rejected(kind: NumErrorKind)

  /** `strconv.ParseInt(s, 10, 64)`: strip one sign, scan the digits (an
      empty digit string is a syntax error), then check the signed range. */
  function ParseInt(s: string): Parse
  {
    if s == [] then Rejected(ErrSyntax)
    else
      var neg := s[0] == '-';
      var body := Unsigned(s);
      if body == [] then Rejected(ErrSyntax)
      else match ScanUint(body, 0)
        case SyntaxFail => Rejected(ErrSyntax)
        case RangeFail => Rejected(ErrRange)
        case Digits(u) =>
          if !neg && u > MaxInt64 then Rejected(ErrRange)
          else if neg && u > -MinInt64 then Rejected(ErrRange)
          else Parsed(if neg then -(u as int) else u)
  }

  /** `strconv.Atoi` with a 64-bit `int`: ParseInt's outcome, its error
      reported as a *NumError whose Func is "Atoi" and whose Num is the
      whole input. */
  function Atoi(s: string): Result<int>
  {
    match ParseInt(s)
    case Parsed(n) => Success(n)
    case Rejected(kind) => Failure(NumError("Atoi", s, kind))
  }

  /** A longer digit string never has a smaller value than its prefix. */
  lemma {:induction false} DigitsValuePrefix(w: string, k: nat)
    requires AllDigits(w) && k <= |w|
    ensures AllDigits(w[..k]) && DigitsValue(w[..k]) <= DigitsValue(w)
    decreases |w| - k
  {
    if k < |w| {
      var w' := w[..|w| - 1];
      assert w'[..k] == w[..k];
      DigitsValuePrefix(w', k);
    } else {
      assert w[..k] == w;
    }
  }

  /** The overflow check of the digit loop fires exactly when the value of
      the whole digit string exceeds 2^64 - 1. */
  lemma {:induction false} ScanUintValue(u: string, v: string)
    requires AllDigits(u) && AllDigits(v) && DigitsValue(u) <= MaxUint64
    ensures AllDigits(u + v)
    ensures ScanUint(v, DigitsValue(u))
            == if DigitsValue(u + v) > MaxUint64 then RangeFail else Digits(DigitsValue(u + v))
    decreases |v|
  {
    assert forall i :: 0 <= i < |u| ==> (u + v)[i] == u[i];
    assert forall i :: 0 <= i < |v| ==> (u + v)[|u| + i] == v[i];
    if v == [] {
      assert u + v == u;
    } else {
      var u' := u + [v[0]];
      assert AllDigits(u');
      assert u'[..|u'| - 1] == u;
      assert u' + v[1..] == u + v;
      assert (u + v)[..|u'|] == u';
      DigitsValuePrefix(u + v, |u'|);
      if DigitsValue(u') <= MaxUint64 {
        ScanUintValue(u', v[1..]);
      }
    }
  }

  /** ParseInt accepts exactly the decimal strings whose value fits in 64
      bits and returns that value; a decimal string out of range is a
      range error. */
  lemma ParseIntSpec(s: string)
    ensures ParseInt(s).Parsed? <==> IsDecimal(s) && InInt64(DecimalValue(s))
    ensures ParseInt(s).Parsed? ==> ParseInt(s).n == DecimalValue(s)
    ensures IsDecimal(s) && !InInt64(DecimalValue(s)) ==> ParseInt(s) == Rejected(ErrRange)
  {
    var body := Unsigned(s);
    if s != [] && body != [] {
      if AllDigits(body) {
        assert [] + body == body;
        ScanUintValue([], body);
      } else {
        var j :| 0 <= j < |body| && !IsDigit(body[j]);
        ScanUintStopsAtNonDigit(body, 0, j);
      }
    }
  }

  /** A non-digit in the string stops the loop with an error (a syntax
      error, or a range error met before it). */
  lemma {:induction false} ScanUintStopsAtNonDigit(s: string, acc: nat, j: nat)
    requires j < |s| && !IsDigit(s[j])
    ensures !ScanUint(s, acc).Digits?
    decreases |s|
  {
    if j > 0 && IsDigit(s[0]) && acc * 10 + DigitValue(s[0]) <= MaxUint64 {
      ScanUintStopsAtNonDigit(s[1..], acc * 10 + DigitValue(s[0]), j - 1);
    }
  }

  /** Atoi succeeds exactly on decimal strings whose value fits in 64 bits,
      with that value; otherwise its error is a *NumError from "Atoi"
      carrying the input. */
  lemma AtoiSpec(s: string)
    ensures Atoi(s).Success? <==> IsDecimal(s) && InInt64(DecimalValue(s))
    ensures Atoi(s).Success? ==> Atoi(s).value == DecimalValue(s)
    ensures Atoi(s).Failure? ==> Atoi(s).error.NumError? && Atoi(s).error.funcName == "Atoi"
                                 && Atoi(s).error.num == s
    ensures IsDecimal(s) && !InInt64(DecimalValue(s)) ==> Atoi(s) == Failure(NumError("Atoi", s, ErrRange))
  {
    ParseIntSpec(s);
  }

  function DigitChar(d: nat): char
    requires d < 10
  {
    ('0' as int + d) as char
  }

  /** The decimal digits of a natural number, without leading zeros. */
  function NatDigits(n: nat): (ds: string)
    ensures |ds| >= 1 && AllDigits(ds)
  {
    if n < 10 then [DigitChar(n)] else NatDigits(n / 10) + [DigitChar(n % 10)]
  }

  /** `strconv.Itoa`: the decimal rendering of an integer, with a leading
      `-` when negative. */
  function FormatInt(n: int): string
  {
    if n < 0 then "-" + NatDigits(-n) else NatDigits(n)
  }

  lemma {:induction false} NatDigitsValue(n: nat)
    ensures DigitsValue(NatDigits(n)) == n
  {
    if n >= 10 {
      NatDigitsValue(n / 10);
      var ds := NatDigits(n);
      assert ds[..|ds| - 1] == NatDigits(n / 10);
    }
  }

  /** Reading back a rendered 64-bit integer gives the integer. */
  lemma AtoiFormatInt(n: int)
    requires InInt64(n)
    ensures IsDecimal(FormatInt(n)) && DecimalValue(FormatInt(n)) == n
    ensures Atoi(FormatInt(n)) == Success(n)
    ensures ParseInt(FormatInt(n)) == Parsed(n)
  {
    var s := FormatInt(n);
    if n < 0 {
      NatDigitsValue(-n);
      assert Unsigned(s) == NatDigits(-n);
    } else {
      NatDigitsValue(n);
      assert !HasSign(s);
    }
    AtoiSpec(s);
    ParseIntSpec(s);
  }
}
