/**
  Base-10 integer formatting and parsing as Go's `strconv` does them on a
  64-bit platform: `Itoa`/`FormatInt(n, 10)` and `Atoi`/`ParseInt(s, 10, 64)`.

  The parser follows Go's algorithm: an optional sign, then the digits
  scanned from the left; a byte that is not a digit is a syntax error with
  value 0, and the first digit that takes the unsigned value past 2^64 - 1
  stops the scan at once with a range error and the value 2^64 - 1, which
  `ParseInt` then clamps to the int64 range. `Atoi`'s fast path for strings
  shorter than 19 bytes gives the same results, so both are `ParseInt`.
 */
module Strconv {

  const MaxUint64: int := 0xFFFF_FFFF_FFFF_FFFF
  const MaxInt64: int := 0x7FFF_FFFF_FFFF_FFFF
  const MinInt64: int := -0x8000_0000_0000_0000

  /** A Go `int64`, and a Go `int` on a 64-bit platform. */
  type Int64 = n: int | -0x8000_0000_0000_0000 <= n <= 0x7FFF_FFFF_FFFF_FFFF

  datatype NumError = NoError | ErrSyntax | ErrRange

  /** What a parse returns: the value and the error Go returns beside it. */
  datatype Parsed = Parsed(value: int, err: NumError)

  predicate IsDigit(c: char) { '0' <= c <= '9' }

  function DigitValue(c: char): (d: nat)
    requires IsDigit(c)
    ensures d < 10
  {
    c as int - '0' as int
  }

  function DigitChar(d: nat): (c: char)
    requires d < 10
    ensures IsDigit(c) && DigitValue(c) == d
  {
    ('0' as int + d) as char
  }

  // ----- reference semantics: what a decimal numeral denotes -----

  ghost predicate AllDigits(s: string)
  {
    forall i :: 0 <= i < |s| ==> IsDigit(s[i])
  }

  /** The number a string of digits denotes, read from the right. */
  ghost function DecimalValue(s: string): nat
    requires AllDigits(s)
  {
    if s == [] then 0 else DecimalValue(s[..|s| - 1]) * 10 + DigitValue(s[|s| - 1])
  }

  predicate HasSign(s: string) { |s| > 0 && (s[0] == '+' || s[0] == '-') }

  function Unsigned(s: string): string { if HasSign(s) then s[1..] else s }

  /** `s` is `[+-]?[0-9]+`, the syntax `ParseInt` accepts in base 10. */
  ghost predicate IsDecimal(s: string)
  {
    |Unsigned(s)| > 0 && AllDigits(Unsigned(s))
  }

  function Clamp(v: int): (r: int)
    ensures MinInt64 <= r <= MaxInt64
    ensures MinInt64 <= v <= MaxInt64 ==> r == v
  {
    if v > MaxInt64 then MaxInt64 else if v < MinInt64 then MinInt64 else v
  }

  /** The longest prefix of `u` made of digits. */
  function LeadingDigits(u: string): (p: string)
    ensures p <= u
    ensures AllDigits(p)
    ensures |p| < |u| ==> !IsDigit(u[|p|])
  {
    if u == [] || !IsDigit(u[0]) then [] else [u[0]] + LeadingDigits(u[1..])
  }

  /** When the leading digits are the whole string, the string is all digits. */
  lemma LeadingDigitsOfAllDigits(u: string)
    ensures |LeadingDigits(u)| == |u| ==> AllDigits(u)
  {
    if |LeadingDigits(u)| == |u| {
      assert LeadingDigits(u) == u;
    }
  }

  // ----- formatting -----

  /** The decimal digits of `n`, without leading zeros. */
  function Digits(n: nat): (s: string)
    ensures |s| > 0 && AllDigits(s)
    ensures DecimalValue(s) == n
  {
    if n < 10 then [DigitChar(n)]
    else
      var s := Digits(n / 10) + [DigitChar(n % 10)];
      assert s[..|s| - 1] == Digits(n / 10);
      s
  }

  /** `strconv.Itoa(n)` and `strconv.FormatInt(n, 10)`. */
  function FormatInt(n: int): string
  {
    if n < 0 then "-" + Digits(-n) else Digits(n)
  }

  // ----- parsing -----

  /** One step of `ParseUint`'s loop: append the digit `c` to the value `v`. */
  function ScanStep(v: nat, c: char): (r: Parsed)
    requires v <= MaxUint64
  {
    if !IsDigit(c) then Parsed(0, ErrSyntax)
    else if v * 10 + DigitValue(c) > MaxUint64 then Parsed(MaxUint64, ErrRange)
    else Parsed(v * 10 + DigitValue(c), NoError)
  }

  /** `ParseUint`'s loop over the bytes of `s`, from the accumulated value `acc`. */
  function ScanUint(s: string, acc: nat): (r: Parsed)
    requires acc <= MaxUint64
    ensures 0 <= r.value <= MaxUint64
    ensures r.err == ErrSyntax ==> r.value == 0
    ensures r.err == ErrRange ==> r.value == MaxUint64
  {
    if s == [] then Parsed(acc, NoError)
    else
      var r := ScanStep(acc, s[0]);
      if r.err != NoError then r else ScanUint(s[1..], r.value)
  }

  /** `strconv.ParseUint(s, 10, 64)`. */
  function ParseUint(s: string): (r: Parsed)
    ensures 0 <= r.value <= MaxUint64
  {
    if s == [] then Parsed(0, ErrSyntax) else ScanUint(s, 0)
  }

  /** `strconv.ParseInt(s, 10, 64)`, and `strconv.Atoi(s)` on a 64-bit platform. */
  function ParseInt(s: string): (r: Parsed)
    ensures MinInt64 <= r.value <= MaxInt64
    ensures r.err == ErrSyntax ==> r.value == 0
  {
    if s == [] then Parsed(0, ErrSyntax)
    else
      var neg := s[0] == '-';
      var u := ParseUint(Unsigned(s));
      if u.err == ErrSyntax then Parsed(0, ErrSyntax)
      else if !neg && u.value >= 0x8000_0000_0000_0000 then Parsed(MaxInt64, ErrRange)
      else if neg && u.value > 0x8000_0000_0000_0000 then Parsed(MinInt64, ErrRange)
      else Parsed(if neg then -u.value else u.value, u.err)
  }

  // ----- what the parser computes -----

  /** Scanning `p + t` is scanning `p`, then going on with `t` unless `p` stopped the scan. */
  lemma {:induction false} ScanAppend(p: string, t: string, acc: nat)
    requires acc <= MaxUint64
    ensures ScanUint(p + t, acc) ==
      (var r := ScanUint(p, acc); if r.err == NoError then ScanUint(t, r.value) else r)
  {
    if p == [] {
      assert p + t == t;
    } else {
      assert (p + t)[0] == p[0];
      assert (p + t)[1..] == p[1..] + t;
      var r := ScanStep(acc, p[0]);
      if r.err == NoError {
        ScanAppend(p[1..], t, r.value);
      }
    }
  }

  /** A run of digits scans to its value, or to a range error once the value passes 2^64 - 1. */
  lemma {:induction false} ScanDigits(p: string)
    requires AllDigits(p)
    ensures ScanUint(p, 0) ==
      if DecimalValue(p) <= MaxUint64 then Parsed(DecimalValue(p), NoError)
      else Parsed(MaxUint64, ErrRange)
  {
    if p != [] {
      var q, c := p[..|p| - 1], p[|p| - 1];
      assert p == q + [c];
      ScanDigits(q);
      ScanAppend(q, [c], 0);
    }
  }

  /** On `[+-]?[0-9]+` the parser yields the denoted number, clamped to int64, with a range error when clamped. */
  lemma ParseIntDecimal(s: string)
    requires IsDecimal(s)
    ensures var v: int := if |s| > 0 && s[0] == '-' then -(DecimalValue(Unsigned(s)) as int) else DecimalValue(Unsigned(s));
      ParseInt(s) == Parsed(Clamp(v), if MinInt64 <= v <= MaxInt64 then NoError else ErrRange)
  {
    ScanDigits(Unsigned(s));
  }

  /**
    Text that is not `[+-]?[0-9]+` parses to 0 with a syntax error, except
    when its leading digits already pass 2^64 - 1 before the first bad byte:
    then Go reports a range error with the clamped value.
   */
  lemma ParseIntNotDecimal(s: string)
    requires !IsDecimal(s)
    ensures var lead := LeadingDigits(Unsigned(s));
      ParseInt(s) ==
        if |Unsigned(s)| > 0 && DecimalValue(lead) > MaxUint64 then
          Parsed(if s[0] == '-' then MinInt64 else MaxInt64, ErrRange)
        else Parsed(0, ErrSyntax)
  {
    var u := Unsigned(s);
    if |u| > 0 {
      var lead := LeadingDigits(u);
      LeadingDigitsOfAllDigits(u);
      assert u == lead + u[|lead|..];
      ScanAppend(lead, u[|lead|..], 0);
      ScanDigits(lead);
    }
  }

  /** `ParseInt(FormatInt(n)) == n` with no error, for every int64 `n`. */
  lemma ParseFormatRoundTrip(n: Int64)
    ensures ParseInt(FormatInt(n)) == Parsed(n, NoError)
  {
    var k: int := if n < 0 then -(n as int) else n as int;
    var d := Digits(k);
    if n < 0 {
      assert Unsigned(FormatInt(n)) == d;
    } else {
      assert Unsigned(FormatInt(n)) == d;
    }
    ParseIntDecimal(FormatInt(n));
  }
}
