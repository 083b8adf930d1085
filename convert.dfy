/**
  The total conversions of the database layer (`mysql/convert.go`): each one
  is a type switch over a Go `interface{}` value that returns a string, an
  int, an int64 or a bool, falling back to a default for every case it has
  no branch for.
 */
module Convert {
  import opened Values
  import opened Strconv

  /**
    A Go `interface{}` value as the conversions see it: the dynamic types
    they have a branch for (float64 and time.Time excepted) and `GoOther`
    for any dynamic type none of the four conversions has a branch for.
   */
  datatype Any =
    | GoNil
    | GoString(s: string)
    | GoBytes(bytes: seq<Byte>)
    | GoInt(i: Int64)
    | GoInt64(i64: Int64)
    | GoBool(b: bool)
    | GoOther

  /** `ToString`. */
  function ToString(param: Any): string
  {
    match param
    case GoString(s) => s
    case GoBytes(b) => BytesToString(b)
    case GoInt(n) => FormatInt(n)
    case GoInt64(n) => FormatInt(n)
    case GoBool(b) => if b then "1" else "0"
    case GoNil => ""
    case GoOther => ""
  }

  /** `ToInt`: a Go `int`, 64 bits wide here. Parse errors are dropped with `r, _ :=`. */
  function ToInt(param: Any): (r: int)
    ensures MinInt64 <= r <= MaxInt64
  {
    match param
    case GoInt(n) => n
    case GoInt64(n) => n
    case GoBytes(b) => ParseInt(BytesToString(b)).value
    case GoString(s) => ParseInt(s).value
    case GoBool(b) => if b then 1 else 0
    case GoNil => 0
    case GoOther => 0
  }

  /** `ToInt64`. */
  function ToInt64(param: Any): (r: int)
    ensures MinInt64 <= r <= MaxInt64
  {
    match param
    case GoInt(n) => n
    case GoInt64(n) => n
    case GoBytes(b) => ParseInt(BytesToString(b)).value
    case GoString(s) => ParseInt(s).value
    case GoBool(b) => if b then 1 else 0
    case GoNil => 0
    case GoOther => 0
  }

  /** The words `ToBool` reads as true; its explicit false words fall to false like every other text. */
  const TrueWords: set<string> := {"1", "true", "y", "on", "yes"}

  /** `ToBool`. A Go `int` has no branch and falls to the default. */
  function ToBool(param: Any): bool
  {
    match param
    case GoBool(b) => b
    case GoInt64(n) => n > 0
    case GoBytes(b) => BytesToString(b) in TrueWords
    case GoString(s) => s in TrueWords
    case GoNil => false
    case GoInt(_) => false
    case GoOther => false
  }

  // ----- ToString -----

  /** A string comes back unchanged, and a byte slice as a string of the same bytes. */
  lemma ToStringOfText(s: string, b: seq<Byte>)
    ensures ToString(GoString(s)) == s
    ensures |ToString(GoBytes(b))| == |b|
    ensures forall i :: 0 <= i < |b| ==> ToString(GoBytes(b))[i] as int == b[i]
  {
  }

  /** `true` is "1", `false` is "0", and nil or an unsupported type is "". */
  lemma ToStringOfBoolAndDefaults(b: bool)
    ensures ToString(GoBool(b)) == if b then "1" else "0"
    ensures ToString(GoNil) == "" && ToString(GoOther) == ""
  {
  }

  // ----- ToInt / ToInt64 -----

  /** Every int and int64 survives a trip through its decimal text, held as a string or as bytes. */
  lemma IntTextRoundTrip(n: Int64, b: seq<Byte>)
    ensures ToInt(GoString(ToString(GoInt(n)))) == n
    ensures ToInt64(GoString(ToString(GoInt64(n)))) == n
    ensures BytesToString(b) == ToString(GoInt(n)) ==> ToInt(GoBytes(b)) == n && ToInt64(GoBytes(b)) == n
  {
    ParseFormatRoundTrip(n);
  }

  /**
    Text that is not `[+-]?[0-9]+` converts to 0, unless its leading digits
    already overflow 64 bits (then Go's parser reports the clamped value);
    decimal text converts to its value, clamped to the int64 range. A byte
    slice converts as the string of the same bytes.
   */
  lemma ToIntOfText(s: string, b: seq<Byte>)
    ensures ToInt(GoString(s)) == ToInt64(GoString(s))
    ensures IsDecimal(s) ==>
      ToInt(GoString(s)) == Clamp(if s[0] == '-' then -(DecimalValue(Unsigned(s)) as int) else DecimalValue(Unsigned(s)))
    ensures !IsDecimal(s) && (|Unsigned(s)| == 0 || DecimalValue(LeadingDigits(Unsigned(s))) <= MaxUint64) ==>
      ToInt(GoString(s)) == 0
    ensures var t := BytesToString(b);
      && ToInt(GoBytes(b)) == ToInt64(GoBytes(b)) == ToInt(GoString(t))
      && (IsDecimal(t) ==>
            ToInt(GoBytes(b)) == Clamp(if t[0] == '-' then -(DecimalValue(Unsigned(t)) as int) else DecimalValue(Unsigned(t))))
      && (!IsDecimal(t) && (|Unsigned(t)| == 0 || DecimalValue(LeadingDigits(Unsigned(t))) <= MaxUint64) ==>
            ToInt(GoBytes(b)) == 0)
  {
    TextValue(s);
    TextValue(BytesToString(b));
  }

  /** The value `strconv.ParseInt(s, 10, 64)` gives, which the text cases keep and whose error they drop. */
  lemma TextValue(s: string)
    ensures IsDecimal(s) ==>
      ParseInt(s).value == Clamp(if s[0] == '-' then -(DecimalValue(Unsigned(s)) as int) else DecimalValue(Unsigned(s)))
    ensures !IsDecimal(s) && (|Unsigned(s)| == 0 || DecimalValue(LeadingDigits(Unsigned(s))) <= MaxUint64) ==>
      ParseInt(s).value == 0
  {
    if IsDecimal(s) {
      ParseIntDecimal(s);
    } else {
      ParseIntNotDecimal(s);
    }
  }

  /** An int or int64 converts to itself, `true`/`false` to 1/0, and nil and unsupported types to 0. */
  lemma ToIntOfBoolAndDefaults(b: bool, n: Int64)
    ensures ToInt(GoInt(n)) == ToInt64(GoInt(n)) == n
    ensures ToInt(GoInt64(n)) == ToInt64(GoInt64(n)) == n
    ensures ToInt(GoBool(b)) == ToInt64(GoBool(b)) == if b then 1 else 0
    ensures ToInt(GoNil) == ToInt64(GoNil) == 0
    ensures ToInt(GoOther) == ToInt64(GoOther) == 0
  {
  }

  /** On a 64-bit platform `ToInt` and `ToInt64` agree on every value. */
  lemma ToIntIsToInt64(param: Any)
    ensures ToInt(param) == ToInt64(param)
  {
  }

  // ----- ToBool -----

  /** Text is true exactly for "1", "true", "y", "on" and "yes", as a string or as bytes. */
  lemma ToBoolOfText(s: string, b: seq<Byte>)
    ensures ToBool(GoString(s)) <==> s == "1" || s == "true" || s == "y" || s == "on" || s == "yes"
    ensures ToBool(GoBytes(b)) <==> ToBool(GoString(BytesToString(b)))
  {
  }

  /** A bool survives a trip through `ToString`. */
  lemma BoolTextRoundTrip(b: bool)
    ensures ToBool(GoString(ToString(GoBool(b)))) == b
  {
  }

  /** An int64 is true when positive; a plain int is always false; nil and unsupported types are false. */
  lemma ToBoolOfNumbers(n: Int64)
    ensures ToBool(GoInt64(n)) <==> n > 0
    ensures !ToBool(GoInt(n))
    ensures !ToBool(GoNil) && !ToBool(GoOther)
  {
  }

  /** Because a plain int has no branch, `ToBool` does not undo `ToInt` on `true`. */
  lemma ToBoolDoesNotUndoToInt()
    ensures ToInt(GoBool(true)) == 1
    ensures !ToBool(GoInt(ToInt(GoBool(true))))
  {
  }
}
