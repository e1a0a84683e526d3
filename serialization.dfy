/**
 * The two serde field adapters of src/serialization.rs: `string_to_usize`
 * (a `usize` carried as a decimal string) and `string_json` (a JSON value
 * carried as a string holding its JSON text).
 */
module Serialization {
  import opened Wrappers
  import opened Json

  /** `usize::MAX` on the 64-bit targets modelled here. */
  const USIZE_MAX: nat := U64_MAX

  type usize = n: nat | n <= USIZE_MAX

  predicate IsDigit(c: char) { '0' <= c <= '9' }

  predicate AllDigits(s: string)
  {
    forall i :: 0 <= i < |s| ==> IsDigit(s[i])
  }

  function DigitValue(c: char): (d: nat)
    requires IsDigit(c)
    ensures d < 10
  {
    c as int - '0' as int
  }

  function DigitChar(d: nat): (c: char)
    requires d < 10
    ensures IsDigit(c) && DigitValue(c) == d
  {
    ('0' as int + d) as char
  }

  /**
   * `usize::to_string`: the decimal digits of `n`, most significant first,
   * with no sign and no leading zero.
   */
  function Decimal(n: nat): (s: string)
    ensures |s| >= 1 && AllDigits(s)
    ensures s[0] == '0' ==> n == 0 && |s| == 1
    decreases n
  {
    if n < 10 then [DigitChar(n)] else Decimal(n / 10) + [DigitChar(n % 10)]
  }

  /** The number a string of decimal digits denotes, with no bound (a reference definition). */
  function DigitsValue(s: string): nat
    requires AllDigits(s)
    decreases |s|
  {
    if |s| == 0 then 0 else DigitsValue(s[..|s| - 1]) * 10 + DigitValue(s[|s| - 1])
  }

  /**
   * The digit loop of Rust's `usize::from_str`, left to right: a character
   * that is not a decimal digit stops it with `InvalidDigit`, a value past
   * `usize::MAX` stops it with `PosOverflow`.
   */
  function Accumulate(acc: usize, digits: string): (r: Result<usize, IntErrorKind>)
    ensures r.Ok? ==> AllDigits(digits)
    ensures r.Err? ==> r.error != Empty
    decreases |digits|
  {
    if |digits| == 0 then Ok(acc)
    else if !IsDigit(digits[0]) then Err(InvalidDigit)
    else if acc * 10 + DigitValue(digits[0]) > USIZE_MAX then Err(PosOverflow)
    else Accumulate(acc * 10 + DigitValue(digits[0]), digits[1..])
  }

  /**
   * `str::parse::<usize>`: the empty string is `Empty`, a lone sign is
   * `InvalidDigit`, one leading `+` is skipped (a `-` is not, since the type
   * is unsigned), and the rest must be decimal digits whose value fits.
   */
  function ParseUsize(s: string): (r: Result<usize, IntErrorKind>)
    ensures |s| == 0 <==> r == Err(Empty)
    ensures |s| > 0 && s[0] == '-' ==> r == Err(InvalidDigit)
    ensures r.Ok? ==> |s| > 0 && (if s[0] == '+' then |s| > 1 && AllDigits(s[1..]) else AllDigits(s))
  {
    if |s| == 0 then Err(Empty)
    else if s == "+" || s == "-" then Err(InvalidDigit)
    else if s[0] == '+' then Accumulate(0, s[1..])
    else Accumulate(0, s)
  }

  /** The `Display` text of `ParseIntError`, which `E::custom` turns into the serde error. */
  function IntErrorMessage(kind: IntErrorKind): string
  {
    match kind
    case Empty => "cannot parse integer from empty string"
    case InvalidDigit => "invalid digit found in string"
    case PosOverflow => "number too large to fit in target type"
  }

  /** What `UsizeVisitor::expecting` reports for a JSON value of any other kind. */
  const EXPECTING: string := "a string containing a number"

  /** `string_to_usize::serialize`: the value's decimal text, as a JSON string. */
  function SerializeUsize(n: usize): (j: Json)
    ensures j.Str? && AllDigits(j.s) && DigitsValue(j.s) == n
    ensures |j.s| >= 1 && (j.s[0] == '0' ==> j.s == "0")
  {
    DecimalValue(n);
    Str(Decimal(n))
  }

  /**
   * `string_to_usize::deserialize` (`deserialize_any` with `UsizeVisitor`):
   * a string is parsed as a `usize`, an unsigned integer (`visit_u64`) is
   * taken as it is, and every other kind of value is rejected.
   */
  function DeserializeUsize(j: Json): (r: Result<usize, DeError>)
    ensures j.Str? ==> (r.Ok? <==> ParseUsize(j.s).Ok?)
    ensures j.Str? && r.Ok? ==> r.value == ParseUsize(j.s).value
    ensures j.Str? && r.Err? ==> r.error == Custom(IntErrorMessage(ParseUsize(j.s).error))
    ensures j.UInt? && j.n <= U64_MAX ==> r == Ok(j.n)
    ensures !j.Str? && !j.UInt? ==> r == Err(InvalidType(EXPECTING))
  {
    match j
    case Str(s) =>
      (match ParseUsize(s)
       case Ok(n) => Ok(n)
       case Err(kind) => Err(Custom(IntErrorMessage(kind))))
    case UInt(n) =>
      // serde_json reads an integer beyond u64 as a float, which the visitor refuses
      if n <= U64_MAX then Ok(n) else Err(InvalidType(EXPECTING))
    case _ => Err(InvalidType(EXPECTING))
  }

  lemma {:induction false} DecimalValue(n: nat)
    ensures DigitsValue(Decimal(n)) == n
    decreases n
  {
    if n >= 10 {
      DecimalValue(n / 10);
      var s := Decimal(n);
      assert s[..|s| - 1] == Decimal(n / 10);
    }
  }

  /**
   * On a string of digits, the left-to-right loop yields the value of the
   * digits when it fits and `PosOverflow` when it does not.
   */
  lemma {:induction false} AccumulateDigits(s: string)
    requires AllDigits(s)
    ensures Accumulate(0, s) == if DigitsValue(s) <= USIZE_MAX then Ok(DigitsValue(s)) else Err(PosOverflow)
    decreases |s|
  {
    if |s| > 0 {
      var p, c := s[..|s| - 1], s[|s| - 1];
      assert s == p + [c];
      AccumulateDigits(p);
      AccumulateAppend(0, p, [c]);
    }
  }

  /** The loop over `a + b` is the loop over `a` continued over `b`. */
  lemma {:induction false} AccumulateAppend(acc: usize, a: string, b: string)
    ensures Accumulate(acc, a + b) ==
      match Accumulate(acc, a)
      case Ok(v) => Accumulate(v, b)
      case Err(e) => Err(e)
    decreases |a|
  {
    if |a| == 0 {
      assert a + b == b;
    } else {
      assert (a + b)[0] == a[0];
      assert (a + b)[1..] == a[1..] + b;
      if IsDigit(a[0]) && acc * 10 + DigitValue(a[0]) <= USIZE_MAX {
        AccumulateAppend(acc * 10 + DigitValue(a[0]), a[1..], b);
      }
    }
  }

  /** A canonical decimal string: digits only, and no leading zero unless it is "0". */
  predicate Canonical(s: string)
  {
    |s| >= 1 && AllDigits(s) && (s[0] == '0' ==> |s| == 1)
  }

  /** A digit string with a non-zero first digit denotes at least 10^(length - 1), so at least 1. */
  lemma {:induction false} LeadingDigitPositive(s: string)
    requires |s| >= 1 && AllDigits(s) && s[0] != '0'
    ensures DigitsValue(s) >= 1
    decreases |s|
  {
    if |s| > 1 {
      LeadingDigitPositive(s[..|s| - 1]);
    }
  }

  /** `to_string` undoes the value of a canonical digit string. */
  lemma {:induction false} DecimalOfDigitsValue(s: string)
    requires Canonical(s)
    ensures Decimal(DigitsValue(s)) == s
    decreases |s|
  {
    if |s| > 1 {
      var p := s[..|s| - 1];
      assert p[0] == s[0];
      LeadingDigitPositive(p);
      DecimalOfDigitsValue(p);
      var v := DigitsValue(s);
      assert v / 10 == DigitsValue(p) && v % 10 == DigitValue(s[|s| - 1]);
      assert s == p + [s[|s| - 1]];
    }
  }

  /** Round trip: every `usize` key survives serialization then deserialization. */
  lemma UsizeRoundTrip(n: usize)
    ensures DeserializeUsize(SerializeUsize(n)) == Ok(n)
  {
    var s := Decimal(n);
    DecimalValue(n);
    AccumulateDigits(s);
    assert s != "+" && s != "-" && s[0] != '+';
  }

  /**
   * The other direction: a canonical decimal string that deserializes to
   * `n` is exactly what serializing `n` produces.
   */
  lemma CanonicalRoundTrip(s: string)
    requires Canonical(s) && DeserializeUsize(Str(s)).Ok?
    ensures SerializeUsize(DeserializeUsize(Str(s)).value) == Str(s)
  {
    assert s != "+" && s != "-" && s[0] != '+';
    AccumulateDigits(s);
    DecimalOfDigitsValue(s);
  }

  /** Rust's integer parsing also takes one leading `+`. */
  lemma PlusSignAccepted(n: usize)
    ensures DeserializeUsize(Str("+" + Decimal(n))) == Ok(n)
  {
    var s := "+" + Decimal(n);
    assert s[1..] == Decimal(n);
    DecimalValue(n);
    AccumulateDigits(Decimal(n));
  }

  /** `string_json::serialize`: the value's JSON text (`Value::to_string`), as a JSON string. */
  function SerializeJsonString(value: Json, render: Json -> string): (j: Json)
    ensures j.Str? && j.s == render(value)
  {
    Str(render(value))
  }

  /**
   * A character serde_json's serializer always writes as an escape sequence
   * inside a string: the quote, the backslash and the control characters
   * below U+0020. It escapes nothing else.
   */
  predicate MustEscape(c: char)
  {
    c == '"' || c == '\\' || c < ' '
  }

  /** True when serde_json writes `s` on the wire with at least one escape. */
  predicate HasEscape(s: string)
  {
    exists i :: 0 <= i < |s| && MustEscape(s[i])
  }

  /** What the visitor of `&str` expects when serde_json cannot lend it the text. */
  const BORROWED_STRING: string := "a borrowed string"

  /**
   * `string_json::deserialize`: the value is read as a borrowed `&str`,
   * which serde_json can lend only when the wire text has no escape;
   * otherwise, and for a value that is not a string, it is an
   * `InvalidType` error. The text lent is parsed as JSON and a parse
   * failure is returned as the serde error.
   */
  function DeserializeJsonString(j: Json, parse: string -> Result<Json, DeError>): (r: Result<Json, DeError>)
    ensures j.Str? && !HasEscape(j.s) ==> r == parse(j.s)
    ensures j.Str? && HasEscape(j.s) ==> r == Err(InvalidType(BORROWED_STRING))
    ensures !j.Str? ==> r == Err(InvalidType(BORROWED_STRING))
  {
    match j
    case Str(s) => if HasEscape(s) then Err(InvalidType(BORROWED_STRING)) else parse(s)
    case _ => Err(InvalidType(BORROWED_STRING))
  }

  /**
   * A value comes back exactly as serde_json's own parse of its rendering
   * gives it back, provided the rendering needs no escape on the wire; a
   * rendering that does (every string, every non-empty object, every
   * array holding one of those) cannot be read back at all.
   */
  lemma JsonStringRoundTrip(value: Json, render: Json -> string, parse: string -> Result<Json, DeError>)
    ensures !HasEscape(render(value)) ==>
      DeserializeJsonString(SerializeJsonString(value, render), parse) == parse(render(value))
    ensures HasEscape(render(value)) ==>
      DeserializeJsonString(SerializeJsonString(value, render), parse) == Err(InvalidType(BORROWED_STRING))
  {
  }

  /**
   * The evidently intended adapter: reading an owned `String`, which
   * serde_json produces whether or not the text was escaped.
   */
  function DeserializeOwnedJsonString(j: Json, parse: string -> Result<Json, DeError>): (r: Result<Json, DeError>)
    ensures j.Str? ==> r == parse(j.s)
    ensures !j.Str? ==> r.Err? && r.error.InvalidType?
  {
    match j
    case Str(s) => parse(s)
    case _ => Err(InvalidType("a string"))
  }

  /** With an owned string the adapter round-trips whatever the parser reads back. */
  lemma OwnedJsonStringRoundTrip(value: Json, render: Json -> string, parse: string -> Result<Json, DeError>)
    ensures DeserializeOwnedJsonString(SerializeJsonString(value, render), parse) == parse(render(value))
  {
  }
}
