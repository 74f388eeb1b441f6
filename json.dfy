/**
 * Parsed JSON payloads and the two typed lookups the handler performs on them,
 * `payload.Value<string>(key)` and `payload.Value<int>(key)` of Newtonsoft.Json.
 * Parsing itself is not modelled: a payload is an already-parsed map from keys to values.
 */
module Json {
  import opened Wrappers

  /** A JSON value as far as the typed lookups can tell values apart; objects and arrays are one case. */
  datatype JsonValue = JNull | JBool(b: bool) | JInteger(n: int) | JString(s: string) | JContainer

  type Payload = map<string, JsonValue>

  /** Why a typed lookup threw: a cast that cannot be made, an Int32 overflow, or an unparsable string. */
  datatype ConversionError = InvalidCast | Overflow | BadFormat

  const Int32Min: int := -0x8000_0000
  const Int32Max: int := 0x7FFF_FFFF
  const Int64Min: int := -0x8000_0000_0000_0000
  const Int64Max: int := 0x7FFF_FFFF_FFFF_FFFF

  predicate InInt32(n: int) { Int32Min <= n <= Int32Max }

  /** Integers Newtonsoft holds as an Int64; larger ones become a BigInteger, which converts to nothing. */
  predicate InInt64(n: int) { Int64Min <= n <= Int64Max }

  predicate IsDigit(c: char) { '0' <= c <= '9' }

  predicate AllDigits(s: string) { forall k :: 0 <= k < |s| ==> IsDigit(s[k]) }

  /** The characters Int32.Parse skips before and after the number. */
  predicate IsWhite(c: char) { c == ' ' || '\t' <= c <= '\r' }

  function DigitChar(d: nat): (c: char)
    requires d < 10
    ensures IsDigit(c) && c as int - '0' as int == d
  {
    ('0' as int + d) as char
  }

  /** The invariant-culture decimal form of a natural number, most significant digit first. */
  function NatToDecimal(n: nat): (r: string)
    ensures |r| >= 1 && AllDigits(r)
  {
    if n < 10 then [DigitChar(n)] else NatToDecimal(n / 10) + [DigitChar(n % 10)]
  }

  /** `n.ToString(CultureInfo.InvariantCulture)` for an integer. */
  function IntToDecimal(n: int): (r: string)
    ensures |r| >= 1
    ensures (r[0] == '-') == (n < 0)
    ensures AllDigits(if n < 0 then r[1..] else r) && |if n < 0 then r[1..] else r| >= 1
  {
    if n < 0 then "-" + NatToDecimal(-n) else NatToDecimal(n)
  }

  /** The value of a string of decimal digits, most significant first. */
  function DigitsValue(ds: string): nat
    requires AllDigits(ds)
  {
    if |ds| == 0 then 0
    else DigitsValue(ds[..|ds| - 1]) * 10 + (ds[|ds| - 1] as int - '0' as int)
  }

  function TrimStartWhite(s: string): (r: string)
    ensures |r| <= |s| && r == s[|s| - |r|..]
    ensures |r| > 0 ==> !IsWhite(r[0])
  {
    if |s| > 0 && IsWhite(s[0]) then TrimStartWhite(s[1..]) else s
  }

  function TrimEndWhite(s: string): (r: string)
    ensures |r| <= |s| && r == s[..|r|]
    ensures |r| > 0 ==> !IsWhite(r[|r| - 1])
  {
    if |s| > 0 && IsWhite(s[|s| - 1]) then TrimEndWhite(s[..|s| - 1]) else s
  }

  function TrimWhite(s: string): string
  {
    TrimEndWhite(TrimStartWhite(s))
  }

  /** One optional sign, then at least one decimal digit, within Int32. */
  function ParseSigned(t: string): (r: Result<int, ConversionError>)
    ensures r.Success? ==> InInt32(r.value)
  {
    var signed := |t| > 0 && (t[0] == '-' || t[0] == '+');
    var digits := if signed then t[1..] else t;
    if |digits| == 0 || !AllDigits(digits) then Failure(BadFormat)
    else
      var v: int := if signed && t[0] == '-' then -(DigitsValue(digits) as int) else DigitsValue(digits);
      if InInt32(v) then Success(v) else Failure(Overflow)
  }

  /** `Int32.Parse(s, NumberStyles.Integer, CultureInfo.InvariantCulture)`: surrounding white space,
      one optional sign, then at least one decimal digit. */
  function ParseInt32(s: string): (r: Result<int, ConversionError>)
    ensures r.Success? ==> InInt32(r.value)
  {
    ParseSigned(TrimWhite(s))
  }

  /** `payload.Value<string>(key)`: null when the key is missing or maps to null, the text of a
      scalar otherwise, and an invalid cast for an object, an array or an integer beyond Int64. */
  function ValueAsString(p: Payload, key: string): (r: Result<Option<string>, ConversionError>)
    ensures key !in p ==> r == Success(None)
    ensures key in p && p[key].JString? ==> r == Success(Some(p[key].s))
    ensures key in p && p[key].JInteger? ==> (r.Success? <==> InInt64(p[key].n))
  {
    if key !in p then Success(None)
    else
      match p[key]
      case JNull => Success(None)
      case JBool(b) => Success(Some(if b then "True" else "False"))
      case JInteger(n) => if InInt64(n) then Success(Some(IntToDecimal(n))) else Failure(InvalidCast)
      case JString(s) => Success(Some(s))
      case JContainer => Failure(InvalidCast)
  }

  /** `payload.Value<int>(key)`: the default 0 when the key is missing, a checked conversion to
      Int32 of a scalar, and an invalid cast for null, an object or an array. */
  function ValueAsInt32(p: Payload, key: string): (r: Result<int, ConversionError>)
    ensures r.Success? ==> InInt32(r.value)
  {
    if key !in p then Success(0)
    else
      match p[key]
      case JNull => Failure(InvalidCast)
      case JBool(b) => Success(if b then 1 else 0)
      case JInteger(n) => if InInt32(n) then Success(n) else Failure(Overflow)
      case JString(s) => ParseInt32(s)
      case JContainer => Failure(InvalidCast)
  }

  /** Reading back the decimal form of a natural number gives the number. */
  lemma {:induction false} DigitsValueOfDecimal(n: nat)
    ensures DigitsValue(NatToDecimal(n)) == n
  {
    if n >= 10 {
      DigitsValueOfDecimal(n / 10);
      var ds := NatToDecimal(n);
      assert ds[..|ds| - 1] == NatToDecimal(n / 10);
    }
  }

  /** A string with no white space at either end is left alone by the trimming. */
  lemma TrimWhiteNoop(s: string)
    requires |s| > 0 && !IsWhite(s[0]) && !IsWhite(s[|s| - 1])
    ensures TrimWhite(s) == s
  {
  }

  /** The sign-and-digits reader inverts the decimal formatting of every Int32. */
  lemma ParseSignedOfDecimal(n: int)
    requires InInt32(n)
    ensures ParseSigned(IntToDecimal(n)) == Success(n)
  {
    var mag: nat := if n < 0 then -n else n;
    var ds := NatToDecimal(mag);
    DigitsValueOfDecimal(mag);
    if n < 0 {
      var t := "-" + ds;
      assert IntToDecimal(n) == t;
      assert t[0] == '-' && t[1..] == ds;
    } else {
      assert IntToDecimal(n) == ds;
      assert IsDigit(ds[0]);
    }
  }

  /** Int32.Parse inverts the decimal formatting of every Int32. */
  lemma ParseInt32OfDecimal(n: int)
    requires InInt32(n)
    ensures ParseInt32(IntToDecimal(n)) == Success(n)
  {
    var s := IntToDecimal(n);
    var ds := NatToDecimal(if n < 0 then -n else n);
    assert s == if n < 0 then "-" + ds else ds;
    assert s[|s| - 1] == ds[|ds| - 1];
    assert IsDigit(ds[0]) && IsDigit(ds[|ds| - 1]);
    TrimWhiteNoop(s);
    ParseSignedOfDecimal(n);
  }

  /** A number and its quoted decimal text give the same Value<int>, namely the number. */
  lemma QuotedIntegerConvertsAlike(p: Payload, key: string, n: int)
    requires InInt32(n)
    ensures ValueAsInt32(p[key := JString(IntToDecimal(n))], key) == ValueAsInt32(p[key := JInteger(n)], key)
    ensures ValueAsInt32(p[key := JInteger(n)], key) == Success(n)
  {
    var quoted := p[key := JString(IntToDecimal(n))];
    assert key in quoted && quoted[key] == JString(IntToDecimal(n));
    assert ValueAsInt32(quoted, key) == ParseInt32(IntToDecimal(n));
    ParseInt32OfDecimal(n);
  }

  /** Value<string> of a number is its decimal text, which Value<int> reads back. */
  lemma IntegerTextRoundTrip(p: Payload, key: string, n: int)
    requires key in p && p[key] == JInteger(n) && InInt32(n)
    ensures ValueAsString(p, key) == Success(Some(IntToDecimal(n)))
    ensures ValueAsInt32(p[key := JString(IntToDecimal(n))], key) == Success(n)
  {
    QuotedIntegerConvertsAlike(p, key, n);
  }
}
