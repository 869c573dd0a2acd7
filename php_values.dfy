/** The values json_decode($body, true) can hand back, and the parts of PHP's
    intval and array_key_exists the plugin applies to them. */
module PhpValues {

  /** A decoded JSON document. With the associative flag, a JSON object becomes a
      PHP array keyed by strings; a body that is not valid JSON decodes to null. */
  datatype JsonValue =
    | JNull
    | JBool(b: bool)
    | JInt(n: Int64)
    | JString(s: string)
    | JList(items: seq<JsonValue>)
    | JObject(members: map<string, JsonValue>)

  /** array_key_exists(key, v) for a string key: only a decoded object has string keys. */
  predicate HasKey(v: JsonValue, key: string)
    ensures HasKey(v, key) ==> v.JObject? && key in v.members
    ensures v.JObject? && key in v.members ==> HasKey(v, key)
    ensures v.JNull? || v.JBool? || v.JInt? || v.JString? || v.JList? ==> !HasKey(v, key)
  {
    v.JObject? && key in v.members
  }

  const Int64Min: int := -0x8000_0000_0000_0000
  const Int64Max: int := 0x7FFF_FFFF_FFFF_FFFF

  /** The integers a PHP int holds on a 64-bit platform. */
  type Int64 = n: int | Int64Min <= n <= Int64Max

  /** PHP's conversion of an over-long numeric string caps at the 64-bit limits. */
  function Saturate(n: int): (r: int)
    ensures Int64Min <= r <= Int64Max
    ensures Int64Min <= n <= Int64Max ==> r == n
    ensures n < Int64Min ==> r == Int64Min
    ensures n > Int64Max ==> r == Int64Max
  {
    if n < Int64Min then Int64Min else if n > Int64Max then Int64Max else n
  }

  /** The whitespace PHP skips in front of a numeric string. */
  predicate IsSpace(c: char)
  {
    c == ' ' || c == '\t' || c == '\n' || c == '\r' || c == '\U{000B}' || c == '\U{000C}'
  }

  predicate IsDigit(c: char)
  {
    '0' <= c <= '9'
  }

  predicate AllDigits(s: string)
  {
    forall i :: 0 <= i < |s| ==> IsDigit(s[i])
  }

  function TrimLeadingSpace(s: string): (r: string)
    ensures |r| <= |s| && r == s[|s| - |r|..]
    ensures forall i :: 0 <= i < |s| - |r| ==> IsSpace(s[i])
    ensures r == [] || !IsSpace(r[0])
  {
    if s != [] && IsSpace(s[0]) then TrimLeadingSpace(s[1..]) else s
  }

  /** The longest prefix of s made of decimal digits. */
  function LeadingDigits(s: string): (r: string)
    ensures |r| <= |s| && r == s[..|r|]
    ensures AllDigits(r)
    ensures |r| == |s| || !IsDigit(s[|r|])
  {
    if s != [] && IsDigit(s[0]) then [s[0]] + LeadingDigits(s[1..]) else []
  }

  function DigitValue(c: char): (d: nat)
    requires IsDigit(c)
  {
    c as int - '0' as int
  }

  function DigitChar(d: nat): (c: char)
    requires d < 10
    ensures IsDigit(c) && DigitValue(c) == d
  {
    ('0' as int + d) as char
  }

  /** The number a string of decimal digits denotes (0 for the empty string). */
  function DigitsValue(d: string): (n: nat)
    requires AllDigits(d)
  {
    if d == [] then 0 else DigitsValue(d[..|d| - 1]) * 10 + DigitValue(d[|d| - 1])
  }

  /** intval of a string: skip leading whitespace, read an optional sign and the
      leading digits, ignore the rest, and cap at the 64-bit range. */
  function IntValOfString(s: string): (r: int)
    ensures Int64Min <= r <= Int64Max
    ensures LeadingDigits(TrimLeadingSpace(s)) == [] &&
            (TrimLeadingSpace(s) == [] || (TrimLeadingSpace(s)[0] != '-' && TrimLeadingSpace(s)[0] != '+'))
            ==> r == 0
  {
    var w := TrimLeadingSpace(s);
    if w != [] && w[0] == '-' then Saturate(-(DigitsValue(LeadingDigits(w[1..])) as int))
    else if w != [] && w[0] == '+' then Saturate(DigitsValue(LeadingDigits(w[1..])))
    else Saturate(DigitsValue(LeadingDigits(w)))
  }

  /** intval(v) for the decoded JSON values modelled here. */
  function IntVal(v: JsonValue): (r: int)
    ensures v.JInt? ==> r == v.n
    ensures Int64Min <= r <= Int64Max
    ensures v.JNull? ==> r == 0
  {
    match v
    case JNull => 0
    case JBool(b) => if b then 1 else 0
    case JInt(n) => n
    case JString(s) => IntValOfString(s)
    case JList(items) => if items == [] then 0 else 1
    case JObject(members) => if |members| == 0 then 0 else 1
  }

  /** The decimal spelling of a natural number, without leading zeros. */
  function DecimalString(n: nat): (r: string)
    ensures r != [] && AllDigits(r)
  {
    if n < 10 then [DigitChar(n)] else DecimalString(n / 10) + [DigitChar(n % 10)]
  }

  /** The decimal spelling of an integer, with a minus sign when negative. */
  function SignedDecimal(n: int): (r: string)
  {
    if n < 0 then "-" + DecimalString(-n) else DecimalString(n)
  }

  lemma {:induction false} DecimalStringValue(n: nat)
    ensures DigitsValue(DecimalString(n)) == n
  {
    if n >= 10 {
      var d := DecimalString(n);
      assert d[..|d| - 1] == DecimalString(n / 10);
      DecimalStringValue(n / 10);
    }
  }

  lemma LeadingDigitsOfDigits(s: string)
    requires AllDigits(s)
    ensures LeadingDigits(s) == s
  {
  }

  /** intval reads back every 64-bit integer from its decimal spelling. */
  lemma IntValOfDecimal(n: int)
    requires Int64Min <= n <= Int64Max
    ensures IntVal(JString(SignedDecimal(n))) == n
  {
    var s := SignedDecimal(n);
    var digits := DecimalString(if n < 0 then -n else n);
    assert TrimLeadingSpace(s) == s;
    DecimalStringValue(if n < 0 then -n else n);
    if n < 0 {
      assert s[1..] == digits;
      LeadingDigitsOfDigits(digits);
    } else {
      assert s == digits;
      LeadingDigitsOfDigits(digits);
    }
  }

  /** intval is not guaranteed non-negative: a decoded negative number passes through. */
  lemma IntValCanBeNegative()
    ensures IntVal(JInt(-1)) < 0
    ensures IntVal(JString(SignedDecimal(-42))) == -42
  {
    IntValOfDecimal(-42);
  }
}
