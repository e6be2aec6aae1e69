/** The text helpers the /proc readers are built from: fields, decimal integers, fixed-width arithmetic. */
module ProcText {
  import opened Helpers

  const TWO64: int := 0x1_0000_0000_0000_0000
  const MAX_U64: int := TWO64 - 1
  const MAX_I64: int := 0x7FFF_FFFF_FFFF_FFFF

  type U64 = n: int | 0 <= n < 0x1_0000_0000_0000_0000 witness 0

  /** Unsigned 64-bit arithmetic wraps; the conversion to a signed word reads the top half as negative. */
  function Add64(a: U64, b: U64): U64 {
    (a + b) % TWO64
  }

  function Mul64(a: U64, b: U64): U64 {
    (a * b) % TWO64
  }

  function ToI64(a: U64): int {
    if a <= MAX_I64 then a else a - TWO64
  }

  predicate IsSpace(c: char) {
    || '\t' <= c <= '\r' || c == ' ' || c == '\U{85}' || c == '\U{A0}' || c == '\U{1680}'
        || '\U{2000}' <= c <= '\U{200A}'
    || c == '\U{2028}' || c == '\U{2029}' || c == '\U{202F}' || c == '\U{205F}' || c == '\U{3000}'
  }

  /** Length of the leading run without white space. */
  function WordLength(s: string): (n: nat)
    ensures n <= |s| && (s != "" && !IsSpace(s[0]) ==> n > 0)
  {
    if s == "" || IsSpace(s[0]) then 0 else 1 + WordLength(s[1..])
  }

  function Fields(s: string): seq<string>
    decreases |s|
  {
    if s == "" then []
    else if IsSpace(s[0]) then Fields(s[1..])
    else [s[..WordLength(s)]] + Fields(s[WordLength(s)..])
  }

  function TrimLeft(s: string): (r: string)
    ensures |r| <= |s|
  {
    if s != "" && IsSpace(s[0]) then TrimLeft(s[1..]) else s
  }

  function TrimSpace(s: string): string
    decreases |s|
  {
    if s != "" && IsSpace(s[|s| - 1]) then TrimSpace(s[..|s| - 1]) else TrimLeft(s)
  }

  function ColonIndex(s: string): (i: Option<nat>)
    ensures i.Some? ==> i.value < |s| && s[i.value] == ':'
  {
    if s == "" then None
    else if s[0] == ':' then Some(0)
    else match ColonIndex(s[1..]) case None => None case Some(i) => Some(i + 1)
  }

  /** The value of a string of decimal digits, or None. */
  function Decimal(s: string): Option<nat> {
    if s == "" then Some(0)
    else if !('0' <= s[|s| - 1] <= '9') then None
    else
      match Decimal(s[..|s| - 1])
      case None => None
      case Some(n) => Some(10 * n + (s[|s| - 1] - '0') as nat)
  }

  function ParseUint(s: string): Option<U64> {
    match Decimal(s)
    case Some(n) => if s != "" && n <= MAX_U64 then Some(n) else None
    case None => None
  }

  function ParseInt(s: string): (r: Option<int>)
    ensures r.Some? ==> -MAX_I64 - 1 <= r.value <= MAX_I64
  {
    if s == "" then None
    else
      var digits := if s[0] == '-' || s[0] == '+' then s[1..] else s;
      match Decimal(digits)
      case None => None
      case Some(n) =>
        if digits == "" then None
        else
          var value := if s[0] == '-' then -(n as int) else n as int;
          if -MAX_I64 - 1 <= value <= MAX_I64 then Some(value) else None
  }
}
