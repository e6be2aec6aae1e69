/** Canonical UUID text, as internal/job/job.go checks it.
    A UUID is a 128-bit number; its canonical text is 32 lower-case hex digits,
    most significant first, grouped 8-4-4-4-12 by hyphens. */
module Uuids {
  import opened Helpers

  function Pow16(k: nat): (p: nat)
    ensures p > 0
  {
    if k == 0 then 1 else 16 * Pow16(k - 1)
  }

  type Uuid = n: nat | n < Pow16(32) witness 0

  const LOWER_HEX: string := "0123456789abcdef"

  /** The `k` low hex digits of `n`, most significant first. */
  function Digits(n: nat, k: nat): (ds: seq<nat>)
    ensures |ds| == k
    ensures forall i :: 0 <= i < k ==> ds[i] < 16
  {
    if k == 0 then [] else Digits(n / 16, k - 1) + [n % 16]
  }

  function Value(ds: seq<nat>): (n: nat)
  {
    if ds == [] then 0 else 16 * Value(ds[..|ds| - 1]) + ds[|ds| - 1]
  }

  lemma {:induction false} ValueOfDigits(n: nat, k: nat)
    requires n < Pow16(k)
    ensures Value(Digits(n, k)) == n
  {
    if k > 0 {
      assert n / 16 < Pow16(k - 1);
      ValueOfDigits(n / 16, k - 1);
      var ds := Digits(n, k);
      assert ds[..k - 1] == Digits(n / 16, k - 1);
    }
  }

  lemma {:induction false} ValueBound(ds: seq<nat>)
    requires forall i :: 0 <= i < |ds| ==> ds[i] < 16
    ensures Value(ds) < Pow16(|ds|)
  {
    if ds != [] {
      ValueBound(ds[..|ds| - 1]);
    }
  }

  function HexChar(d: nat): (c: char)
    requires d < 16
  {
    LOWER_HEX[d]
  }

  /** Either letter case is a hex digit, as the parsing library accepts. */
  function HexValue(c: char): (d: Option<nat>)
    ensures d.Some? ==> d.value < 16
  {
    if '0' <= c <= '9' then Some((c - '0') as nat)
    else if 'a' <= c <= 'f' then Some((c - 'a') as nat + 10)
    else if 'A' <= c <= 'F' then Some((c - 'A') as nat + 10)
    else None
  }

  lemma HexCharRoundTrip(d: nat)
    requires d < 16
    ensures HexValue(HexChar(d)) == Some(d)
  {
    assert LOWER_HEX == ['0', '1', '2', '3', '4', '5', '6', '7', '8', '9', 'a', 'b', 'c', 'd', 'e', 'f'];
  }

  predicate IsHyphenIndex(i: int) {
    i == 8 || i == 13 || i == 18 || i == 23
  }

  /** Which of the 32 digits stands at text position `i`. */
  function DigitIndex(i: nat): (k: nat)
    requires i < 36
    ensures k <= 32 && (!IsHyphenIndex(i) ==> k < 32)
  {
    i - (if i > 8 then 1 else 0) - (if i > 13 then 1 else 0)
      - (if i > 18 then 1 else 0) - (if i > 23 then 1 else 0)
  }

  /** The text position of digit `k`. */
  function TextIndex(k: nat): (i: nat)
    requires k < 32
    ensures i < 36 && !IsHyphenIndex(i) && DigitIndex(i) == k
  {
    k + (if k >= 8 then 1 else 0) + (if k >= 12 then 1 else 0)
      + (if k >= 16 then 1 else 0) + (if k >= 20 then 1 else 0)
  }

  function Format(id: Uuid): (s: string)
    ensures |s| == 36
  {
    var ds := Digits(id, 32);
    seq(36, i requires 0 <= i < 36 => if IsHyphenIndex(i) then '-' else HexChar(ds[DigitIndex(i)]))
  }

  predicate WellGrouped(s: string) {
    && |s| == 36
    && (forall i :: 0 <= i < 36 && IsHyphenIndex(i) ==> s[i] == '-')
    && (forall k :: 0 <= k < 32 ==> HexValue(s[TextIndex(k)]).Some?)
  }

  function HexDigits(s: string): (ds: seq<nat>)
    requires WellGrouped(s)
    ensures |ds| == 32 && forall k :: 0 <= k < 32 ==> ds[k] < 16 && HexValue(s[TextIndex(k)]) == Some(ds[k])
  {
    seq(32, k requires 0 <= k < 32 => HexValue(s[TextIndex(k)]).value)
  }

  function Parse(s: string): (r: Option<Uuid>)
  {
    if WellGrouped(s) then
      ValueBound(HexDigits(s));
      Some(Value(HexDigits(s)))
    else None
  }

  /** Parse, then insist that the text is the canonical rendering. The library's other
      accepted spellings (braces, a urn prefix, no hyphens) are not 36 characters of this
      shape, so the comparison refuses them whatever the parser answers. */
  function ValidateCanonical(s: string): (r: Option<Uuid>)
  {
    match Parse(s)
    case None => None
    case Some(id) => if Format(id) == s then Some(id) else None
  }

  lemma FormatParses(id: Uuid)
    ensures Parse(Format(id)) == Some(id)
  {
    var s, ds := Format(id), Digits(id, 32);
    forall k | 0 <= k < 32 ensures HexValue(s[TextIndex(k)]) == Some(ds[k]) {
      HexCharRoundTrip(ds[k]);
    }
    assert WellGrouped(s);
    assert HexDigits(s) == ds;
    ValueOfDigits(id, 32);
  }

  /** The accepted texts are exactly the renderings of UUIDs, each naming its own UUID. */
  lemma CanonicalIff(s: string, id: Uuid)
    ensures ValidateCanonical(s) == Some(id) <==> s == Format(id)
  {
    FormatParses(id);
  }

  lemma {:induction false} DigitsOfValue(ds: seq<nat>)
    requires forall i :: 0 <= i < |ds| ==> ds[i] < 16
    ensures Digits(Value(ds), |ds|) == ds
  {
    if ds != [] {
      var front := ds[..|ds| - 1];
      DigitsOfValue(front);
      assert Value(ds) / 16 == Value(front) && Value(ds) % 16 == ds[|ds| - 1];
      assert ds == front + [ds[|ds| - 1]];
    }
  }

  predicate LowerCase(s: string) {
    forall i :: 0 <= i < |s| ==> !('A' <= s[i] <= 'F')
  }

  lemma HexLetterRoundTrip(c: char)
    requires HexValue(c).Some? && !('A' <= c <= 'F')
    ensures HexChar(HexValue(c).value) == c
  {
    assert LOWER_HEX == ['0', '1', '2', '3', '4', '5', '6', '7', '8', '9', 'a', 'b', 'c', 'd', 'e', 'f'];
  }

  /** Rendering what was parsed gives a well-grouped lower-case text back. */
  lemma ParseFormats(s: string)
    requires WellGrouped(s) && LowerCase(s)
    ensures Parse(s).Some? && Format(Parse(s).value) == s
  {
    var ds := HexDigits(s);
    DigitsOfValue(ds);
    var t := Format(Parse(s).value);
    forall i | 0 <= i < 36 ensures t[i] == s[i] {
      if !IsHyphenIndex(i) {
        assert TextIndex(DigitIndex(i)) == i;
        HexLetterRoundTrip(s[i]);
      }
    }
  }

  lemma DivDiv(n: nat, p: nat)
    requires p > 0
    ensures n / 16 / p == n / (16 * p)
  {
    var m := 16 * p;
    var q, r := n / m, n % m;
    assert n == q * m + r == 16 * (q * p) + r;
    assert n / 16 == q * p + r / 16;
    assert 0 <= r / 16 < p;
    DivStep(q, p, r / 16);
  }

  lemma DivStep(q: nat, p: nat, r: nat)
    requires r < p
    ensures (q * p + r) / p == q
  {
    var k := (q * p + r) / p;
    assert k * p <= q * p + r < (k + 1) * p;
    MulMonotone(k + 1, q, p);
    MulMonotone(q + 1, k, p);
  }

  lemma MulMonotone(a: nat, b: nat, p: nat)
    ensures a <= b ==> a * p <= b * p
  {
    if a <= b {
      assert b * p - a * p == (b - a) * p >= 0;
    }
  }

  lemma {:induction false} DigitAt(n: nat, k: nat, i: nat)
    requires i < k
    ensures Digits(n, k)[i] == n / Pow16(k - 1 - i) % 16
    decreases k
  {
    if i < k - 1 {
      DigitAt(n / 16, k - 1, i);
      DivDiv(n, Pow16(k - 2 - i));
    }
  }

  /** The canonical text shows the number's hex digits, the most significant first, around the hyphens. */
  lemma FormatIsPositional(id: Uuid, k: nat)
    requires k < 32
    ensures Format(id)[TextIndex(k)] == HexChar(id / Pow16(31 - k) % 16)
  {
    DigitAt(id, 32, k);
  }
}
