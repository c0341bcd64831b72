/** The short device indicator shown next to an installation: the first 40 bits of a digest
    as eight base-32 characters, grouped as in section 6 of RFC 4648. */
module DeviceIndicator {
  import opened JsValues

  newtype byte = b: int | 0 <= b < 256

  const ALPHABET := "ABCDEFGHJKLMNPQRSTUVWXYZ23456789"
  const U64 := 0x1_0000_0000_0000_0000

  /** `value >> n`. */
  function Shr(value: nat, n: nat): nat {
    if n == 0 then value else Shr(value / 2, n - 1)
  }

  /** The big-endian value of some bytes. */
  function BytesValue(bytes: seq<byte>): nat {
    if bytes == [] then 0 else BytesValue(bytes[..|bytes| - 1]) * 256 + bytes[|bytes| - 1] as int
  }

  /** The last `n` big-endian base-32 digits of a value. */
  function Digits(value: nat, n: nat): (digits: seq<nat>)
    ensures |digits| == n && forall i :: 0 <= i < n ==> digits[i] < 32
  {
    if n == 0 then [] else Digits(value / 32, n - 1) + [value % 32]
  }

  function DigitsValue(digits: seq<nat>): nat {
    if digits == [] then 0 else DigitsValue(digits[..|digits| - 1]) * 32 + digits[|digits| - 1]
  }

  function Spell(digits: seq<nat>): (s: string)
    requires forall i :: 0 <= i < |digits| ==> digits[i] < 32
    ensures |s| == |digits| && forall i :: 0 <= i < |s| ==> s[i] == ALPHABET[digits[i]]
  {
    if digits == [] then "" else Spell(digits[..|digits| - 1]) + [ALPHABET[digits[|digits| - 1]]]
  }

  /** What the indicator of a digest must be. */
  function Indicator(digest: seq<byte>): string
    requires |digest| >= 5
  {
    var s := Spell(Digits(BytesValue(digest[..5]), 8));
    s[..4] + "-" + s[4..]
  }

  // ----- shifts -----

  lemma {:induction false} ShrTwice(value: nat, a: nat, b: nat)
    ensures Shr(Shr(value, a), b) == Shr(value, a + b)
  {
    if a > 0 {
      ShrTwice(value / 2, a - 1, b);
    }
  }

  /** Appending a byte moves every bit group up by eight. */
  lemma ShrOfAppended(value: nat, b: byte, n: nat)
    ensures Shr(value * 256 + b as int, 8 + n) == Shr(value, n)
  {
    var v := value * 256 + b as int;
    ShrByEight(v);
    ShrTwice(v, 8, n);
    assert v / 256 == value;
  }

  lemma ShrByFour(v: nat)
    ensures Shr(v, 4) == v / 16
  {
    assert Shr(v, 4) == Shr(v / 2, 3) == Shr(v / 4, 2) == Shr(v / 8, 1) == v / 16;
  }

  lemma ShrByEight(v: nat)
    ensures Shr(v, 8) == v / 256
  {
    ShrTwice(v, 4, 4);
    ShrByFour(v);
    ShrByFour(v / 16);
  }

  lemma ShrByFive(v: nat)
    ensures Shr(v, 5) == v / 32
  {
    ShrTwice(v, 4, 1);
    ShrByFour(v);
    assert Shr(v / 16, 1) == v / 32;
  }

  lemma {:induction false} DigitAt(value: nat, n: nat, k: nat)
    requires k < n
    ensures Digits(value, n)[k] == Shr(value, 5 * (n - 1 - k)) % 32
  {
    if k < n - 1 {
      DigitAt(value / 32, n - 1, k);
      ShrByFive(value);
      ShrTwice(value, 5, 5 * (n - 2 - k));
    }
  }

  // ----- the loop -----

  /** The characters in `out` spell the leading 5-bit groups of the `total` bits in `buffer`. */
  ghost predicate SpellsGroups(out: string, buffer: nat, total: nat) {
    && 5 * |out| <= total
    && forall k :: 0 <= k < |out| ==> out[k] == ALPHABET[Shr(buffer, total - 5 * (k + 1)) % 32]
  }

  lemma ByteKeepsGroups(out: string, buffer: nat, total: nat, b: byte)
    requires SpellsGroups(out, buffer, total)
    ensures SpellsGroups(out, buffer * 256 + b as int, total + 8)
  {
    forall k | 0 <= k < |out|
      ensures out[k] == ALPHABET[Shr(buffer * 256 + b as int, total + 8 - 5 * (k + 1)) % 32]
    {
      ShrOfAppended(buffer, b, total - 5 * (k + 1));
    }
  }

  /** The inner loop: emits the complete groups among the `bits` low bits of the buffer. */
  method EmitGroups(buffer: nat, total: nat, bits0: nat, out0: string) returns (out: string, bits: nat)
    requires SpellsGroups(out0, buffer, total) && |out0| < 8 && 5 * |out0| + bits0 == total && bits0 < 13
    ensures SpellsGroups(out, buffer, total) && |out| <= 8 && 5 * |out| + bits == total
    ensures |out| < 8 ==> bits < 5
  {
    out, bits := out0, bits0;
    while bits >= 5 && |out| < 8
      invariant SpellsGroups(out, buffer, total) && |out| <= 8 && 5 * |out| + bits == total
      decreases bits
    {
      var idx := Shr(buffer, bits - 5) % 32;
      out := out + [ALPHABET[idx]];
      bits := bits - 5;
    }
  }

  method InstallationDeviceIndicator(digest: seq<byte>) returns (indicator: string)
    requires |digest| >= 5
    ensures indicator == Indicator(digest)
  {
    hide SpellsGroups, BytesValue, Spell, Digits;
    var buffer: nat := 0;
    var bits: nat := 0;
    var out: string := "";
    var i := 0;
    NothingSpelled(digest);
    while i < |digest|
      invariant 0 <= i <= |digest| && |out| < 8
      invariant bits < 5 && 5 * |out| + bits == 8 * i
      invariant buffer == BytesValue(digest[..i])
      invariant SpellsGroups(out, buffer, 8 * i)
    {
      BufferFits(digest, i);
      ByteKeepsGroups(out, buffer, 8 * i, digest[i]);
      buffer := (buffer * 256 + digest[i] as int) % U64;
      bits := bits + 8;
      i := i + 1;
      out, bits := EmitGroups(buffer, 8 * i, bits, out);
      if |out| == 8 {
        break;
      }
    }
    assert i == 5 && |out| == 8;
    SpelledDigits(out, buffer, 40);
    out := Pad(out);
    indicator := out[..4] + "-" + out[4..8];
    assert out[4..8] == out[4..];
  }

  lemma NothingSpelled(digest: seq<byte>)
    ensures BytesValue(digest[..0]) == 0 && SpellsGroups("", 0, 0)
  {
  }

  /** Fills up to eight characters; an indicator that is complete is left alone. */
  method Pad(out0: string) returns (out: string)
    requires |out0| <= 8
    ensures |out| == 8 && out0 <= out
  {
    out := out0;
    while |out| < 8
      invariant |out| <= 8 && out0 <= out
    {
      out := out + "X";
    }
  }

  /** Up to five bytes fit the 64-bit buffer, so nothing is shifted out. */
  lemma BufferFits(digest: seq<byte>, i: nat)
    requires i < |digest| && i <= 4
    ensures (BytesValue(digest[..i]) * 256 + digest[i] as int) % U64 == BytesValue(digest[..i + 1])
    ensures BytesValue(digest[..i + 1]) == BytesValue(digest[..i]) * 256 + digest[i] as int
  {
    assert digest[..i + 1][..i] == digest[..i];
    BytesBound(digest[..i + 1]);
    assert Power256(1) == 256 && Power256(2) == 0x1_0000 && Power256(3) == 0x100_0000;
    assert Power256(4) == 0x1_0000_0000 && Power256(5) == 0x100_0000_0000;
  }

  function Power256(i: nat): nat {
    if i == 0 then 1 else 256 * Power256(i - 1)
  }

  lemma {:induction false} BytesBound(bytes: seq<byte>)
    ensures BytesValue(bytes) < Power256(|bytes|)
  {
    if bytes != [] {
      BytesBound(bytes[..|bytes| - 1]);
    }
  }

  lemma SpelledDigits(out: string, value: nat, total: nat)
    requires 5 * |out| == total && SpellsGroups(out, value, total)
    ensures out == Spell(Digits(value, |out|))
  {
    hide Digits, Spell, Shr;
    forall k | 0 <= k < |out| ensures out[k] == Spell(Digits(value, |out|))[k] {
      DigitAt(value, |out|, k);
      assert total - 5 * (k + 1) == 5 * (|out| - 1 - k);
    }
  }

  // ----- decoding -----

  function IndexOf(c: char): Option<nat> {
    if 'A' <= c <= 'H' then Some(c as int - 'A' as int)
    else if 'J' <= c <= 'N' then Some(c as int - 'A' as int - 1)
    else if 'P' <= c <= 'Z' then Some(c as int - 'A' as int - 2)
    else if '2' <= c <= '9' then Some(c as int - '2' as int + 24)
    else None
  }

  lemma IndexOfAlphabet(d: nat)
    requires d < 32
    ensures IndexOf(ALPHABET[d]) == Some(d)
  {
  }

  /** The value an indicator spells, if it is well formed. */
  function Decode(indicator: string): Option<nat> {
    if |indicator| == 9 && indicator[4] == '-' then DecodeDigits(indicator[..4] + indicator[5..]) else None
  }

  function DecodeDigits(s: string): Option<nat> {
    if s == "" then Some(0)
    else
      var rest, digit := DecodeDigits(s[..|s| - 1]), IndexOf(s[|s| - 1]);
      if rest.Some? && digit.Some? then Some(rest.value * 32 + digit.value) else None
  }

  lemma DecodeSnoc(s: string, c: char)
    ensures DecodeDigits(s + [c]) ==
              if DecodeDigits(s).Some? && IndexOf(c).Some?
              then Some(DecodeDigits(s).value * 32 + IndexOf(c).value) else None
  {
    hide IndexOf;
    assert (s + [c])[..|s|] == s;
  }

  lemma DecodeNothing()
    ensures DecodeDigits(Spell([])) == Some(DigitsValue([]))
  {
  }

  lemma SpellSnoc(digits: seq<nat>)
    requires digits != [] && forall i :: 0 <= i < |digits| ==> digits[i] < 32
    ensures var n := |digits| - 1;
            && Spell(digits) == Spell(digits[..n]) + [ALPHABET[digits[n]]]
            && DigitsValue(digits) == DigitsValue(digits[..n]) * 32 + digits[n]
  {
  }

  lemma {:induction false} DecodeSpelled(digits: seq<nat>)
    requires forall i :: 0 <= i < |digits| ==> digits[i] < 32
    ensures DecodeDigits(Spell(digits)) == Some(DigitsValue(digits))
  {
    hide IndexOf, DecodeDigits, Spell, DigitsValue;
    if digits == [] {
      DecodeNothing();
    } else {
      var n := |digits| - 1;
      SpellSnoc(digits);
      DecodeSpelled(digits[..n]);
      IndexOfAlphabet(digits[n]);
      DecodeSnoc(Spell(digits[..n]), ALPHABET[digits[n]]);
    }
  }

  function Power32(n: nat): nat {
    if n == 0 then 1 else 32 * Power32(n - 1)
  }

  lemma {:induction false} DigitsRoundTrip(value: nat, n: nat)
    requires value < Power32(n)
    ensures DigitsValue(Digits(value, n)) == value
  {
    if n > 0 {
      DigitsRoundTrip(value / 32, n - 1);
      assert Digits(value, n)[..n - 1] == Digits(value / 32, n - 1);
    }
  }

  lemma FiveBytesBound(bytes: seq<byte>)
    requires |bytes| == 5
    ensures BytesValue(bytes) < Power32(8)
  {
    BytesBound(bytes);
    assert Power256(3) == 0x100_0000 && Power256(5) == 0x100_0000_0000;
    assert Power32(4) == 0x10_0000 && Power32(8) == 0x100_0000_0000;
  }

  /** Decoding an indicator recovers the first 40 bits of the digest. */
  lemma IndicatorRoundTrip(digest: seq<byte>)
    requires |digest| >= 5
    ensures Decode(Indicator(digest)) == Some(BytesValue(digest[..5]))
  {
    var value := BytesValue(digest[..5]);
    var digits := Digits(value, 8);
    var s, indicator := Spell(digits), Indicator(digest);
    assert indicator[..4] + indicator[5..] == s;
    FiveBytesBound(digest[..5]);
    DigitsRoundTrip(value, 8);
    DecodeSpelled(digits);
  }

  lemma {:induction false} BytesAreDetermined(a: seq<byte>, b: seq<byte>)
    requires |a| == |b| && BytesValue(a) == BytesValue(b)
    ensures a == b
  {
    if a != [] {
      var n := |a| - 1;
      BytesAreDetermined(a[..n], b[..n]);
      assert a == a[..n] + [a[n]] && b == b[..n] + [b[n]];
    }
  }

  /** Two installations share an indicator exactly when their digests start with the same five bytes. */
  lemma SameIndicatorIff(a: seq<byte>, b: seq<byte>)
    requires |a| >= 5 && |b| >= 5
    ensures Indicator(a) == Indicator(b) <==> a[..5] == b[..5]
  {
    if Indicator(a) == Indicator(b) {
      IndicatorRoundTrip(a);
      IndicatorRoundTrip(b);
      BytesAreDetermined(a[..5], b[..5]);
    }
  }
}
