/**
  Hexadecimal text, as used for public keys (64 characters) and conversation
  ids (32 characters). `Decode` accepts either letter case; `Encode` always
  writes lower case.
  */
module Hex {
  type byte = x: int | 0 <= x < 256
  type Bytes = seq<byte>

  datatype Option<+T> = None | Some(value: T)

  predicate IsHexDigit(c: char) {
    '0' <= c <= '9' || 'a' <= c <= 'f' || 'A' <= c <= 'F'
  }

  predicate IsHex(s: string) {
    forall i :: 0 <= i < |s| ==> IsHexDigit(s[i])
  }

  function DigitValue(c: char): (v: nat)
    requires IsHexDigit(c)
    ensures v < 16
  {
    if c <= '9' then c as int - '0' as int
    else if c <= 'F' then c as int - 'A' as int + 10
    else c as int - 'a' as int + 10
  }

  function Digit(v: nat): (c: char)
    requires v < 16
    ensures IsHexDigit(c) && LowerChar(c) == c
  {
    if v < 10 then ('0' as int + v) as char else ('a' as int + v - 10) as char
  }

  function LowerChar(c: char): char {
    if 'A' <= c <= 'Z' then (c as int + 32) as char else c
  }

  function ToLower(s: string): (r: string)
    ensures |r| == |s|
  {
    seq(|s|, i requires 0 <= i < |s| => LowerChar(s[i]))
  }

  /** An odd number of digits or a character outside the alphabet is an error. */
  function Decode(s: string): (r: Option<Bytes>)
    ensures r.Some? <==> |s| % 2 == 0 && IsHex(s)
    ensures r.Some? ==> |r.value| == |s| / 2
  {
    if |s| % 2 == 0 && IsHex(s)
    then Some(seq(|s| / 2, i requires 0 <= i < |s| / 2 => 16 * DigitValue(s[2 * i]) + DigitValue(s[2 * i + 1])))
    else None
  }

  function Encode(b: Bytes): (s: string)
    ensures |s| == 2 * |b|
  {
    seq(2 * |b|, i requires 0 <= i < 2 * |b| =>
      if i % 2 == 0 then Digit(b[i / 2] / 16) else Digit(b[i / 2] % 16))
  }

  /** The 64 lower-case digits under which a client is known to the hub. */
  predicate IsAddress(s: string) {
    |s| == 64 && IsHex(s) && ToLower(s) == s
  }

  lemma DigitRoundTrip(v: nat, c: char)
    ensures v < 16 ==> DigitValue(Digit(v)) == v
    ensures IsHexDigit(c) ==> Digit(DigitValue(c)) == LowerChar(c)
  {
  }

  /** The base 16 alphabet (RFC 4648, section 8), in either letter case. */
  lemma Alphabet(k: nat)
    requires k < 16
    ensures DigitValue("0123456789ABCDEF"[k]) == DigitValue("0123456789abcdef"[k]) == k
    ensures Digit(k) == "0123456789abcdef"[k]
  {
  }

  lemma OnlyTheAlphabet(c: char)
    ensures IsHexDigit(c) <==> exists k :: 0 <= k < 16 && (c == "0123456789ABCDEF"[k] || c == "0123456789abcdef"[k])
  {
    if IsHexDigit(c) {
      Alphabet(DigitValue(c));
    }
  }

  /** Each byte is two digits, the high one first (a test vector of RFC 4648, section 10). */
  lemma DecodeAt(s: string, i: nat)
    requires Decode(s).Some? && i < |s| / 2
    ensures Decode(s).value[i] == 16 * DigitValue(s[2 * i]) + DigitValue(s[2 * i + 1])
    ensures Decode("666F6F") == Some([0x66, 0x6F, 0x6F])
    ensures Encode([0x66, 0x6F, 0x6F]) == "666f6f"
  {
    var v: Bytes := [0x66, 0x6F, 0x6F];
    assert Decode("666F6F").value == v;
    assert Encode(v) == "666f6f";
  }

  lemma EncodeAt(b: Bytes, i: nat)
    requires i < 2 * |b|
    ensures Encode(b)[i] == Digit(if i % 2 == 0 then b[i / 2] / 16 else b[i / 2] % 16)
    ensures IsHexDigit(Encode(b)[i]) && LowerChar(Encode(b)[i]) == Encode(b)[i]
  {
  }

  lemma EncodeIsLowerHex(b: Bytes)
    ensures IsHex(Encode(b)) && ToLower(Encode(b)) == Encode(b)
  {
    var s := Encode(b);
    forall i | 0 <= i < |s|
      ensures IsHexDigit(s[i]) && ToLower(s)[i] == s[i]
    {
      EncodeAt(b, i);
    }
  }

  lemma DecodeEncode(b: Bytes)
    ensures Decode(Encode(b)) == Some(b)
  {
    var s := Encode(b);
    EncodeIsLowerHex(b);
    assert |s| % 2 == 0;
    var d := Decode(s).value;
    assert |d| == |b|;
    forall i | 0 <= i < |b|
      ensures d[i] == b[i]
    {
      PairRoundTrip(b, i);
    }
    assert d == b;
  }

  lemma PairRoundTrip(b: Bytes, i: nat)
    requires i < |b| && IsHex(Encode(b))
    ensures 16 * DigitValue(Encode(b)[2 * i]) + DigitValue(Encode(b)[2 * i + 1]) == b[i]
  {
    EncodeAt(b, 2 * i);
    EncodeAt(b, 2 * i + 1);
    DigitRoundTrip(b[i] / 16, 'a');
    DigitRoundTrip(b[i] % 16, 'a');
  }

  /** Re-encoding the decoded key gives the lower-case form of what was typed. */
  lemma EncodeDecode(s: string)
    requires Decode(s).Some?
    ensures Encode(Decode(s).value) == ToLower(s)
  {
    var b := Decode(s).value;
    forall i | 0 <= i < |s|
      ensures Encode(b)[i] == ToLower(s)[i]
    {
      var k := i / 2;
      var hi, lo := DigitValue(s[2 * k]), DigitValue(s[2 * k + 1]);
      assert b[k] / 16 == hi && b[k] % 16 == lo;
      DigitRoundTrip(0, s[i]);
    }
  }

  /** Two texts name the same key exactly when they agree up to letter case. */
  lemma SameKeyIffSameLowerCase(s: string, t: string)
    requires Decode(s).Some? && Decode(t).Some?
    ensures Decode(s) == Decode(t) <==> ToLower(s) == ToLower(t)
  {
    EncodeDecode(s);
    EncodeDecode(t);
    LowerKeepsKey(s);
    LowerKeepsKey(t);
  }

  lemma LowerKeepsKey(s: string)
    requires Decode(s).Some?
    ensures Decode(ToLower(s)) == Decode(s)
    ensures IsHex(ToLower(s)) && ToLower(ToLower(s)) == ToLower(s)
  {
    EncodeDecode(s);
    DecodeEncode(Decode(s).value);
    EncodeIsLowerHex(Decode(s).value);
  }

  lemma AddressOfKey(a: string)
    requires IsAddress(a)
    ensures Decode(a).Some? && Encode(Decode(a).value) == a
  {
    EncodeDecode(a);
  }
}
