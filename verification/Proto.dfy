/**
  Sizes on the wire: the proto3 encoding of the hub's messages (Protocol Buffers
  Encoding, "Length-Delimited Records" and "Base 128 Varints"). Fields that have
  their default value are not written.
  */
module Proto {
  import opened Hex
  import opened Crypto
  import opened Framing

  function Varint(n: nat): (r: Bytes)
    ensures r != []
  {
    if n < 128 then [n] else [n % 128 + 128] + Varint(n / 128)
  }

  function LengthDelimited(tag: byte, data: Bytes): Bytes {
    if data == [] then [] else [tag] + Varint(|data|) + data
  }

  const SEND_MESSAGE: nat := 2

  /** toAddress = 1, convo_id = 2, content = 3. */
  function EncodeMessage(to: Bytes, convo: Bytes, content: Bytes): Bytes {
    LengthDelimited(0x0A, to) + LengthDelimited(0x12, convo) + LengthDelimited(0x1A, content)
  }

  /** requestType = 1, message = 2. */
  function EncodeSendRequest(to: Bytes, convo: Bytes, content: Bytes): Bytes {
    [0x08] + Varint(SEND_MESSAGE) + LengthDelimited(0x12, EncodeMessage(to, convo, content))
  }

  lemma VarintSize(n: nat)
    ensures n < 128 ==> |Varint(n)| == 1
    ensures 128 <= n < 16384 ==> |Varint(n)| == 2
    ensures 16384 <= n < 2097152 ==> |Varint(n)| == 3
  {
    if 128 <= n {
      assert Varint(n) == [n % 128 + 128] + Varint(n / 128);
      if 16384 <= n < 2097152 {
        assert 1 <= n / 128 / 128 < 128;
        assert Varint(n / 128) == [n / 128 % 128 + 128] + Varint(n / 128 / 128);
      }
    }
  }

  /** The fixed part of a message to a 64-character address in a 32-character conversation. */
  lemma MessageSize(to: Bytes, convo: Bytes, content: Bytes)
    requires |to| == 64 && |convo| == 32 && content != []
    ensures |EncodeMessage(to, convo, content)| == 101 + |Varint(|content|)| + |content|
  {
    VarintSize(64);
    VarintSize(32);
  }

  /** A request fits the two-byte header exactly when its ciphertext has at most 65425 bytes. */
  lemma RequestFitsIff(to: Bytes, convo: Bytes, content: Bytes)
    requires |to| == 64 && |convo| == 32 && content != []
    ensures |EncodeSendRequest(to, convo, content)| <= MAX_FRAME <==> |content| <= 65425
  {
    var inner := EncodeMessage(to, convo, content);
    MessageSize(to, convo, content);
    VarintSize(SEND_MESSAGE);
    VarintSize(|content|);
    VarintSize(|inner|);
    assert |EncodeSendRequest(to, convo, content)| == 3 + |Varint(|inner|)| + |inner|;
  }

  /** An answer of the hub, with the largest content it accepts, fits as well. */
  lemma AnswerFits(from: Bytes, convo: Bytes, content: Bytes)
    requires |from| == 64 && |convo| == 32 && 0 < |content| <= 10000
    ensures |EncodeMessage(from, convo, content)| <= MAX_FRAME
  {
    MessageSize(from, convo, content);
    VarintSize(|content|);
  }

  // ----- A reader of the encoding -----

  datatype Field = Number(field: nat, value: nat) | Data(field: nat, bytes: Bytes)

  /** Seven bits a byte, the low ones first; the high bit says that more follow. */
  function ReadVarint(s: Bytes): (r: Option<(nat, Bytes)>)
    ensures r.Some? ==> |r.value.1| < |s|
  {
    if s == [] then None
    else if s[0] < 128 then Some((s[0] as nat, s[1..]))
    else
      match ReadVarint(s[1..])
      case None => None
      case Some((n, rest)) => Some((s[0] as nat - 128 + 128 * n, rest))
  }

  /** A field's key is its number times eight and its wire type: 0 for a varint, 2 for a length and as many bytes. */
  function ReadField(s: Bytes): (r: Option<(Field, Bytes)>)
    ensures r.Some? ==> |r.value.1| < |s|
  {
    match ReadVarint(s)
    case None => None
    case Some((key, r)) =>
      match ReadVarint(r)
      case None => None
      case Some((n, rest)) =>
        if key % 8 == 0 then Some((Number(key / 8, n), rest))
        else if key % 8 == 2 && n <= |rest| then Some((Data(key / 8, rest[..n]), rest[n..]))
        else None
  }

  function ReadFields(s: Bytes): seq<Field>
    decreases |s|
  {
    match ReadField(s)
    case None => []
    case Some((f, rest)) => [f] + ReadFields(rest)
  }

  lemma {:induction false} VarintReads(n: nat, rest: Bytes)
    ensures ReadVarint(Varint(n) + rest) == Some((n, rest))
  {
    var s := Varint(n) + rest;
    if n >= 128 {
      VarintReads(n / 128, rest);
      assert Varint(n) == [n % 128 + 128] + Varint(n / 128);
      assert s[0] == n % 128 + 128 && s[1..] == Varint(n / 128) + rest;
    }
  }

  lemma KeyReads(key: byte, rest: Bytes)
    requires key < 128
    ensures ReadVarint([key] + rest) == Some((key as nat, rest))
  {
    assert ([key] + rest)[1..] == rest;
  }

  lemma FieldReads(tag: byte, data: Bytes, rest: Bytes)
    requires data != [] && tag < 128 && tag % 8 == 2
    ensures ReadField(LengthDelimited(tag, data) + rest) == Some((Data(tag as nat / 8, data), rest))
  {
    hide Varint, ReadVarint;
    assert LengthDelimited(tag, data) + rest == [tag] + (Varint(|data|) + (data + rest));
    KeyReads(tag, Varint(|data|) + (data + rest));
    VarintReads(|data|, data + rest);
    assert (data + rest)[..|data|] == data && (data + rest)[|data|..] == rest;
  }

  lemma FieldsRead(tag: byte, data: Bytes, rest: Bytes)
    requires data != [] && tag < 128 && tag % 8 == 2
    ensures ReadFields(LengthDelimited(tag, data) + rest) == [Data(tag as nat / 8, data)] + ReadFields(rest)
  {
    hide ReadField, LengthDelimited;
    FieldReads(tag, data, rest);
  }

  /** The fields of a message are its address, its conversation and its content, numbered 1, 2, 3. */
  lemma MessageReads(to: Bytes, convo: Bytes, content: Bytes)
    requires to != [] && convo != [] && content != []
    ensures ReadFields(EncodeMessage(to, convo, content)) == [Data(1, to), Data(2, convo), Data(3, content)]
  {
    hide LengthDelimited, ReadFields;
    var third := LengthDelimited(0x1A, content);
    var second := LengthDelimited(0x12, convo) + third;
    assert EncodeMessage(to, convo, content) == LengthDelimited(0x0A, to) + second;
    assert third == third + [];
    FieldsRead(0x0A, to, second);
    FieldsRead(0x12, convo, third);
    FieldsRead(0x1A, content, []);
    NothingReads();
  }

  /** Those of a send request are its type, 2, and its message. */
  lemma RequestReads(to: Bytes, convo: Bytes, content: Bytes)
    requires to != [] && convo != [] && content != []
    ensures ReadFields(EncodeSendRequest(to, convo, content)) == [Number(1, 2), Data(2, EncodeMessage(to, convo, content))]
  {
    hide Varint, ReadVarint, EncodeMessage, LengthDelimited;
    MessageIsNotEmpty(to, convo, content);
    var inner := LengthDelimited(0x12, EncodeMessage(to, convo, content));
    assert EncodeSendRequest(to, convo, content) == [0x08] + (Varint(SEND_MESSAGE) + inner);
    KeyReads(0x08, Varint(SEND_MESSAGE) + inner);
    VarintReads(SEND_MESSAGE, inner);
    assert inner == inner + [];
    FieldsRead(0x12, EncodeMessage(to, convo, content), []);
    NothingReads();
  }

  lemma NothingReads()
    ensures ReadFields([]) == []
  {
  }

  lemma MessageIsNotEmpty(to: Bytes, convo: Bytes, content: Bytes)
    requires to != []
    ensures EncodeMessage(to, convo, content) != []
  {
  }

  /** The room `EncryptMessage` leaves is enough: no admitted content overflows the header. */
  lemma AdmittedContentFits(to: Bytes, convo: Bytes, plaintext: Bytes, content: Bytes)
    requires |to| == 64 && |convo| == 32
    requires |plaintext| <= MAX_PLAINTEXT && |content| == |plaintext| + 16
    ensures |EncodeSendRequest(to, convo, content)| <= MAX_FRAME
    ensures HeaderLength(TwoBytes, Frame(EncodeSendRequest(to, convo, content))[0], Frame(EncodeSendRequest(to, convo, content))[1])
         == |EncodeSendRequest(to, convo, content)|
  {
    RequestFitsIff(to, convo, content);
  }
}
