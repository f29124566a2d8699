/**
  The two-byte length prefix shared by the hub and its clients.
  */
module Framing {
  import opened Hex

  const MAX_FRAME: nat := 65535

  function Frame(data: Bytes): Bytes {
    [(|data| / 256) % 256, |data| % 256] + data
  }

  function Frames(ds: seq<Bytes>): Bytes {
    if ds == [] then [] else Frame(ds[0]) + Frames(ds[1..])
  }

  /**
    How a header is read: as a 16-bit length, or as the source spells it, with
    the first byte shifted left by eight within a byte.
    */
  datatype Rule = TwoBytes | AsWritten

  function HeaderLength(rule: Rule, h0: byte, h1: byte): nat {
    match rule
    case TwoBytes => h0 * 256 + h1
    case AsWritten => (h0 * 256) % 256 + h1
  }

  /**
    One read of a header and a body: the body and the rest of the stream, or
    nothing if the stream ends first. A body cut short by the end of the stream
    is taken as it is.
    */
  function ReadFrame(rule: Rule, stream: Bytes): Option<(Bytes, Bytes)> {
    if |stream| < 2 then None
    else
      var length := HeaderLength(rule, stream[0], stream[1]);
      var rest := stream[2..];
      if length > 0 && rest == [] then None
      else
        var n := if length <= |rest| then length else |rest|;
        Some((rest[..n], rest[n..]))
  }

  /** The header is the length, high byte first, and nothing else is added. */
  lemma FrameHeader(data: Bytes)
    requires |data| <= MAX_FRAME
    ensures |Frame(data)| == 2 + |data|
    ensures Frame(data)[0] as int * 256 + Frame(data)[1] as int == |data| && Frame(data)[2..] == data
  {
  }

  /** Any stream that starts with a length, high byte first, and that many bytes. */
  lemma ReadsBigEndian(h0: byte, h1: byte, data: Bytes, rest: Bytes)
    requires h0 as int * 256 + h1 as int == |data|
    ensures ReadFrame(TwoBytes, [h0, h1] + data + rest) == Some((data, rest))
  {
    var stream := [h0, h1] + data + rest;
    assert stream[0] == h0 && stream[1] == h1;
    assert stream[2..] == data + rest;
    assert (data + rest)[..|data|] == data && (data + rest)[|data|..] == rest;
  }

  /** A stream that ends within a frame: a cut body is taken as it is, a missing one is not. */
  lemma ReadsCutShort(h0: byte, h1: byte, data: Bytes)
    requires |data| < h0 as int * 256 + h1 as int
    ensures ReadFrame(TwoBytes, []) == None && ReadFrame(TwoBytes, [h0]) == None
    ensures ReadFrame(TwoBytes, [h0, h1] + data) == if data == [] then None else Some((data, []))
  {
    var stream := [h0, h1] + data;
    assert stream[0] == h0 && stream[1] == h1 && stream[2..] == data;
    assert data[..|data|] == data && data[|data|..] == [];
  }

  /** As written, the high byte is not looked at. */
  lemma AsWrittenReadsLowByte(h0: byte, h1: byte, rest: Bytes)
    ensures ReadFrame(AsWritten, [h0, h1] + rest) == ReadFrame(TwoBytes, [0, h1] + rest)
  {
    var s, t := [h0, h1] + rest, [0, h1] + rest;
    assert s[0] == h0 && s[1] == h1 && s[2..] == rest;
    assert t[0] == 0 && t[1] == h1 && t[2..] == rest;
  }

  lemma ReadOwnFrame(data: Bytes, rest: Bytes)
    requires |data| <= MAX_FRAME
    ensures ReadFrame(TwoBytes, Frame(data) + rest) == Some((data, rest))
  {
    var stream := Frame(data) + rest;
    assert stream[2..] == data + rest;
    assert HeaderLength(TwoBytes, stream[0], stream[1]) == |data|;
    assert (data + rest)[..|data|] == data && (data + rest)[|data|..] == rest;
  }

  /** As written, a frame is read back exactly when it is shorter than 256 bytes. */
  lemma AsWrittenReadsBackIffShort(data: Bytes, rest: Bytes)
    requires |data| <= MAX_FRAME
    ensures ReadFrame(AsWritten, Frame(data) + rest) == Some((data, rest)) <==> |data| < 256
  {
    var stream := Frame(data) + rest;
    assert stream[2..] == data + rest;
    assert HeaderLength(AsWritten, stream[0], stream[1]) == |data| % 256;
    if |data| < 256 {
      assert (data + rest)[..|data|] == data && (data + rest)[|data|..] == rest;
    } else {
      var r := ReadFrame(AsWritten, stream);
      assert r.Some? ==> |r.value.0| <= |data| % 256 < |data|;
    }
  }

  /** All the frames of a stream. */
  function Parse(rule: Rule, stream: Bytes): seq<Bytes>
    decreases |stream|
  {
    match ReadFrame(rule, stream)
    case None => []
    case Some((data, rest)) => [data] + Parse(rule, rest)
  }

  /** A stream's frames are its first and those of what follows; a cut one comes last. */
  lemma ParsesOneByOne(h0: byte, h1: byte, data: Bytes, rest: Bytes)
    ensures h0 as int * 256 + h1 as int == |data| ==> Parse(TwoBytes, [h0, h1] + data + rest) == [data] + Parse(TwoBytes, rest)
    ensures |data| < h0 as int * 256 + h1 as int ==> Parse(TwoBytes, [h0, h1] + data) == if data == [] then [] else [data]
    ensures Parse(TwoBytes, []) == [] && Parse(TwoBytes, [h0]) == []
  {
    if h0 as int * 256 + h1 as int == |data| {
      ReadsBigEndian(h0, h1, data, rest);
    } else if |data| < h0 as int * 256 + h1 as int {
      ReadsCutShort(h0, h1, data);
    }
  }

  lemma {:induction false} ParseFrames(ds: seq<Bytes>)
    requires forall d :: d in ds ==> |d| <= MAX_FRAME
    ensures Parse(TwoBytes, Frames(ds)) == ds
  {
    if ds != [] {
      ReadOwnFrame(ds[0], Frames(ds[1..]));
      ParseFrames(ds[1..]);
    }
  }
}
