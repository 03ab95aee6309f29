/** Wire packets (voice-core/src/packet.rs): fixed-width integers, big-endian bytes and the 8-byte header. */
module Packet {

  type U8 = n: nat | n < 0x100
  type U16 = n: nat | n < 0x1_0000
  type U32 = n: nat | n < 0x1_0000_0000
  type U64 = n: nat | n < 0x1_0000_0000_0000_0000

  datatype Option<+T> = None | Some(value: T)

  datatype Result<+T> = Ok(value: T) | Err(message: string)

  const START_OF_TALKSPURT: U8 := 1
  const END_OF_TALKSPURT: U8 := 2
  const HEADER_LEN: nat := 8

  datatype VoicePacket = VoicePacket(seqNo: U16, timestamp: U32, flags: U8, payload: seq<U8>)
  {
    predicate Contains(bit: U8)
      requires bit in {1, 2, 4}
    {
      (flags / bit) % 2 == 1
    }

    predicate IsStart() { Contains(START_OF_TALKSPURT) }

    predicate IsEnd() { Contains(END_OF_TALKSPURT) }

    predicate IsMedia() { payload != [] }
  }

  /** START is bit 0 of the flags and END is bit 1. */
  lemma FlagBits(p: VoicePacket)
    ensures p.IsStart() <==> (p.flags as bv8) & 1 != 0
    ensures p.IsEnd() <==> (p.flags as bv8) & 2 != 0
  {
  }

  /** `n` in `width` big-endian bytes, keeping only the low bytes. */
  function ToBigEndian(n: nat, width: nat): (bytes: seq<U8>)
    ensures |bytes| == width
  {
    if width == 0 then [] else ToBigEndian(n / 0x100, width - 1) + [n % 0x100]
  }

  function FromBigEndian(bytes: seq<U8>): nat {
    if bytes == [] then 0
    else FromBigEndian(bytes[..|bytes| - 1]) * 0x100 + bytes[|bytes| - 1]
  }

  function Power256(width: nat): (p: nat)
    ensures p > 0
  {
    if width == 0 then 1 else 0x100 * Power256(width - 1)
  }

  lemma {:induction false} BigEndianRoundTrip(n: nat, width: nat)
    requires n < Power256(width)
    ensures FromBigEndian(ToBigEndian(n, width)) == n
  {
    if width > 0 {
      BigEndianRoundTrip(n / 0x100, width - 1);
      assert ToBigEndian(n, width)[..width - 1] == ToBigEndian(n / 0x100, width - 1);
    }
  }

  lemma {:induction false} BytesRoundTrip(bytes: seq<U8>)
    ensures FromBigEndian(bytes) < Power256(|bytes|)
    ensures ToBigEndian(FromBigEndian(bytes), |bytes|) == bytes
  {
    if bytes != [] {
      var front := bytes[..|bytes| - 1];
      BytesRoundTrip(front);
      assert FromBigEndian(bytes) / 0x100 == FromBigEndian(front);
      assert bytes == front + [bytes[|bytes| - 1]];
    }
  }

  lemma Widths()
    ensures Power256(2) == 0x1_0000
    ensures Power256(4) == 0x1_0000_0000
    ensures Power256(8) == 0x1_0000_0000_0000_0000
  {
    assert Power256(1) == 0x100;
    assert Power256(3) == 0x100_0000;
    assert Power256(5) == 0x100_0000_0000;
    assert Power256(6) == 0x1_0000_0000_0000;
    assert Power256(7) == 0x100_0000_0000_0000;
  }

  function Encode(p: VoicePacket): (bytes: seq<U8>)
    ensures |bytes| == HEADER_LEN + |p.payload|
  {
    ToBigEndian(p.seqNo, 2) + ToBigEndian(p.timestamp, 4) + [p.flags, 0] + p.payload
  }

  /** `encode_to_bytes` appends to the caller's buffer. */
  method EncodeToBytes(p: VoicePacket, buffer: seq<U8>) returns (extended: seq<U8>)
    ensures buffer <= extended
    ensures Decode(extended[|buffer|..]) == Ok(p)
  {
    extended := buffer + ToBigEndian(p.seqNo, 2);
    extended := extended + ToBigEndian(p.timestamp, 4);
    extended := extended + [p.flags];
    extended := extended + [0];
    extended := extended + p.payload;
    assert extended[|buffer|..] == Encode(p);
    DecodeEncode(p);
  }

  function Decode(bytes: seq<U8>): Result<VoicePacket> {
    if |bytes| < HEADER_LEN then Err("packet shorter than fixed header")
    else
      BytesRoundTrip(bytes[0..2]);
      BytesRoundTrip(bytes[2..6]);
      Widths();
      Ok(VoicePacket(FromBigEndian(bytes[0..2]), FromBigEndian(bytes[2..6]), bytes[6], bytes[HEADER_LEN..]))
  }

  lemma DecodeEncode(p: VoicePacket)
    ensures Decode(Encode(p)) == Ok(p)
  {
    var bytes := Encode(p);
    Widths();
    BigEndianRoundTrip(p.seqNo, 2);
    BigEndianRoundTrip(p.timestamp, 4);
    assert bytes[0..2] == ToBigEndian(p.seqNo, 2);
    assert bytes[2..6] == ToBigEndian(p.timestamp, 4);
    assert bytes[8..] == p.payload;
  }

  /** Where every field is on the wire: big-endian, one reserved byte, then the payload. */
  lemma WireLayout(p: VoicePacket)
    ensures var bytes := Encode(p);
            && bytes[..2] == [p.seqNo / 0x100, p.seqNo % 0x100]
            && bytes[2..4] == [p.timestamp / 0x100_0000, p.timestamp / 0x1_0000 % 0x100]
            && bytes[4..6] == [p.timestamp / 0x100 % 0x100, p.timestamp % 0x100]
            && bytes[6..8] == [p.flags, 0] && bytes[8..] == p.payload
  {
    TwoBytes(p.seqNo);
    TwoBytes(p.timestamp / 0x1_0000);
    TwoBytes(p.timestamp % 0x1_0000);
    FourBytes(p.timestamp);
    hide ToBigEndian;
  }

  lemma TwoBytes(n: nat)
    requires n < 0x1_0000
    ensures ToBigEndian(n, 2) == [n / 0x100, n % 0x100]
  {
    assert ToBigEndian(n / 0x100, 1) == ToBigEndian(n / 0x1_0000, 0) + [n / 0x100 % 0x100];
  }

  lemma FourBytes(n: U32)
    ensures ToBigEndian(n, 4) ==
            [n / 0x100_0000, n / 0x1_0000 % 0x100, n / 0x100 % 0x100, n % 0x100]
  {
    assert ToBigEndian(n, 4) == ToBigEndian(n / 0x100, 3) + [n % 0x100];
    assert ToBigEndian(n / 0x100, 3) == ToBigEndian(n / 0x1_0000, 2) + [n / 0x100 % 0x100];
    TwoBytes(n / 0x1_0000);
  }

  /** Decoding forgets exactly the reserved byte: a datagram survives decode-then-encode if and only if that byte is 0. */
  lemma EncodeDecode(bytes: seq<U8>)
    ensures Decode(bytes).Ok? <==> HEADER_LEN <= |bytes|
    ensures Decode(bytes).Ok? ==> Encode(Decode(bytes).value) == bytes[7 := 0]
    ensures Decode(bytes).Ok? ==> (Encode(Decode(bytes).value) == bytes <==> bytes[7] == 0)
  {
    if HEADER_LEN <= |bytes| {
      BytesRoundTrip(bytes[0..2]);
      BytesRoundTrip(bytes[2..6]);
      assert bytes[7 := 0] == bytes[0..2] + bytes[2..6] + [bytes[6], 0] + bytes[8..];
    }
  }

  /** A datagram that differs from its re-encoding. */
  lemma ReservedByteIsLost() returns (bytes: seq<U8>)
    ensures Decode(bytes).Ok? && Encode(Decode(bytes).value) != bytes
  {
    bytes := [0, 0, 0, 0, 0, 0, 0, 1];
    EncodeDecode(bytes);
  }
}
