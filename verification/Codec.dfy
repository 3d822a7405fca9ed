/** Packing and unpacking of packets. */
module Codec {
  import opened ByteTypes
  import opened ByteBuffers
  import opened TimePackets

  datatype Option<+T> = None | Some(value: T)

  datatype Packet = Time(tp: TPacket) | Data(timestamp: int, payload: seq<int>)

  const TIME_TAG: Byte := 0
  const DATA_TAG: Byte := 1
  const TP_BUFFER_SIZE := 42

  predicate IsUint64(x: int) {
    0 <= x < Range(8)
  }

  predicate EncodableTime(tp: TPacket) {
    IsUint64(tp.fromSent) && IsUint64(tp.toRecvd) && IsUint64(tp.toSent) && IsUint64(tp.fromRecvd)
    && IsSigned(tp.offset, 8)
  }

  predicate EncodableData(timestamp: int, payload: seq<int>) {
    IsUint64(timestamp) && forall s :: s in payload ==> IsSigned(s, 2)
  }

  /** The fields fit their C++ types. */
  predicate Encodable(p: Packet) {
    match p
    case Time(tp) => EncodableTime(tp)
    case Data(timestamp, payload) => EncodableData(timestamp, payload)
  }

  function TypeByte(t: TPacketType): Byte {
    match t
    case Incomplete => 0
    case Complete => 1
    case Final => 2
  }

  function TypeOf(b: Byte): TPacketType {
    if b == 0 then Incomplete else if b == 1 then Complete else Final
  }

  function EncodeTime(tp: TPacket): (r: seq<Byte>)
    requires EncodableTime(tp)
    ensures |r| == TP_BUFFER_SIZE
  {
    SignedRoundTrip(tp.offset, 8);
    [TIME_TAG, TypeByte(tp.tpType)] + ToBytes(tp.fromSent, 8) + ToBytes(tp.toRecvd, 8) + ToBytes(tp.toSent, 8)
    + ToBytes(tp.fromRecvd, 8) + ToBytes(Unsigned(tp.offset, 8), 8)
  }

  function EncodeData(timestamp: int, payload: seq<int>): (r: seq<Byte>)
    requires EncodableData(timestamp, payload)
    ensures |r| == 9 + 2 * |payload|
  {
    [DATA_TAG] + ToBytes(timestamp, 8) + ShortsToBytes(payload)
  }

  function Encode(p: Packet): seq<Byte>
    requires Encodable(p)
  {
    match p
    case Time(tp) => EncodeTime(tp)
    case Data(timestamp, payload) => EncodeData(timestamp, payload)
  }

  /** A datagram the decoders can read: a time packet needs its 41 bytes and a known type. */
  predicate Readable(bytes: seq<Byte>) {
    bytes != [] && (bytes[0] == TIME_TAG ==> TP_BUFFER_SIZE <= |bytes| && bytes[1] <= 2)
  }

  function DecodeTime(body: seq<Byte>): TPacket
    requires TP_BUFFER_SIZE - 1 <= |body|
  {
    TPacket(TypeOf(body[0]), FromBytes(body[1..9]), FromBytes(body[9..17]), FromBytes(body[17..25]),
            FromBytes(body[25..33]), Signed(FromBytes(body[33..41]), 8))
  }

  /** A body too short for its time stamp is taken for samples alone. */
  function DecodeData(body: seq<Byte>): Packet {
    if |body| < 8 then Data(0, BytesToShorts(body)) else Data(FromBytes(body[..8]), BytesToShorts(body[8..]))
  }

  function Decode(bytes: seq<Byte>): Option<Packet>
    requires Readable(bytes)
  {
    if bytes[0] == TIME_TAG then Some(Time(DecodeTime(bytes[1..])))
    else if bytes[0] == DATA_TAG then Some(DecodeData(bytes[1..]))
    else None
  }

  /** The datagrams that packing produces. */
  predicate WellFormed(bytes: seq<Byte>) {
    || (|bytes| == TP_BUFFER_SIZE && bytes[0] == TIME_TAG && bytes[1] <= 2)
    || (|bytes| >= 9 && |bytes| % 2 == 1 && bytes[0] == DATA_TAG)
  }

  // ----- Round trips -----

  /** A body of a type byte and five fields of eight bytes. */
  lemma FiveFields(t: Byte, a: seq<Byte>, b: seq<Byte>, c: seq<Byte>, d: seq<Byte>, e: seq<Byte>)
    requires |a| == |b| == |c| == |d| == |e| == 8
    ensures var body := [t] + a + b + c + d + e;
            body[1..9] == a && body[9..17] == b && body[17..25] == c && body[25..33] == d && body[33..41] == e
    ensures forall tag: Byte :: ([tag, t] + a + b + c + d + e)[1..] == [t] + a + b + c + d + e
  {
  }

  lemma TimeRoundTrip(tp: TPacket)
    requires EncodableTime(tp)
    ensures DecodeTime(EncodeTime(tp)[1..]) == tp
  {
    SignedRoundTrip(tp.offset, 8);
    FromToBytes(tp.fromSent, 8);
    FromToBytes(tp.toRecvd, 8);
    FromToBytes(tp.toSent, 8);
    FromToBytes(tp.fromRecvd, 8);
    FromToBytes(Unsigned(tp.offset, 8), 8);
    hide ToBytes, FromBytes, Signed, Unsigned, Range;
    FiveFields(TypeByte(tp.tpType), ToBytes(tp.fromSent, 8), ToBytes(tp.toRecvd, 8), ToBytes(tp.toSent, 8),
               ToBytes(tp.fromRecvd, 8), ToBytes(Unsigned(tp.offset, 8), 8));
  }

  lemma DataRoundTrip(timestamp: int, payload: seq<int>)
    requires EncodableData(timestamp, payload)
    ensures DecodeData(EncodeData(timestamp, payload)[1..]) == Data(timestamp, payload)
  {
    var body := EncodeData(timestamp, payload)[1..];
    FromToBytes(timestamp, 8);
    ShortsRoundTrip(payload);
    assert body[..8] == ToBytes(timestamp, 8);
    assert body[8..] == ShortsToBytes(payload);
  }

  /** Unpacking what was packed returns the packet, for every field value and payload length;
      what was packed is well formed and of the expected size. */
  lemma DecodeEncode(p: Packet)
    requires Encodable(p)
    ensures WellFormed(Encode(p)) && Readable(Encode(p))
    ensures Decode(Encode(p)) == Some(p)
    ensures |Encode(p)| == if p.Time? then TP_BUFFER_SIZE else 9 + 2 * |p.payload|
  {
    match p
    case Time(tp) => TimeRoundTrip(tp);
    case Data(timestamp, payload) => DataRoundTrip(timestamp, payload);
  }

  lemma TimeBytesRoundTrip(bytes: seq<Byte>)
    requires |bytes| == TP_BUFFER_SIZE && bytes[0] == TIME_TAG && bytes[1] <= 2
    ensures EncodableTime(DecodeTime(bytes[1..])) && EncodeTime(DecodeTime(bytes[1..])) == bytes
  {
    var body := bytes[1..];
    Ranges();
    ToFromBytes(body[1..9]);
    ToFromBytes(body[9..17]);
    ToFromBytes(body[17..25]);
    ToFromBytes(body[25..33]);
    ToFromBytes(body[33..41]);
    UnsignedRoundTrip(FromBytes(body[33..41]), 8);
    hide ToBytes, FromBytes, Signed, Unsigned, Range, IsSigned;
    assert bytes == [bytes[0], bytes[1]] + body[1..9] + body[9..17] + body[17..25] + body[25..33] + body[33..41];
  }

  lemma DataBytesRoundTrip(bytes: seq<Byte>)
    requires |bytes| >= 9 && |bytes| % 2 == 1 && bytes[0] == DATA_TAG
    ensures var p := DecodeData(bytes[1..]);
            EncodableData(p.timestamp, p.payload) && EncodeData(p.timestamp, p.payload) == bytes
  {
    var body := bytes[1..];
    ToFromBytes(body[..8]);
    BytesRoundTrip(body[8..]);
    assert bytes == [bytes[0]] + body[..8] + body[8..];
  }

  /** Packing what was unpacked from a well-formed datagram returns its bytes. */
  lemma EncodeDecode(bytes: seq<Byte>)
    requires WellFormed(bytes)
    ensures Readable(bytes) && Decode(bytes).Some?
    ensures Encodable(Decode(bytes).value) && Encode(Decode(bytes).value) == bytes
  {
    if bytes[0] == TIME_TAG {
      TimeBytesRoundTrip(bytes);
    } else {
      DataBytesRoundTrip(bytes);
    }
  }

  // ----- The bytes on the wire -----

  /** The five integers of a time packet, in the order they are sent. */
  function Field(tp: TPacket, k: nat): int {
    if k == 0 then tp.fromSent
    else if k == 1 then tp.toRecvd
    else if k == 2 then tp.toSent
    else if k == 3 then tp.fromRecvd
    else tp.offset
  }

  lemma FieldPlace(t: seq<Byte>, a: seq<Byte>, b: seq<Byte>, c: seq<Byte>, d: seq<Byte>, e: seq<Byte>, k: nat, i: nat)
    requires |a| == |b| == |c| == |d| == |e| == 8 && k < 5 && i < 8
    ensures (t + a + b + c + d + e)[|t| + 8 * k + i] ==
            if k == 0 then a[i] else if k == 1 then b[i] else if k == 2 then c[i] else if k == 3 then d[i] else e[i]
  {
  }

  lemma EncodedField(tp: TPacket, k: nat, i: nat)
    requires EncodableTime(tp) && k < 5 && i < 8
    ensures EncodeTime(tp)[2 + 8 * k + i] == ByteOf(Field(tp, k), i)
  {
    hide ToBytes, ByteOf, Range, Unsigned;
    SignedRoundTrip(tp.offset, 8);
    FieldPlace([TIME_TAG, TypeByte(tp.tpType)], ToBytes(tp.fromSent, 8), ToBytes(tp.toRecvd, 8), ToBytes(tp.toSent, 8),
               ToBytes(tp.fromRecvd, 8), ToBytes(Unsigned(tp.offset, 8), 8), k, i);
    if k < 4 {
      ByteAt(Field(tp, k), 8, i);
    } else {
      ByteAt(Unsigned(tp.offset, 8), 8, i);
      UnsignedByte(tp.offset, 8, i);
    }
  }

  /** A time packet: its tag, its type, and its five integers eight bytes each. */
  lemma EncodedTime(tp: TPacket)
    requires EncodableTime(tp)
    ensures var bytes := EncodeTime(tp);
            && bytes[0] == 0
            && bytes[1] == (if tp.tpType == Incomplete then 0 else if tp.tpType == Complete then 1 else 2)
            && forall k: nat, i: nat :: k < 5 && i < 8 ==> bytes[2 + 8 * k + i] == ByteOf(Field(tp, k), i)
  {
    hide ToBytes, Unsigned, Range, IsSigned, ByteOf, Field, EncodableTime;
    forall k: nat, i: nat | k < 5 && i < 8
      ensures EncodeTime(tp)[2 + 8 * k + i] == ByteOf(Field(tp, k), i)
    {
      EncodedField(tp, k, i);
    }
  }

  lemma SignedField(bytes: seq<Byte>, i: nat)
    requires |bytes| == 8 && i < 8
    ensures var v := Signed(FromBytes(bytes), 8); IsSigned(v, 8) && ByteOf(v, i) == bytes[i]
  {
    Ranges();
    ToFromBytes(bytes);
    FromBytesAt(bytes, i);
    UnsignedRoundTrip(FromBytes(bytes), 8);
    UnsignedByte(Signed(FromBytes(bytes), 8), 8, i);
  }

  lemma UnsignedField(bytes: seq<Byte>, i: nat)
    requires |bytes| == 8 && i < 8
    ensures IsUint64(FromBytes(bytes)) && ByteOf(FromBytes(bytes), i) == bytes[i]
  {
    ToFromBytes(bytes);
    FromBytesAt(bytes, i);
  }

  lemma DecodedField(body: seq<Byte>, k: nat, i: nat)
    requires TP_BUFFER_SIZE - 1 <= |body| && k < 5 && i < 8
    ensures ByteOf(Field(DecodeTime(body), k), i) == body[1 + 8 * k + i]
    ensures EncodableTime(DecodeTime(body))
  {
    hide FromBytes, ByteOf, Range, Signed, IsSigned, IsUint64;
    UnsignedField(body[1..9], i);
    UnsignedField(body[9..17], i);
    UnsignedField(body[17..25], i);
    UnsignedField(body[25..33], i);
    SignedField(body[33..41], i);
  }

  /** A data packet: its tag, its stamp, and its samples two bytes each. */
  lemma EncodedData(timestamp: int, payload: seq<int>)
    requires EncodableData(timestamp, payload)
    ensures var bytes := EncodeData(timestamp, payload);
            && bytes[0] == 1
            && (forall i: nat :: i < 8 ==> bytes[1 + i] == ByteOf(timestamp, i))
            && forall i: nat :: i < |payload| ==>
                 bytes[9 + 2 * i] == payload[i] % 256 && bytes[10 + 2 * i] == payload[i] / 256 % 256
  {
    hide ToBytes, ShortsToBytes, ByteOf, Range, IsSigned;
    var bytes, shorts := EncodeData(timestamp, payload), ShortsToBytes(payload);
    forall i: nat | i < 8
      ensures bytes[1 + i] == ByteOf(timestamp, i)
    {
      ByteAt(timestamp, 8, i);
    }
    forall i: nat | i < |payload|
      ensures bytes[9 + 2 * i] == payload[i] % 256 && bytes[10 + 2 * i] == payload[i] / 256 % 256
    {
      ShortAt(payload, i);
      assert bytes[9 + 2 * i] == shorts[2 * i] && bytes[10 + 2 * i] == shorts[2 * i + 1];
    }
  }

  lemma DecodedData(body: seq<Byte>)
    requires 8 <= |body|
    ensures var p := DecodeData(body);
            && IsUint64(p.timestamp) && |p.payload| == (|body| - 8) / 2
            && (forall i: nat :: i < 8 ==> body[i] == ByteOf(p.timestamp, i))
            && forall i: nat :: i < |p.payload| ==>
                 && IsSigned(p.payload[i], 2)
                 && body[8 + 2 * i] == p.payload[i] % 256 && body[9 + 2 * i] == p.payload[i] / 256 % 256
  {
    hide FromBytes, BytesToShorts, ByteOf, Range, IsSigned, IsUint64;
    var p := DecodeData(body);
    UnsignedField(body[..8], 0);
    forall i: nat | i < 8
      ensures body[i] == ByteOf(p.timestamp, i)
    {
      UnsignedField(body[..8], i);
    }
    forall i: nat | i < |p.payload|
      ensures IsSigned(p.payload[i], 2)
      ensures body[8 + 2 * i] == p.payload[i] % 256 && body[9 + 2 * i] == p.payload[i] / 256 % 256
    {
      ShortFrom(body[8..], i);
      assert body[8..][2 * i] == body[8 + 2 * i] && body[8..][2 * i + 1] == body[9 + 2 * i];
    }
  }

  // ----- The packers and unpackers -----

  /** The four stamps, in order. */
  method WriteStamps(buf: MutableByteBuffer, tp: TPacket)
    requires buf.Valid() && EncodableTime(tp)
    modifies buf, buf.data
    ensures buf.Valid() && (buf.data == old(buf.data) || fresh(buf.data))
    ensures buf.Contents() == old(buf.Contents()) + (ToBytes(tp.fromSent, 8) + ToBytes(tp.toRecvd, 8)
                                                     + ToBytes(tp.toSent, 8) + ToBytes(tp.fromRecvd, 8))
  {
    hide ToBytes, Range;
    buf.WriteUnsignedLong(tp.fromSent);
    buf.WriteUnsignedLong(tp.toRecvd);
    buf.WriteUnsignedLong(tp.toSent);
    buf.WriteUnsignedLong(tp.fromRecvd);
  }

  /** The tag, the type and the five fields. */
  method WriteTime(buf: MutableByteBuffer, tp: TPacket)
    requires buf.Valid() && buf.Contents() == [] && EncodableTime(tp)
    modifies buf, buf.data
    ensures buf.Valid() && buf.Contents() == EncodeTime(tp)
  {
    hide ToBytes, Unsigned, Range, IsSigned;
    buf.WriteUint8(TIME_TAG);
    buf.WriteUint8(TypeByte(tp.tpType));
    assert buf.Contents() == [TIME_TAG, TypeByte(tp.tpType)];
    WriteStamps(buf, tp);
    buf.WriteSignedLong(tp.offset);
  }

  method PackTime(tp: TPacket) returns (bytes: seq<Byte>)
    requires EncodableTime(tp)
    ensures bytes == EncodeTime(tp) && |bytes| == 42
    ensures bytes[0] == 0 && bytes[1] == (if tp.tpType == Incomplete then 0 else if tp.tpType == Complete then 1 else 2)
    ensures forall k: nat, i: nat :: k < 5 && i < 8 ==> bytes[2 + 8 * k + i] == ByteOf(Field(tp, k), i)
  {
    hide EncodeTime, EncodableTime, ByteOf, Field;
    var buf := new MutableByteBuffer(64);
    WriteTime(buf, tp);
    bytes := buf.Data();
    EncodedTime(tp);
  }

  method PackData(timestamp: int, payload: seq<int>) returns (bytes: seq<Byte>)
    requires EncodableData(timestamp, payload)
    ensures bytes == EncodeData(timestamp, payload) && |bytes| == 9 + 2 * |payload| && bytes[0] == 1
    ensures forall i: nat :: i < 8 ==> bytes[1 + i] == ByteOf(timestamp, i)
    ensures forall i: nat :: i < |payload| ==>
              bytes[9 + 2 * i] == payload[i] % 256 && bytes[10 + 2 * i] == payload[i] / 256 % 256
  {
    hide ToBytes, ShortsToBytes, ByteOf, Range, IsSigned;
    EncodedData(timestamp, payload);
    var buf := new MutableByteBuffer(64);
    buf.WriteUint8(DATA_TAG);
    buf.WriteUnsignedLong(timestamp);
    buf.WriteNShorts(payload);
    bytes := buf.Data();
  }

  method UnpackTime(body: seq<Byte>) returns (tp: TPacket)
    requires TP_BUFFER_SIZE - 1 <= |body| && body[0] <= 2
    ensures tp == DecodeTime(body) && EncodableTime(tp)
    ensures tp.tpType == if body[0] == 0 then Incomplete else if body[0] == 1 then Complete else Final
    ensures forall k: nat, i: nat :: k < 5 && i < 8 ==> body[1 + 8 * k + i] == ByteOf(Field(tp, k), i)
  {
    hide FromBytes, ByteOf, Range, Signed, IsSigned, EncodableTime;
    var tpType := TypeOf(body[0]);
    var p := 1;
    var stamps := [FromBytes(body[p..p + 8]), FromBytes(body[p + 8..p + 16]), FromBytes(body[p + 16..p + 24]),
                   FromBytes(body[p + 24..p + 32])];
    p := p + 4 * 8;
    var offset := Signed(FromBytes(body[p..p + 8]), 8);
    tp := TPacket(tpType, stamps[0], stamps[1], stamps[2], stamps[3], offset);
    DecodedField(body, 0, 0);
    forall k: nat, i: nat | k < 5 && i < 8
      ensures body[1 + 8 * k + i] == ByteOf(Field(tp, k), i)
    {
      DecodedField(body, k, i);
    }
  }

  method UnpackData(body: seq<Byte>) returns (p: Packet)
    ensures p == DecodeData(body)
    ensures 8 <= |body| ==>
              && IsUint64(p.timestamp) && |p.payload| == (|body| - 8) / 2
              && (forall i: nat :: i < 8 ==> body[i] == ByteOf(p.timestamp, i))
              && forall i: nat :: i < |p.payload| ==>
                   && IsSigned(p.payload[i], 2)
                   && body[8 + 2 * i] == p.payload[i] % 256 && body[9 + 2 * i] == p.payload[i] / 256 % 256
  {
    hide FromBytes, BytesToShorts, ByteOf, Range, IsSigned, IsUint64;
    if 8 <= |body| {
      DecodedData(body);
    }
    var buf := new ByteBuffer(body);
    assert buf.Rest() == body;
    var _, timestamp := buf.GetUnsignedLong();
    var remaining := buf.Remaining();
    ghost var rest := buf.Rest();
    var _, payload := buf.GetNShorts(remaining / 2);
    assert payload == BytesToShorts(rest);
    p := Data(timestamp, payload);
  }

  /** The switch on the tag; an unknown tag gives no packet. */
  method Unpack(bytes: seq<Byte>) returns (p: Option<Packet>)
    requires Readable(bytes)
    ensures p == Decode(bytes)
  {
    if bytes[0] == TIME_TAG {
      var tp := UnpackTime(bytes[1..]);
      p := Some(Time(tp));
    } else if bytes[0] == DATA_TAG {
      var d := UnpackData(bytes[1..]);
      p := Some(d);
    } else {
      p := None;
    }
  }
}
