/**
 The frame codec of the Apache Pulsar binary protocol (section "Framing" of its specification).

 Protobuf encoding and CRC32C are parameters: all that is assumed of a protobuf type is that
 decoding an encoding gives the value back.  Sizes are written as 32-bit big-endian integers and
 truncated exactly as the encoder truncates them.
 */
module Wire {
  import opened Prelude

  type byte = x: int | 0 <= x < 256

  const TWO_32 := 0x1_0000_0000
  const MAGIC := 0x0e01

  /** The low `width` bytes of `n`, most significant first. */
  function BigEndian(n: nat, width: nat): (b: seq<byte>)
    ensures |b| == width
  {
    if width == 0 then [] else BigEndian(n / 256, width - 1) + [n % 256]
  }

  function BigEndianValue(b: seq<byte>): nat {
    if b == [] then 0
    else
      var low: int := Last(b);
      256 * BigEndianValue(Front(b)) + low
  }

  function Pow256(width: nat): nat {
    if width == 0 then 1 else 256 * Pow256(width - 1)
  }

  lemma {:induction false} BigEndianBound(b: seq<byte>)
    ensures BigEndianValue(b) < Pow256(|b|)
  {
    if b == [] {
    } else {
      BigEndianBound(Front(b));
    }
  }

  lemma {:induction false} BigEndianOfSmall(n: nat, width: nat)
    requires n < Pow256(width)
    ensures BigEndianValue(BigEndian(n, width)) == n
  {
    if width == 0 {
    } else {
      assert Front(BigEndian(n, width)) == BigEndian(n / 256, width - 1);
      BigEndianOfSmall(n / 256, width - 1);
    }
  }

  /** A number is read back exactly when it fits the width it was written in. */
  lemma {:induction false} BigEndianRoundTrip(n: nat, width: nat)
    ensures BigEndianValue(BigEndian(n, width)) == n <==> n < Pow256(width)
  {
    BigEndianBound(BigEndian(n, width));
    if n < Pow256(width) {
      BigEndianOfSmall(n, width);
    }
  }

  function PutU32(n: nat): (b: seq<byte>)
    ensures |b| == 4
  {
    BigEndian(n, 4)
  }

  function PutU16(n: nat): (b: seq<byte>)
    ensures |b| == 2
  {
    BigEndian(n, 2)
  }

  function GetU32(b: seq<byte>): nat
    requires |b| >= 4
  {
    BigEndianValue(b[..4])
  }

  lemma GetU32Bound(b: seq<byte>)
    requires |b| >= 4
    ensures GetU32(b) < TWO_32
  {
    BigEndianBound(b[..4]);
    assert Pow256(4) == TWO_32;
  }

  function BeU32(i: seq<byte>): Option<(seq<byte>, nat)> {
    if |i| < 4 then None else Some((i[4..], GetU32(i)))
  }

  lemma HeaderParses(n: nat, rest: seq<byte>)
    requires n < TWO_32
    ensures BeU32(PutU32(n) + rest) == Some((rest, n))
  {
    var header := PutU32(n);
    assert Pow256(4) == TWO_32;
    BigEndianRoundTrip(n, 4);
    assert (header + rest)[..4] == header;
    assert (header + rest)[4..] == rest;
  }

  /** nom's streaming parsers: None stands for `Incomplete`. */
  function Take(n: nat, i: seq<byte>): Option<(seq<byte>, seq<byte>)> {
    if |i| < n then None else Some((i[n..], i[..n]))
  }

  lemma TakeParses(a: seq<byte>, rest: seq<byte>)
    ensures Take(|a|, a + rest) == Some((rest, a))
  {
  }

  lemma GetU32Prefix(a: seq<byte>, b: seq<byte>)
    requires |a| >= 4
    ensures GetU32(a + b) == GetU32(a)
  {
    assert (a + b)[..4] == a[..4];
  }

  /** A generated protobuf type: `encoded_len` is the length of `encode`. */
  datatype Protobuf<!T> = Protobuf(encode: T -> seq<byte>, decode: seq<byte> -> Option<T>)

  ghost predicate Lawful<T(!new)>(p: Protobuf<T>) {
    forall x :: p.decode(p.encode(x)) == Some(x)
  }

  datatype Schema<!C, !M> = Schema(command: Protobuf<C>, metadata: Protobuf<M>, crc: seq<byte> -> nat)

  ghost predicate LawfulSchema<C(!new), M(!new)>(s: Schema<C, M>) {
    Lawful(s.command) && Lawful(s.metadata)
  }

  datatype Payload<M> = Payload(metadata: M, data: seq<byte>)

  datatype Message<C, M> = Message(command: C, payload: Option<Payload<M>>)

  /** `total_size`: the frame without the four bytes that announce it. */
  function TotalSize<C, M>(s: Schema<C, M>, m: Message<C, M>): nat {
    var commandSize := |s.command.encode(m.command)|;
    match m.payload
    case None => commandSize + 8 - 4
    case Some(p) => commandSize + |s.metadata.encode(p.metadata)| + |p.data| + 18 - 4
  }

  ghost predicate Fits<C, M>(s: Schema<C, M>, m: Message<C, M>) {
    TotalSize(s, m) < TWO_32
  }

  /** The checksummed part of a payload frame. */
  function Checksummed<C, M>(s: Schema<C, M>, p: Payload<M>): seq<byte> {
    var metadata := s.metadata.encode(p.metadata);
    PutU32(|metadata|) + metadata + p.data
  }

  function CommandPart<C, M>(s: Schema<C, M>, m: Message<C, M>): (b: seq<byte>)
    ensures |b| == 8 + |s.command.encode(m.command)|
  {
    var command := s.command.encode(m.command);
    PutU32(TotalSize(s, m)) + PutU32(|command|) + command
  }

  function Frame<C, M>(s: Schema<C, M>, m: Message<C, M>): (f: seq<byte>)
    ensures |f| == TotalSize(s, m) + 4
  {
    match m.payload
    case None => CommandPart(s, m)
    case Some(p) =>
      CommandPart(s, m) + PutU16(MAGIC) + PutU32(s.crc(Checksummed(s, p))) + Checksummed(s, p)
  }

  function BeU16(i: seq<byte>): Option<(seq<byte>, nat)> {
    if |i| < 2 then None else Some((i[2..], BigEndianValue(i[..2])))
  }

  /** The rest of the input and the command bytes. */
  function CommandFrame(i: seq<byte>): Option<(seq<byte>, seq<byte>)> {
    match BeU32(i)
    case None => None
    case Some((i1, _)) =>
      match BeU32(i1)
      case None => None
      case Some((i2, size)) => Take(size, i2)
  }

  /** The rest of the input and the metadata bytes; magic number and checksum are skipped. */
  function PayloadFrame(i: seq<byte>): Option<(seq<byte>, seq<byte>)> {
    match BeU16(i)
    case None => None
    case Some((i1, _)) =>
      match BeU32(i1)
      case None => None
      case Some((i2, _)) =>
        match BeU32(i2)
        case None => None
        case Some((i3, size)) => Take(size, i3)
  }

  datatype DecodeError = BadCommandFrame | BadCommand | BadPayloadFrame | BadMetadata

  /** The contents of one complete frame. */
  function ParseFrame<C, M>(s: Schema<C, M>, f: seq<byte>): Result<Message<C, M>, DecodeError> {
    match CommandFrame(f)
    case None => Err(BadCommandFrame)
    case Some((rest, commandBytes)) =>
      match s.command.decode(commandBytes)
      case None => Err(BadCommand)
      case Some(command) =>
        if rest == [] then Ok(Message(command, None))
        else
          match PayloadFrame(rest)
          case None => Err(BadPayloadFrame)
          case Some((data, metadataBytes)) =>
            match s.metadata.decode(metadataBytes)
            case None => Err(BadMetadata)
            case Some(metadata) => Ok(Message(command, Some(Payload(metadata, data))))
  }

  datatype Decoded<C, M> =
    | Complete(msg: Message<C, M>, size: nat)
    | NeedMore
    | Malformed(error: DecodeError)

  function Decode<C, M>(s: Schema<C, M>, src: seq<byte>): (d: Decoded<C, M>)
    ensures d.Complete? ==> 4 <= d.size <= |src|
    ensures d.NeedMore? <==> |src| < 4 || |src| < GetU32(src) + 4
  {
    if |src| < 4 || |src| < GetU32(src) + 4 then NeedMore
    else
      var size := GetU32(src) + 4;
      match ParseFrame(s, src[..size])
      case Ok(m) => Complete(m, size)
      case Err(e) => Malformed(e)
  }

  /** The number in the four bytes at an offset. */
  function U32At(f: seq<byte>, i: nat): nat
    requires i + 4 <= |f|
  {
    var a: int, b: int, c: int, d: int := f[i], f[i + 1], f[i + 2], f[i + 3];
    0x100_0000 * a + 0x1_0000 * b + 0x100 * c + d
  }

  lemma GetU32IsU32At(f: seq<byte>, i: nat)
    requires i + 4 <= |f|
    ensures GetU32(f[i..]) == U32At(f, i)
  {
    var b := f[i..][..4];
    assert BigEndianValue(b) == 256 * BigEndianValue(Front(b)) + Last(b) as int;
    assert Front(b) == b[..3] && Front(b[..3]) == b[..2] && Front(b[..2]) == b[..1] && Front(b[..1]) == [];
    assert BigEndianValue(b[..1]) == f[i] as int;
    assert BigEndianValue(b[..2]) == 256 * BigEndianValue(b[..1]) + f[i + 1] as int;
    assert BigEndianValue(b[..3]) == 256 * BigEndianValue(b[..2]) + f[i + 2] as int;
  }

  /** The part of a payload frame after the command, by offsets; magic number and checksum are not looked at. */
  function PayloadByOffsets<M>(metadata: Protobuf<M>, rest: seq<byte>): Result<Payload<M>, DecodeError> {
    if |rest| < 10 || |rest| < 10 + U32At(rest, 6) then Err(BadPayloadFrame)
    else
      var n := 10 + U32At(rest, 6);
      match metadata.decode(rest[10..n])
      case None => Err(BadMetadata)
      case Some(md) => Ok(Payload(md, rest[n..]))
  }

  /** A complete frame, by offsets. */
  function FrameByOffsets<C, M>(s: Schema<C, M>, f: seq<byte>): Result<Message<C, M>, DecodeError> {
    if |f| < 8 || |f| < 8 + U32At(f, 4) then Err(BadCommandFrame)
    else
      var n := 8 + U32At(f, 4);
      match s.command.decode(f[8..n])
      case None => Err(BadCommand)
      case Some(command) =>
        if |f| == n then Ok(Message(command, None))
        else match PayloadByOffsets(s.metadata, f[n..])
          case Ok(p) => Ok(Message(command, Some(p)))
          case Err(e) => Err(e)
  }

  lemma CommandFrameByOffsets(f: seq<byte>)
    ensures CommandFrame(f) ==
            if |f| < 8 || |f| < 8 + U32At(f, 4) then None
            else Some((f[8 + U32At(f, 4)..], f[8..8 + U32At(f, 4)]))
  {
    if |f| >= 8 {
      GetU32IsU32At(f, 4);
      assert f[4..][4..] == f[8..];
      var n := U32At(f, 4);
      if |f| >= 8 + n {
        assert f[8..][n..] == f[8 + n..] && f[8..][..n] == f[8..8 + n];
      }
    }
  }

  lemma PayloadFrameByOffsets(i: seq<byte>)
    ensures PayloadFrame(i) ==
            if |i| < 10 || |i| < 10 + U32At(i, 6) then None
            else Some((i[10 + U32At(i, 6)..], i[10..10 + U32At(i, 6)]))
  {
    if |i| >= 10 {
      GetU32IsU32At(i, 6);
      assert i[2..][4..] == i[6..] && i[6..][4..] == i[10..];
      var n := U32At(i, 6);
      if |i| >= 10 + n {
        assert i[10..][n..] == i[10 + n..] && i[10..][..n] == i[10..10 + n];
      }
    } else if |i| >= 6 {
      assert i[2..][4..] == i[6..];
    }
  }

  lemma ParsesByOffsets<C, M>(s: Schema<C, M>, f: seq<byte>)
    ensures ParseFrame(s, f) == FrameByOffsets(s, f)
  {
    CommandFrameByOffsets(f);
    if |f| >= 8 && |f| >= 8 + U32At(f, 4) {
      var rest := f[8 + U32At(f, 4)..];
      PayloadFrameByOffsets(rest);
      assert rest == [] <==> |f| == 8 + U32At(f, 4);
    }
  }

  /** The decoder reads any bytes, well formed or not, at the offsets of the protocol. */
  lemma DecodesByOffsets<C, M>(s: Schema<C, M>, src: seq<byte>)
    ensures Decode(s, src) ==
            if |src| < 4 || |src| < 4 + U32At(src, 0) then NeedMore
            else match FrameByOffsets(s, src[..4 + U32At(src, 0)])
              case Ok(m) => Complete(m, 4 + U32At(src, 0))
              case Err(e) => Malformed(e)
  {
    if |src| >= 4 {
      GetU32IsU32At(src, 0);
      assert src[0..] == src;
      if |src| >= 4 + U32At(src, 0) {
        ParsesByOffsets(s, src[..4 + U32At(src, 0)]);
      }
    }
  }

  /** Four bytes, most significant first. */
  function Bytes4(n: nat): (b: seq<byte>)
    ensures |b| == 4
  {
    [n / 0x100_0000 % 256, n / 0x1_0000 % 256, n / 0x100 % 256, n % 256]
  }

  lemma PutU32IsBytes4(n: nat)
    ensures PutU32(n) == Bytes4(n)
  {
    var a := n / 256;
    var b := a / 256;
    var c := b / 256;
    assert b == n / 0x1_0000 && c == n / 0x100_0000;
    assert BigEndian(c, 1) == [c % 256];
    assert BigEndian(b, 2) == [c % 256, b % 256];
    assert BigEndian(a, 3) == [c % 256, b % 256, a % 256];
  }

  /** The first part of every frame, byte by byte: its size without these four bytes, the command's size, the command. */
  ghost predicate StartsRight<C, M>(s: Schema<C, M>, m: Message<C, M>, f: seq<byte>) {
    var command := s.command.encode(m.command);
    && |f| >= 8 + |command|
    && f[..4] == Bytes4(|f| - 4) && f[4..8] == Bytes4(|command|) && f[8..8 + |command|] == command
  }

  /**
   What follows a command in a payload frame, byte by byte: the magic number, the checksum of all
   that comes after it, the metadata's size, the metadata and the data.
   */
  ghost predicate PayloadLaidOut<C, M>(s: Schema<C, M>, p: Payload<M>, rest: seq<byte>) {
    var metadata := s.metadata.encode(p.metadata);
    && |rest| == 10 + |metadata| + |p.data|
    && rest[..2] == [0x0e, 0x01]
    && rest[2..6] == Bytes4(s.crc(rest[6..]))
    && rest[6..10] == Bytes4(|metadata|)
    && rest[10..10 + |metadata|] == metadata
    && rest[10 + |metadata|..] == p.data
  }

  ghost predicate LaidOut<C, M>(s: Schema<C, M>, m: Message<C, M>, f: seq<byte>) {
    var n := 8 + |s.command.encode(m.command)|;
    && StartsRight(s, m, f)
    && match m.payload
       case None => |f| == n
       case Some(p) => PayloadLaidOut(s, p, f[n..])
  }

  lemma CommandLaidOut<C, M>(s: Schema<C, M>, m: Message<C, M>, rest: seq<byte>)
    requires |rest| == TotalSize(s, m) - 4 - |s.command.encode(m.command)|
    ensures StartsRight(s, m, CommandPart(s, m) + rest)
    ensures (CommandPart(s, m) + rest)[8 + |s.command.encode(m.command)|..] == rest
  {
    PutU32IsBytes4(TotalSize(s, m));
    PutU32IsBytes4(|s.command.encode(m.command)|);
  }

  lemma ChecksumLaidOut<C, M>(s: Schema<C, M>, p: Payload<M>)
    ensures PayloadLaidOut(s, p, PutU16(MAGIC) + PutU32(s.crc(Checksummed(s, p))) + Checksummed(s, p))
  {
    var metadata := s.metadata.encode(p.metadata);
    var rest := PutU16(MAGIC) + PutU32(s.crc(Checksummed(s, p))) + Checksummed(s, p);
    assert BigEndian(MAGIC, 2) == BigEndian(MAGIC / 256, 1) + [MAGIC % 256];
    assert BigEndian(MAGIC / 256, 1) == [0x0e];
    assert rest[6..] == Checksummed(s, p);
    PutU32IsBytes4(s.crc(Checksummed(s, p)));
    PutU32IsBytes4(|metadata|);
    assert Checksummed(s, p)[..4] == Bytes4(|metadata|) && Checksummed(s, p)[4..] == metadata + p.data;
    assert rest[10..] == metadata + p.data;
  }

  /** Every frame has the layout of the protocol, to the byte. */
  lemma FrameIsLaidOut<C, M>(s: Schema<C, M>, m: Message<C, M>)
    ensures LaidOut(s, m, Frame(s, m))
  {
    match m.payload
    case None =>
      assert CommandPart(s, m) + [] == CommandPart(s, m);
      CommandLaidOut(s, m, []);
    case Some(p) =>
      var rest := PutU16(MAGIC) + PutU32(s.crc(Checksummed(s, p))) + Checksummed(s, p);
      assert Frame(s, m) == CommandPart(s, m) + rest;
      CommandLaidOut(s, m, rest);
      ChecksumLaidOut(s, p);
  }

  class BytesMut {
    var bytes: seq<byte>

    constructor ()
      ensures bytes == []
    {
      bytes := [];
    }

    method PutSlice(b: seq<byte>)
      modifies this
      ensures bytes == old(bytes) + b
    {
      bytes := bytes + b;
    }
  }

  lemma SlotOverwritten(head: seq<byte>, slot: seq<byte>, tail: seq<byte>, crc: seq<byte>)
    ensures var buf := head + slot + tail;
            && buf[|head| + |slot|..] == tail
            && buf[..|head|] + crc + buf[|head| + |slot|..] == head + crc + tail
  {
  }

  /** `Encoder::encode`: the checksum slot is reserved first and overwritten at the end. */
  method EncodeInto<C, M>(s: Schema<C, M>, item: Message<C, M>, dst: BytesMut)
    modifies dst
    ensures dst.bytes == old(dst.bytes) + Frame(s, item)
    ensures LaidOut(s, item, dst.bytes[|old(dst.bytes)|..])
  {
    var command := s.command.encode(item.command);
    var metadataSize := match item.payload case Some(p) => |s.metadata.encode(p.metadata)| case None => 0;
    var payloadSize := match item.payload case Some(p) => |p.data| case None => 0;
    var headerSize := if item.payload.Some? then 18 else 8;
    var totalSize := |command| + metadataSize + payloadSize + headerSize - 4;
    var buf := PutU32(totalSize) + PutU32(|command|) + command;
    if item.payload.Some? {
      var payload := item.payload.value;
      buf := buf + PutU16(MAGIC);
      ghost var head := buf;
      var crcOffset := |buf|;
      buf := buf + PutU32(0);
      var metadataOffset := |buf|;
      buf := buf + PutU32(metadataSize);
      buf := buf + s.metadata.encode(payload.metadata);
      buf := buf + payload.data;
      SlotOverwritten(head, PutU32(0), Checksummed(s, payload), PutU32(s.crc(Checksummed(s, payload))));
      assert buf == head + PutU32(0) + Checksummed(s, payload);
      var crc := s.crc(buf[metadataOffset..]);
      buf := buf[..crcOffset] + PutU32(crc) + buf[metadataOffset..];
    }
    assert buf == Frame(s, item);
    FrameIsLaidOut(s, item);
    dst.PutSlice(buf);
    assert dst.bytes[|old(dst.bytes)|..] == buf;
  }

  /** `Decoder::decode`: consumes exactly one frame, or nothing at all. */
  method DecodeFrom<C, M>(s: Schema<C, M>, src: BytesMut) returns (r: Result<Option<Message<C, M>>, DecodeError>)
    modifies src
    ensures var d := Decode(s, old(src.bytes));
            && (d.Complete? ==> r == Ok(Some(d.msg)) && src.bytes == old(src.bytes)[d.size..])
            && (d.NeedMore? ==> r == Ok(None) && src.bytes == old(src.bytes))
            && (d.Malformed? ==> r == Err(d.error) && src.bytes == old(src.bytes))
  {
    if |src.bytes| >= 4 {
      var messageSize := GetU32(src.bytes) + 4;
      if |src.bytes| >= messageSize {
        var frame := src.bytes[..messageSize];
        var parsed := ParseFrame(s, frame);
        if parsed.Err? {
          return Err(parsed.error);
        }
        src.bytes := src.bytes[messageSize..];
        return Ok(Some(parsed.value));
      }
    }
    return Ok(None);
  }

  /** The outcome of decoding until no complete frame is left. */
  datatype Decoding<C, M> = Decoding(msgs: seq<Message<C, M>>, rest: seq<byte>, error: Option<DecodeError>)

  function Prepend<C, M>(m: Message<C, M>, d: Decoding<C, M>): Decoding<C, M> {
    d.(msgs := [m] + d.msgs)
  }

  function DecodeAll<C, M>(s: Schema<C, M>, src: seq<byte>): Decoding<C, M>
    decreases |src|
  {
    match Decode(s, src)
    case NeedMore => Decoding([], src, None)
    case Malformed(e) => Decoding([], src, Some(e))
    case Complete(m, n) => Prepend(m, DecodeAll(s, src[n..]))
  }

  function Join<C, M>(msgs: seq<Message<C, M>>, next: Decoding<C, M>): Decoding<C, M> {
    next.(msgs := msgs + next.msgs)
  }

  lemma JoinPrepend<C, M>(msgs: seq<Message<C, M>>, m: Message<C, M>, next: Decoding<C, M>)
    ensures Join(msgs, Prepend(m, next)) == Join(msgs + [m], next)
    ensures Join([m] + msgs, next) == Prepend(m, Join(msgs, next))
  {
  }

  lemma DrainStep<C, M>(s: Schema<C, M>, msgs: seq<Message<C, M>>, src: seq<byte>)
    ensures var d := Decode(s, src);
            Join(msgs, DecodeAll(s, src)) ==
            if d.NeedMore? then Decoding(msgs, src, None)
            else if d.Malformed? then Decoding(msgs, src, Some(d.error))
            else Join(msgs + [d.msg], DecodeAll(s, src[d.size..]))
  {
  }

  /** The framed reader: run `decode` until it asks for more bytes or fails. */
  method DrainFrames<C, M>(s: Schema<C, M>, src: BytesMut)
    returns (msgs: seq<Message<C, M>>, error: Option<DecodeError>)
    modifies src
    ensures Decoding(msgs, src.bytes, error) == DecodeAll(s, old(src.bytes))
  {
    msgs, error := [], None;
    ghost var all := DecodeAll(s, src.bytes);
    assert [] + all.msgs == all.msgs;
    while true
      invariant all == Join(msgs, DecodeAll(s, src.bytes))
      decreases |src.bytes|
    {
      DrainStep(s, msgs, src.bytes);
      var r := DecodeFrom(s, src);
      if r.Err? {
        return msgs, Some(r.error);
      }
      if r.value.None? {
        return msgs, None;
      }
      msgs := msgs + [r.value.value];
    }
  }

  /** One more chunk from the network; after a decoding error nothing more is read. */
  function Feed<C, M>(s: Schema<C, M>, d: Decoding<C, M>, chunk: seq<byte>): Decoding<C, M> {
    if d.error.Some? then d
    else
      Join(d.msgs, DecodeAll(s, d.rest + chunk))
  }

  function FeedAll<C, M>(s: Schema<C, M>, chunks: seq<seq<byte>>): Decoding<C, M> {
    if chunks == [] then Decoding([], [], None)
    else Feed(s, FeedAll(s, Front(chunks)), Last(chunks))
  }

  function Concat(chunks: seq<seq<byte>>): seq<byte> {
    if chunks == [] then [] else Concat(Front(chunks)) + Last(chunks)
  }

  /** What has been decided about a prefix of the stream is never revised. */
  lemma DecodePrefix<C, M>(s: Schema<C, M>, a: seq<byte>, b: seq<byte>)
    requires !Decode(s, a).NeedMore?
    ensures Decode(s, a + b) == Decode(s, a)
  {
    GetU32Prefix(a, b);
    assert (a + b)[..GetU32(a) + 4] == a[..GetU32(a) + 4];
  }

  /** Carry on with more bytes; after an error they are only appended to what is left. */
  function Continue<C, M>(s: Schema<C, M>, d: Decoding<C, M>, more: seq<byte>): Decoding<C, M> {
    if d.error.Some? then d.(rest := d.rest + more)
    else Join(d.msgs, DecodeAll(s, d.rest + more))
  }

  lemma DecodeAllStep<C, M>(s: Schema<C, M>, a: seq<byte>, b: seq<byte>)
    requires Decode(s, a).Complete?
    ensures var Complete(m, n) := Decode(s, a);
            && DecodeAll(s, a) == Prepend(m, DecodeAll(s, a[n..]))
            && DecodeAll(s, a + b) == Prepend(m, DecodeAll(s, a[n..] + b))
  {
    DecodePrefix(s, a, b);
    assert (a + b)[Decode(s, a).size..] == a[Decode(s, a).size..] + b;
  }

  lemma {:induction false} DecodeAllAppend<C, M>(s: Schema<C, M>, a: seq<byte>, b: seq<byte>)
    ensures DecodeAll(s, a + b) == Continue(s, DecodeAll(s, a), b)
    decreases |a|
  {
    if Decode(s, a).Complete? {
      var Complete(m, n) := Decode(s, a);
      DecodeAllStep(s, a, b);
      DecodeAllAppend(s, a[n..], b);
      var d := DecodeAll(s, a[n..]);
      JoinPrepend(d.msgs, m, DecodeAll(s, d.rest + b));
    } else if Decode(s, a).Malformed? {
      DecodePrefix(s, a, b);
    } else {
      assert [] + DecodeAll(s, a + b).msgs == DecodeAll(s, a + b).msgs;
    }
  }

  /**
   Decoding does not depend on how the stream is cut: the messages and the error are those of the
   whole stream decoded at once, and so are the bytes left over unless decoding failed.
   */
  lemma {:induction false} ChunkingDoesNotMatter<C, M>(s: Schema<C, M>, chunks: seq<seq<byte>>)
    ensures var d, whole := FeedAll(s, chunks), DecodeAll(s, Concat(chunks));
            && d.msgs == whole.msgs && d.error == whole.error
            && (whole.error.None? ==> d.rest == whole.rest)
  {
    if chunks == [] {
    } else {
      ChunkingDoesNotMatter(s, Front(chunks));
      DecodeAllAppend(s, Concat(Front(chunks)), Last(chunks));
    }
  }

  lemma CommandPartParses<C, M>(s: Schema<C, M>, m: Message<C, M>, rest: seq<byte>)
    requires TotalSize(s, m) < TWO_32
    ensures CommandFrame(CommandPart(s, m) + rest) == Some((rest, s.command.encode(m.command)))
  {
    var command := s.command.encode(m.command);
    assert CommandPart(s, m) + rest == PutU32(TotalSize(s, m)) + (PutU32(|command|) + (command + rest));
    HeaderParses(TotalSize(s, m), PutU32(|command|) + (command + rest));
    HeaderParses(|command|, command + rest);
    TakeParses(command, rest);
  }

  /** Any magic number and any checksum parse alike. */
  lemma PayloadPartParses(magic: seq<byte>, crc: seq<byte>, metadata: seq<byte>, data: seq<byte>)
    requires |magic| == 2 && |crc| == 4 && |metadata| < TWO_32
    ensures PayloadFrame(magic + crc + (PutU32(|metadata|) + metadata + data)) == Some((data, metadata))
  {
    var i := magic + crc + (PutU32(|metadata|) + metadata + data);
    assert i[2..] == crc + (PutU32(|metadata|) + metadata + data);
    assert i[2..][4..] == PutU32(|metadata|) + (metadata + data);
    HeaderParses(|metadata|, metadata + data);
    TakeParses(metadata, data);
  }

  /** A payload frame with an arbitrary magic number and checksum. */
  function FrameWith<C, M>(s: Schema<C, M>, m: Message<C, M>, magic: seq<byte>, crc: seq<byte>): seq<byte> {
    match m.payload
    case None => CommandPart(s, m)
    case Some(p) => CommandPart(s, m) + magic + crc + Checksummed(s, p)
  }

  lemma FrameParses<C(!new), M(!new)>(s: Schema<C, M>, m: Message<C, M>, magic: seq<byte>, crc: seq<byte>)
    requires LawfulSchema(s) && Fits(s, m) && |magic| == 2 && |crc| == 4
    ensures ParseFrame(s, FrameWith(s, m, magic, crc)) == Ok(m)
  {
    match m.payload
    case None =>
      assert CommandPart(s, m) + [] == CommandPart(s, m);
      CommandPartParses(s, m, []);
    case Some(p) =>
      var metadata := s.metadata.encode(p.metadata);
      var rest := magic + crc + Checksummed(s, p);
      assert FrameWith(s, m, magic, crc) == CommandPart(s, m) + rest;
      CommandPartParses(s, m, rest);
      PayloadPartParses(magic, crc, metadata, p.data);
  }

  lemma FrameAnnouncesSize(f: seq<byte>, n: nat, rest: seq<byte>)
    requires n < TWO_32 && PutU32(n) <= f
    ensures GetU32(f + rest) == n
  {
    assert f + rest == PutU32(n) + (f[4..] + rest);
    HeaderParses(n, f[4..] + rest);
  }

  lemma WholeFrameDecodes<C, M>(s: Schema<C, M>, f: seq<byte>, n: nat, m: Message<C, M>, rest: seq<byte>)
    requires n < TWO_32 && |f| == n + 4 && PutU32(n) <= f && ParseFrame(s, f) == Ok(m)
    ensures Decode(s, f + rest) == Complete(m, |f|)
  {
    FrameAnnouncesSize(f, n, rest);
    assert (f + rest)[..n + 4] == f;
  }

  /** The decoder reads neither the magic number nor the checksum. */
  lemma ChecksumIsIgnored<C(!new), M(!new)>(s: Schema<C, M>, m: Message<C, M>, magic: seq<byte>, crc: seq<byte>,
                                           rest: seq<byte>)
    requires LawfulSchema(s) && Fits(s, m) && |magic| == 2 && |crc| == 4
    ensures Decode(s, FrameWith(s, m, magic, crc) + rest) == Complete(m, |Frame(s, m)|)
  {
    var f := FrameWith(s, m, magic, crc);
    FrameParses(s, m, magic, crc);
    WholeFrameDecodes(s, f, TotalSize(s, m), m, rest);
  }

  /** A frame comes back, alone at the front of the stream, exactly when its size fits in 32 bits. */
  lemma FrameRoundTrip<C(!new), M(!new)>(s: Schema<C, M>, m: Message<C, M>, rest: seq<byte>)
    requires LawfulSchema(s)
    ensures Decode(s, Frame(s, m) + rest) == Complete(m, |Frame(s, m)|) <==> Fits(s, m)
  {
    if Fits(s, m) {
      var crc := match m.payload case Some(p) => s.crc(Checksummed(s, p)) case None => 0;
      assert Frame(s, m) == FrameWith(s, m, PutU16(MAGIC), PutU32(crc));
      ChecksumIsIgnored(s, m, PutU16(MAGIC), PutU32(crc), rest);
    } else {
      GetU32Bound(Frame(s, m) + rest);
    }
  }

  function Frames<C, M>(s: Schema<C, M>, msgs: seq<Message<C, M>>): seq<byte> {
    if msgs == [] then [] else Frame(s, msgs[0]) + Frames(s, msgs[1..])
  }

  lemma FrontFrameDecodes<C, M>(s: Schema<C, M>, f: seq<byte>, m: Message<C, M>, tail: seq<byte>)
    requires Decode(s, f + tail) == Complete(m, |f|)
    ensures DecodeAll(s, f + tail) == Prepend(m, DecodeAll(s, tail))
  {
  }

  lemma {:induction false} FramesRoundTrip<C(!new), M(!new)>(s: Schema<C, M>, msgs: seq<Message<C, M>>)
    requires LawfulSchema(s) && forall m :: m in msgs ==> Fits(s, m)
    ensures DecodeAll(s, Frames(s, msgs)) == Decoding(msgs, [], None)
  {
    if msgs == [] {
    } else {
      var m, tail := msgs[0], msgs[1..];
      assert forall x :: x in tail ==> x in msgs;
      FramesRoundTrip(s, tail);
      FrameRoundTrip(s, m, Frames(s, tail));
      FrontFrameDecodes(s, Frame(s, m), m, Frames(s, tail));
      assert [m] + tail == msgs;
    }
  }

  /** Any messages, encoded, concatenated and cut anywhere, are read back in order, to the last byte. */
  lemma StreamRoundTrip<C(!new), M(!new)>(s: Schema<C, M>, msgs: seq<Message<C, M>>, chunks: seq<seq<byte>>)
    requires LawfulSchema(s) && (forall m :: m in msgs ==> Fits(s, m))
    requires Concat(chunks) == Frames(s, msgs)
    ensures FeedAll(s, chunks) == Decoding(msgs, [], None)
  {
    FramesRoundTrip(s, msgs);
    ChunkingDoesNotMatter(s, chunks);
  }
}
