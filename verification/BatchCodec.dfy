/**
 Batches: the producer packs queued messages into one payload, the consumer unpacks it.

 The protobuf codec of the per-message metadata is a parameter, as in `Wire`.  Lengths are
 narrowed to `i32` and `u32` exactly where the code narrows them.
 */
module BatchCodec {
  import opened Prelude
  import opened Wire

  const TWO_31 := 0x8000_0000

  /** `x as i32` and `x as u32`. */
  function AsI32(n: int): int {
    if n % TWO_32 < TWO_31 then n % TWO_32 else n % TWO_32 - TWO_32
  }

  function AsU32(n: int): nat {
    n % TWO_32
  }

  datatype KeyValue = KeyValue(key: string, value: string)

  datatype ProducerMessage = ProducerMessage(
    payload: seq<byte>,
    properties: seq<KeyValue>,
    partitionKey: Option<string>,
    orderingKey: Option<seq<byte>>,
    eventTime: Option<nat>)

  datatype SingleMetadata = SingleMetadata(
    properties: seq<KeyValue>,
    partitionKey: Option<string>,
    orderingKey: Option<seq<byte>>,
    payloadSize: int,
    eventTime: Option<nat>)

  datatype BatchedMessage = BatchedMessage(metadata: SingleMetadata, payload: seq<byte>)

  type Single = Protobuf<SingleMetadata>

  /** `Batch::push_back`. */
  function ToBatched(m: ProducerMessage): BatchedMessage {
    BatchedMessage(
      SingleMetadata(m.properties, m.partitionKey, m.orderingKey, AsI32(|m.payload|), m.eventTime),
      m.payload)
  }

  function Serialized(p: Single, b: BatchedMessage): seq<byte> {
    PutU32(|p.encode(b.metadata)|) + p.encode(b.metadata) + b.payload
  }

  function SerializedAll(p: Single, bs: seq<BatchedMessage>): seq<byte> {
    if bs == [] then [] else SerializedAll(p, Front(bs)) + Serialized(p, Last(bs))
  }

  function ParsePayload(metadata: Option<SingleMetadata>, i: seq<byte>): Option<(seq<byte>, BatchedMessage)> {
    if metadata.None? || metadata.value.payloadSize < 0 then None
    else
      match Take(AsU32(metadata.value.payloadSize), i)
      case None => None
      case Some((rest, payload)) => Some((rest, BatchedMessage(metadata.value, payload)))
  }

  /** `batched_message`: length-prefixed metadata, then as many payload bytes as it announces. */
  function ParseOne(p: Single, i: seq<byte>): Option<(seq<byte>, BatchedMessage)> {
    match BeU32(i)
    case None => None
    case Some((i1, size)) =>
      match Take(size, i1)
      case None => None
      case Some((i2, bytes)) => ParsePayload(p.decode(bytes), i2)
  }

  /** `parse_batched_message`: exactly `count` messages; what follows them is ignored. */
  function Parse(p: Single, count: nat, i: seq<byte>): (r: Option<seq<BatchedMessage>>)
    ensures r.Some? ==> |r.value| == count
  {
    if count == 0 then Some([])
    else
      match ParseOne(p, i)
      case None => None
      case Some((rest, b)) =>
        match Parse(p, count - 1, rest)
        case None => None
        case Some(bs) => Some([b] + bs)
  }

  /** A message in a batch, byte by byte: the metadata's size, the metadata, the payload. */
  lemma EntryIsLaidOut(p: Single, b: BatchedMessage)
    ensures var bytes, metadata := Serialized(p, b), p.encode(b.metadata);
            && |bytes| == 4 + |metadata| + |b.payload|
            && bytes[..4] == Bytes4(|metadata|)
            && bytes[4..4 + |metadata|] == metadata && bytes[4 + |metadata|..] == b.payload
  {
    PutU32IsBytes4(|p.encode(b.metadata)|);
  }

  /** The parser reads any bytes at those offsets, and refuses a negative payload size. */
  lemma EntryByOffsets(p: Single, i: seq<byte>)
    ensures ParseOne(p, i) ==
            if |i| < 4 || |i| < 4 + U32At(i, 0) then None
            else
              var n := 4 + U32At(i, 0);
              var metadata := p.decode(i[4..n]);
              if metadata.None? || metadata.value.payloadSize < 0 || |i| < n + AsU32(metadata.value.payloadSize) then None
              else
                var end := n + AsU32(metadata.value.payloadSize);
                Some((i[end..], BatchedMessage(metadata.value, i[n..end])))
  {
    if |i| >= 4 {
      GetU32IsU32At(i, 0);
      assert i[0..] == i;
      var n := 4 + U32At(i, 0);
      if |i| >= n {
        assert i[4..][n - 4..] == i[n..] && i[4..][..n - 4] == i[4..n];
        var metadata := p.decode(i[4..n]);
        if metadata.Some? && metadata.value.payloadSize >= 0 && |i| >= n + AsU32(metadata.value.payloadSize) {
          var end := n + AsU32(metadata.value.payloadSize);
          assert i[n..][end - n..] == i[end..] && i[n..][..end - n] == i[n..end];
        }
      }
    }
  }

  ghost predicate Packable(p: Single, m: ProducerMessage) {
    |m.payload| < TWO_31 && |p.encode(ToBatched(m).metadata)| < TWO_32
  }

  lemma NarrowSmall(n: nat)
    requires n < TWO_31
    ensures AsI32(n) == n && AsU32(n) == n
  {
  }

  /** The lengths written in front of a batched message are its true lengths. */
  ghost predicate Recoverable(p: Single, b: BatchedMessage) {
    |p.encode(b.metadata)| < TWO_32 && b.metadata.payloadSize == |b.payload| < TWO_31
  }

  lemma PackableIsRecoverable(p: Single, m: ProducerMessage)
    requires Packable(p, m)
    ensures Recoverable(p, ToBatched(m))
  {
  }

  lemma ParsesBack(p: Single, b: BatchedMessage, rest: seq<byte>)
    requires Lawful(p) && Recoverable(p, b)
    ensures ParseOne(p, Serialized(p, b) + rest) == Some((rest, b))
  {
    var metadata := p.encode(b.metadata);
    assert Serialized(p, b) + rest == PutU32(|metadata|) + (metadata + (b.payload + rest));
    HeaderParses(|metadata|, metadata + (b.payload + rest));
    TakeParses(metadata, b.payload + rest);
    NarrowSmall(|b.payload|);
    TakeParses(b.payload, rest);
  }

  /** How far a successful parse advances. */
  lemma ParseAdvances(p: Single, i: seq<byte>)
    ensures ParseOne(p, i).Some? ==>
              var Some((rest, b)) := ParseOne(p, i);
              && |i| >= 4 && |i| == 4 + GetU32(i) + |b.payload| + |rest|
              && |b.payload| == AsU32(b.metadata.payloadSize) && b.metadata.payloadSize >= 0
  {
  }

  lemma I32Small(n: nat)
    ensures AsI32(n) >= 0 && AsU32(AsI32(n)) == n ==> n < TWO_31
  {
  }

  /** One message survives packing exactly when its payload is below 2^31 bytes and its metadata below 2^32. */
  lemma OneMessageRoundTrip(p: Single, m: ProducerMessage, rest: seq<byte>)
    requires Lawful(p)
    ensures ParseOne(p, Serialized(p, ToBatched(m)) + rest) == Some((rest, ToBatched(m))) <==> Packable(p, m)
  {
    if Packable(p, m) {
      PackableIsRecoverable(p, m);
      ParsesBack(p, ToBatched(m), rest);
    } else {
      var i := Serialized(p, ToBatched(m)) + rest;
      if ParseOne(p, i) == Some((rest, ToBatched(m))) {
        ParseAdvances(p, i);
        GetU32Bound(i);
        I32Small(|m.payload|);
        assert false;
      }
    }
  }

  function Batched(msgs: seq<ProducerMessage>): (bs: seq<BatchedMessage>)
    ensures |bs| == |msgs|
    ensures forall i :: 0 <= i < |msgs| ==> bs[i] == ToBatched(msgs[i])
  {
    seq(|msgs|, i requires 0 <= i < |msgs| => ToBatched(msgs[i]))
  }

  lemma {:induction false} SerializedAllCons(p: Single, bs: seq<BatchedMessage>)
    requires bs != []
    ensures SerializedAll(p, bs) == Serialized(p, bs[0]) + SerializedAll(p, bs[1..])
  {
    if |bs| == 1 {
      assert Front(bs) == [] && bs[1..] == [];
    } else {
      SerializedAllCons(p, Front(bs));
      assert Front(bs)[1..] == Front(bs[1..]);
    }
  }

  lemma Associative(a: seq<byte>, b: seq<byte>, c: seq<byte>)
    ensures (a + b) + c == a + (b + c)
  {
  }

  lemma ParseCons(p: Single, b: BatchedMessage, bs: seq<BatchedMessage>, rest: seq<byte>)
    requires Lawful(p) && Recoverable(p, b) && Parse(p, |bs|, rest) == Some(bs)
    ensures Parse(p, |bs| + 1, Serialized(p, b) + rest) == Some([b] + bs)
  {
    ParsesBack(p, b, rest);
  }

  /** A whole batch is read back whatever bytes follow it. */
  lemma {:induction false} BatchRoundTrip(p: Single, bs: seq<BatchedMessage>, trailing: seq<byte>)
    requires Lawful(p) && forall k :: 0 <= k < |bs| ==> Recoverable(p, bs[k])
    ensures Parse(p, |bs|, SerializedAll(p, bs) + trailing) == Some(bs)
  {
    if bs == [] {
    } else {
      var head, tail := bs[0], bs[1..];
      assert bs == [head] + tail;
      assert Recoverable(p, head);
      BatchRoundTrip(p, tail, trailing);
      ParseCons(p, head, tail, SerializedAll(p, tail) + trailing);
      SerializedAllCons(p, bs);
      Associative(Serialized(p, head), SerializedAll(p, tail), trailing);
    }
  }

  datatype MessageId = MessageId(ledgerId: nat, entryId: nat, partition: Option<int>, batchIndex: Option<int>)

  /** `other` stands for the metadata fields that unpacking copies unchanged. */
  datatype Metadata = Metadata(
    numMessagesInBatch: Option<int>,
    properties: seq<KeyValue>,
    partitionKey: Option<string>,
    eventTime: Option<nat>,
    other: nat)

  type Item = (MessageId, Payload<Metadata>)

  /** What the consumer sees of the k-th message of a batch. */
  function ItemAt(id: MessageId, outer: Metadata, b: BatchedMessage, k: int): Item {
    (id.(batchIndex := Some(AsI32(k))),
     Payload(outer.(properties := b.metadata.properties, partitionKey := b.metadata.partitionKey,
                    eventTime := b.metadata.eventTime), b.payload))
  }

  function Items(id: MessageId, outer: Metadata, bs: seq<BatchedMessage>): (items: seq<Item>)
    ensures |items| == |bs|
    ensures forall k :: 0 <= k < |bs| ==> items[k] == ItemAt(id, outer, bs[k], k)
  {
    seq(|bs|, k requires 0 <= k < |bs| => ItemAt(id, outer, bs[k], k))
  }

  class BatchedMessageIterator {
    var messages: seq<BatchedMessage>
    const messageId: MessageId
    const metadata: Metadata
    const totalMessages: nat
    var currentIndex: nat

    ghost predicate Valid()
      reads this
    {
      currentIndex <= totalMessages
    }

    constructor (id: MessageId, outer: Metadata, total: nat, parsed: seq<BatchedMessage>)
      ensures Valid() && messages == parsed && currentIndex == 0
      ensures messageId == id && metadata == outer && totalMessages == total
    {
      messages, messageId, metadata, totalMessages, currentIndex := parsed, id, outer, total, 0;
    }

    method Next() returns (item: Option<Item>)
      requires Valid()
      modifies this
      ensures Valid()
      ensures currentIndex == Min(old(currentIndex) + 1, totalMessages)
      ensures old(currentIndex) < totalMessages && old(messages) != [] ==>
                && item == Some(ItemAt(messageId, metadata, old(messages)[0], old(currentIndex)))
                && messages == old(messages)[1..]
      ensures old(currentIndex) == totalMessages || old(messages) == [] ==> item == None && messages == old(messages)
    {
      if totalMessages - currentIndex == 0 {
        return None;
      }
      var index := currentIndex;
      currentIndex := currentIndex + 1;
      if messages == [] {
        return None;
      }
      var batched := messages[0];
      messages := messages[1..];
      return Some(ItemAt(messageId, metadata, batched, index));
    }
  }

  function Unpacked(p: Single, id: MessageId, payload: Payload<Metadata>): Option<seq<Item>>
    requires payload.metadata.numMessagesInBatch.Some?
  {
    match Parse(p, AsU32(payload.metadata.numMessagesInBatch.value), payload.data)
    case None => None
    case Some(bs) => Some(Items(id, payload.metadata, bs))
  }

  /** Iterate to the end. */
  method Collect(it: BatchedMessageIterator) returns (out: seq<Item>)
    requires it.Valid() && it.currentIndex == 0 && |it.messages| == it.totalMessages
    modifies it
    ensures out == Items(it.messageId, it.metadata, old(it.messages))
  {
    ghost var parsed, total := it.messages, it.totalMessages;
    ghost var all := Items(it.messageId, it.metadata, parsed);
    out := [];
    var next := it.Next();
    while next.Some?
      invariant it.Valid() && |out| <= total && out == all[..|out|]
      invariant next.Some? ==>
                  it.currentIndex == |out| + 1 <= total && it.messages == parsed[|out| + 1..] && next == Some(all[|out|])
      invariant next.None? ==> |out| == total
      decreases total - |out|, next.Some?
    {
      out := out + [next.value];
      next := it.Next();
    }
  }

  /** The consumer's side: parse `num_messages_in_batch` messages and iterate over them. */
  method Unpack(p: Single, id: MessageId, payload: Payload<Metadata>) returns (items: Option<seq<Item>>)
    requires payload.metadata.numMessagesInBatch.Some?
    ensures items == Unpacked(p, id, payload)
  {
    var total := AsU32(payload.metadata.numMessagesInBatch.value);
    var parsed := Parse(p, total, payload.data);
    if parsed.None? {
      return None;
    }
    var it := new BatchedMessageIterator(id, payload.metadata, total, parsed.value);
    var out := Collect(it);
    return Some(out);
  }

  /** The k-th message as its sender wrote it. */
  function ItemOf(id: MessageId, outer: Metadata, m: ProducerMessage, k: int): Item {
    (id.(batchIndex := Some(k)),
     Payload(outer.(properties := m.properties, partitionKey := m.partitionKey, eventTime := m.eventTime), m.payload))
  }

  /**
   The whole pipeline: messages pushed and serialized by the producer come out of the consumer's
   iterator with the same payloads, properties, keys and times, in the same order, with batch
   indices 0, 1, 2, ..., whatever bytes follow the batch.
   */
  lemma PipelineRoundTrip(p: Single, msgs: seq<ProducerMessage>, trailing: seq<byte>, id: MessageId, outer: Metadata)
    requires Lawful(p) && (forall m :: m in msgs ==> Packable(p, m)) && |msgs| < TWO_31
    requires outer.numMessagesInBatch == Some(AsI32(|msgs|))
    ensures var items := Unpacked(p, id, Payload(outer, SerializedAll(p, Batched(msgs)) + trailing));
            && items.Some? && |items.value| == |msgs|
            && forall k :: 0 <= k < |msgs| ==> items.value[k] == ItemOf(id, outer, msgs[k], k)
  {
    var bs := Batched(msgs);
    forall k | 0 <= k < |bs| ensures Recoverable(p, bs[k]) {
      assert msgs[k] in msgs;
      PackableIsRecoverable(p, msgs[k]);
    }
    BatchRoundTrip(p, bs, trailing);
    NarrowSmall(|msgs|);
    forall k | 0 <= k < |msgs| ensures ItemAt(id, outer, bs[k], k) == ItemOf(id, outer, msgs[k], k) {
      NarrowSmall(k);
    }
  }
}
