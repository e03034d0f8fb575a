/**
 A producer for one topic: queueing into batches, flushing, fanning receipts out, and retrying a
 failed send once over a fresh connection.

 Payload compression is not modelled: a message is sent as it was built.
 */
module Producer {
  import opened Prelude
  import opened Wire
  import opened BatchCodec
  import Multiplexer

  type Resolver = nat

  type Frame = Multiplexer.Message

  datatype Queued = Queued(tx: Resolver, message: ProducerMessage)

  datatype Outgoing =
    | Plain(message: ProducerMessage)
    | Batch(payload: seq<byte>, count: int)

  /** How one `ConnectionSender::send` ends. */
  datatype Outcome = Answered(frame: Frame) | Disconnected | TimedOut | OtherIo

  datatype SendError = Refused(frame: Frame) | Broken | ReconnectError

  type SendResult = Result<Frame, SendError>

  /**
   How a reconnect ends; it may fail after the connection was already replaced.  The connection it
   got from the manager is any one, often the very one in use: a time-out leaves that one valid.
   */
  datatype Reopening = Reopened(connection: nat) | FailedEarly | FailedLate(connection: nat)

  /** What the network does during one send. */
  datatype Luck = Luck(first: Outcome, reopening: Reopening, second: Outcome)

  datatype Attempt = Attempt(sequenceId: nat, connection: nat, send: nat, outcome: Outcome)

  datatype Flush = Flush(batch: seq<Queued>, outgoing: Outgoing, result: SendResult)

  datatype State = State(
    batchSize: Option<nat>,
    queue: Option<seq<Queued>>,
    nextSequence: nat,
    connection: nat,
    results: seq<SendResult>,                 // what every call of `send_inner` returned
    attempts: seq<Attempt>,                   // every command put on a connection
    flushes: seq<Flush>,                      // every batch handed to `send_inner`
    discarded: seq<Queued>,                   // messages in a queue that a reconnect replaced
    resolved: seq<(Resolver, SendResult)>)    // every receipt future completed

  function Fresh(batchSize: Option<nat>): State {
    State(batchSize, if batchSize.Some? then Some([]) else None, 0, 0, [], [], [], [], [])
  }

  /** Only a send receipt counts as an answer. */
  function Extract(f: Frame): SendResult {
    if f.command.Publish? && f.command.sendKind == Multiplexer.SendReceipt then Ok(f) else Err(Refused(f))
  }

  function Attempted(s: State, o: Outcome): State {
    s.(nextSequence := s.nextSequence + 1,
       attempts := s.attempts + [Attempt(s.nextSequence, s.connection, |s.results|, o)])
  }

  /** A reconnect that succeeds starts an empty batch. */
  function ReconnectSpec(s: State, r: Reopening): State {
    match r
    case Reopened(connection) =>
      s.(connection := connection, queue := if s.batchSize.Some? then Some([]) else None,
         discarded := s.discarded + if s.queue.Some? then s.queue.value else [])
    case FailedEarly => s
    case FailedLate(connection) => s.(connection := connection)
  }

  function Finished(s: State, r: SendResult): (State, SendResult) {
    (s.(results := s.results + [r]), r)
  }

  function SendSpec(s: State, luck: Luck): (State, SendResult) {
    var s1 := Attempted(s, luck.first);
    match luck.first
    case Answered(f) => Finished(s1, Extract(f))
    case OtherIo => Finished(s1, Err(Broken))
    case _ =>
      var s2 := ReconnectSpec(s1, luck.reopening);
      if !luck.reopening.Reopened? then Finished(s2, Err(ReconnectError))
      else
        var s3 := Attempted(s2, luck.second);
        match luck.second
        case Answered(f) => Finished(s3, Extract(f))
        case _ => Finished(s3, Err(Broken))
  }

  function Messages(qs: seq<Queued>): (ms: seq<ProducerMessage>)
    ensures |ms| == |qs|
    ensures forall i :: 0 <= i < |qs| ==> ms[i] == qs[i].message
  {
    seq(|qs|, i requires 0 <= i < |qs| => qs[i].message)
  }

  function Resolutions(qs: seq<Queued>, r: SendResult): (rs: seq<(Resolver, SendResult)>)
    ensures |rs| == |qs|
    ensures forall i :: 0 <= i < |qs| ==> rs[i] == (qs[i].tx, r)
  {
    seq(|qs|, i requires 0 <= i < |qs| => (qs[i].tx, r))
  }

  function Packed(p: Single, qs: seq<Queued>): Outgoing {
    Batch(SerializedAll(p, Batched(Messages(qs))), AsI32(|qs|))
  }

  /** Send a drained batch and give its result to every resolver in it. */
  function FlushSpec(p: Single, s: State, qs: seq<Queued>, luck: Luck): State {
    if qs == [] then s
    else
      var (s1, r) := SendSpec(s, luck);
      s1.(flushes := s1.flushes + [Flush(qs, Packed(p, qs), r)], resolved := s1.resolved + Resolutions(qs, r))
  }

  datatype Call = SendRaw(tx: Resolver, message: ProducerMessage, luck: Luck) | SendBatch(luck: Luck)

  function CallSpec(p: Single, s: State, c: Call): State {
    match c
    case SendRaw(tx, m, luck) =>
      if s.queue.None? then
        var (s1, r) := SendSpec(s, luck);
        if r.Ok? then s1.(resolved := s1.resolved + [(tx, r)]) else s1
      else
        var qs := s.queue.value + [Queued(tx, m)];
        if s.batchSize.Some? && |qs| < s.batchSize.value then s.(queue := Some(qs))
        else FlushSpec(p, s.(queue := Some([])), qs, luck)
    case SendBatch(luck) =>
      if s.queue.None? then s else FlushSpec(p, s.(queue := Some([])), s.queue.value, luck)
  }

  function After(p: Single, batchSize: Option<nat>, calls: seq<Call>): State {
    if calls == [] then Fresh(batchSize) else CallSpec(p, After(p, batchSize, Front(calls)), Last(calls))
  }

  datatype Reply = Done | NotBatching | Failed(error: SendError)

  class TopicProducer {
    const codec: Single
    const batchSize: Option<nat>
    var batch: Option<seq<Queued>>
    var messageId: nat
    var connection: nat
    var results: seq<SendResult>
    var attempts: seq<Attempt>
    var flushes: seq<Flush>
    var discarded: seq<Queued>
    var resolved: seq<(Resolver, SendResult)>

    ghost function View(): State
      reads this
    {
      State(batchSize, batch, messageId, connection, results, attempts, flushes, discarded, resolved)
    }

    constructor (p: Single, size: Option<nat>)
      ensures codec == p && View() == Fresh(size)
    {
      codec, batchSize := p, size;
      batch := if size.Some? then Some([]) else None;
      messageId, connection, results, attempts, flushes, discarded, resolved := 0, 0, [], [], [], [], [];
    }

    /** `SerialId::get` followed by the command on the wire. */
    method TrySend(o: Outcome)
      modifies this`messageId, this`attempts
      ensures View() == Attempted(old(View()), o)
    {
      var id := messageId;
      messageId := messageId + 1;
      attempts := attempts + [Attempt(id, connection, |results|, o)];
    }

    method Reconnect(r: Reopening)
      modifies this`connection, this`batch, this`discarded
      ensures View() == ReconnectSpec(old(View()), r)
    {
      if !r.FailedEarly? {
        connection := r.connection;
      }
      if r.Reopened? {
        discarded := discarded + if batch.Some? then batch.value else [];
        batch := if batchSize.Some? then Some([]) else None;
      }
    }

    method SendInner(luck: Luck) returns (r: SendResult)
      modifies this
      ensures (View(), r) == SendSpec(old(View()), luck)
    {
      TrySend(luck.first);
      if luck.first.Answered? {
        r := Extract(luck.first.frame);
      } else if luck.first.OtherIo? {
        r := Err(Broken);
      } else {
        Reconnect(luck.reopening);
        if !luck.reopening.Reopened? {
          r := Err(ReconnectError);
        } else {
          TrySend(luck.second);
          r := if luck.second.Answered? then Extract(luck.second.frame) else Err(Broken);
        }
      }
      results := results + [r];
    }

    /** `get_messages` and the loop that serializes them. */
    method Drain() returns (messages: seq<Queued>, receipts: seq<Resolver>, payload: seq<byte>)
      requires batch.Some?
      modifies this`batch
      ensures batch == Some([]) && messages == old(batch).value && |receipts| == |messages|
      ensures forall k :: 0 <= k < |receipts| ==> receipts[k] == messages[k].tx
      ensures payload == SerializedAll(codec, Batched(Messages(messages)))
    {
      messages := batch.value;
      batch := Some([]);
      payload, receipts := [], [];
      ghost var bs := Batched(Messages(messages));
      for i := 0 to |messages|
        invariant |receipts| == i && forall k :: 0 <= k < i ==> receipts[k] == messages[k].tx
        invariant payload == SerializedAll(codec, bs[..i])
      {
        receipts := receipts + [messages[i].tx];
        assert Front(bs[..i + 1]) == bs[..i];
        payload := payload + Serialized(codec, ToBatched(messages[i].message));
      }
      assert bs[..|messages|] == bs;
    }

    /** Every drained resolver is given the result of the batch. */
    method Answer(ghost messages: seq<Queued>, receipts: seq<Resolver>, r: SendResult)
      requires |receipts| == |messages| && forall k :: 0 <= k < |receipts| ==> receipts[k] == messages[k].tx
      modifies this`resolved
      ensures resolved == old(resolved) + Resolutions(messages, r)
    {
      ghost var all := Resolutions(messages, r);
      for i := 0 to |receipts|
        invariant resolved == old(resolved) + all[..i]
      {
        resolved := resolved + [(receipts[i], r)];
        assert all[..i + 1] == all[..i] + [(receipts[i], r)];
      }
      assert all[..|receipts|] == all;
    }

    /** Drain the queue into one payload, send it, and answer every drained resolver. */
    method FlushQueue(luck: Luck)
      requires batch.Some?
      modifies this
      ensures View() == FlushSpec(codec, old(View()).(queue := Some([])), old(batch).value, luck)
    {
      var messages, receipts, payload := Drain();
      if |messages| == 0 {
        return;
      }
      var outgoing := Batch(payload, AsI32(|messages|));
      var r := SendInner(luck);
      Answer(messages, receipts, r);
      flushes := flushes + [Flush(messages, outgoing, r)];
    }

    method SendRaw(tx: Resolver, message: ProducerMessage, luck: Luck) returns (reply: Reply)
      requires batch.Some? <==> batchSize.Some?
      modifies this
      ensures View() == CallSpec(codec, old(View()), Call.SendRaw(tx, message, luck))
      ensures reply == (if old(batch).None? && SendSpec(old(View()), luck).1.Err?
                        then Failed(SendSpec(old(View()), luck).1.error) else Done)
    {
      if batch.None? {
        var r := SendInner(luck);
        if r.Err? {
          return Failed(r.error);
        }
        resolved := resolved + [(tx, r)];
        return Done;
      }
      batch := Some(batch.value + [Queued(tx, message)]);
      if |batch.value| >= batchSize.value {
        FlushQueue(luck);
      }
      return Done;
    }

    method SendBatch(luck: Luck) returns (reply: Reply)
      modifies this
      ensures View() == CallSpec(codec, old(View()), Call.SendBatch(luck))
      ensures reply == if old(batch).None? then NotBatching else Done
    {
      if batch.None? {
        return NotBatching;
      }
      FlushQueue(luck);
      return Done;
    }
  }

  /** The messages accepted so far, in order. */
  function Accepted(calls: seq<Call>): seq<Queued> {
    if calls == [] then []
    else Accepted(Front(calls)) + if Last(calls).SendRaw? then [Queued(Last(calls).tx, Last(calls).message)] else []
  }

  function Flushed(fs: seq<Flush>): seq<Queued> {
    if fs == [] then [] else Flushed(Front(fs)) + Last(fs).batch
  }

  /** Every flushed message paired with the result of its own batch. */
  function Owed(fs: seq<Flush>): seq<(Resolver, SendResult)> {
    if fs == [] then [] else Owed(Front(fs)) + Resolutions(Last(fs).batch, Last(fs).result)
  }

  /** What sending each batch returned. */
  function ResultsOf(fs: seq<Flush>): seq<SendResult> {
    if fs == [] then [] else ResultsOf(Front(fs)) + [Last(fs).result]
  }

  /** Each batch was sent with its own messages and their number. */
  ghost predicate WellPacked(p: Single, f: Flush) {
    f.outgoing == Packed(p, f.batch)
  }

  ghost predicate AllPacked(p: Single, fs: seq<Flush>) {
    forall i :: 0 <= i < |fs| ==> WellPacked(p, fs[i])
  }

  ghost predicate Inv(p: Single, n: nat, s: State, accepted: seq<Queued>) {
    && s.batchSize == Some(n) && s.queue.Some?
    && Flushed(s.flushes) + s.queue.value == accepted
    && s.resolved == Owed(s.flushes)
    && s.discarded == []
    && |s.queue.value| < Max(1, n)
    && AllPacked(p, s.flushes)
    && s.results == ResultsOf(s.flushes)
  }

  lemma SendKeeps(s: State, luck: Luck)
    requires s.batchSize.Some? ==> s.queue == Some([])
    ensures var s' := SendSpec(s, luck).0;
            && s'.batchSize == s.batchSize && s'.flushes == s.flushes && s'.resolved == s.resolved
            && s'.results == s.results + [SendSpec(s, luck).1]
            && (s.batchSize.Some? ==> s'.queue == Some([]) && s'.discarded == s.discarded)
  {
  }

  lemma AllPackedSnoc(p: Single, fs: seq<Flush>, f: Flush)
    requires AllPacked(p, fs) && WellPacked(p, f)
    ensures AllPacked(p, fs + [f])
  {
  }

  lemma FlushBooked(p: Single, n: nat, s: State, f: Flush, accepted: seq<Queued>)
    requires s.batchSize == Some(n) && s.queue == Some([]) && s.discarded == []
    requires Flushed(s.flushes) + f.batch == accepted && s.resolved == Owed(s.flushes)
    requires AllPacked(p, s.flushes + [f]) && s.results == ResultsOf(s.flushes) + [f.result]
    ensures Inv(p, n, s.(flushes := s.flushes + [f], resolved := s.resolved + Resolutions(f.batch, f.result)), accepted)
  {
  }

  lemma FlushKept(p: Single, n: nat, s: State, qs: seq<Queued>, luck: Luck, accepted: seq<Queued>)
    requires s.batchSize == Some(n) && s.queue == Some([]) && s.discarded == []
    requires Flushed(s.flushes) + qs == accepted && s.resolved == Owed(s.flushes)
    requires AllPacked(p, s.flushes) && s.results == ResultsOf(s.flushes)
    ensures Inv(p, n, FlushSpec(p, s, qs, luck), accepted)
  {
    if qs != [] {
      SendKeeps(s, luck);
      var f := Flush(qs, Packed(p, qs), SendSpec(s, luck).1);
      AllPackedSnoc(p, s.flushes, f);
      FlushBooked(p, n, SendSpec(s, luck).0, f, accepted);
    }
  }

  lemma CallKept(p: Single, n: nat, s: State, c: Call, accepted: seq<Queued>)
    requires Inv(p, n, s, accepted)
    ensures Inv(p, n, CallSpec(p, s, c), accepted + if c.SendRaw? then [Queued(c.tx, c.message)] else [])
  {
    var more := if c.SendRaw? then [Queued(c.tx, c.message)] else [];
    var qs := s.queue.value + more;
    assert Flushed(s.flushes) + qs == accepted + more;
    if c.SendBatch? {
      assert qs == s.queue.value && accepted + more == accepted;
      FlushKept(p, n, s.(queue := Some([])), qs, c.luck, accepted);
    } else if |qs| >= n {
      FlushKept(p, n, s.(queue := Some([])), qs, c.luck, accepted + more);
    }
  }

  /**
   Over any calls with any outcomes, reconnects included: the flushed batches followed by the queue
   are exactly the messages accepted, in order; every flushed resolver got the result of its own
   batch, once; every batch carries its messages and their count; the n-th batch was the n-th send;
   the queue stays short; and no reconnect ever replaced a queue that still held a message.
   */
  lemma {:induction false} BatchingConserves(p: Single, n: nat, calls: seq<Call>)
    ensures var s := After(p, Some(n), calls);
            && s.queue.Some?
            && Flushed(s.flushes) + s.queue.value == Accepted(calls)
            && s.resolved == Owed(s.flushes)
            && s.discarded == []
            && |s.queue.value| < Max(1, n)
            && AllPacked(p, s.flushes)
            && s.results == ResultsOf(s.flushes)
    ensures Inv(p, n, After(p, Some(n), calls), Accepted(calls))
  {
    if calls == [] {
    } else {
      BatchingConserves(p, n, Front(calls));
      CallKept(p, n, After(p, Some(n), Front(calls)), Last(calls), Accepted(Front(calls)));
    }
  }

  lemma {:induction false} OwedFollowsFlushed(fs: seq<Flush>)
    ensures |Owed(fs)| == |Flushed(fs)|
    ensures forall i :: 0 <= i < |Owed(fs)| ==> Owed(fs)[i].0 == Flushed(fs)[i].tx
  {
    if fs == [] {
    } else {
      OwedFollowsFlushed(Front(fs));
    }
  }

  /** The resolvers answered, in order, are the first of those accepted. */
  lemma ResolversAnsweredInOrder(p: Single, n: nat, calls: seq<Call>, i: nat)
    requires i < |After(p, Some(n), calls).resolved|
    ensures i < |Accepted(calls)| && After(p, Some(n), calls).resolved[i].0 == Accepted(calls)[i].tx
  {
    BatchingConserves(p, n, calls);
    OwedFollowsFlushed(After(p, Some(n), calls).flushes);
    var s := After(p, Some(n), calls);
    assert Accepted(calls)[i] == Flushed(s.flushes)[i];
  }

  /** Whatever batch the producer ever sent, the consumer unpacks it into the messages that went in. */
  lemma EveryFlushUnpacks(p: Single, n: nat, calls: seq<Call>, i: nat, id: MessageId, outer: Metadata)
    requires Lawful(p) && i < |After(p, Some(n), calls).flushes|
    requires var f := After(p, Some(n), calls).flushes[i];
             && f.outgoing.Batch? && outer.numMessagesInBatch == Some(f.outgoing.count)
             && |f.batch| < TWO_31
             && (forall q :: q in f.batch ==> Packable(p, q.message))
    ensures var f := After(p, Some(n), calls).flushes[i];
            var items := Unpacked(p, id, Payload(outer, f.outgoing.payload));
            && items.Some? && |items.value| == |f.batch|
            && forall k :: 0 <= k < |f.batch| ==> items.value[k] == ItemOf(id, outer, f.batch[k].message, k)
  {
    BatchingConserves(p, n, calls);
    var f := After(p, Some(n), calls).flushes[i];
    var ms := Messages(f.batch);
    forall m | m in ms ensures Packable(p, m) {
      var k :| 0 <= k < |ms| && ms[k] == m;
      assert f.batch[k] in f.batch;
    }
    assert WellPacked(p, f);
    assert f.outgoing.payload + [] == f.outgoing.payload;
    PipelineRoundTrip(p, ms, [], id, outer);
  }
}
