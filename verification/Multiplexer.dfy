/**
 The receiving half of a broker connection.

 `Receiver::poll` drains a FIFO queue of registrations and then a FIFO queue of broker frames,
 matching the two in either order through the tables `pending` and `received`, and routing
 consumer traffic through the table `consumers`.  `Step` is the effect of one queue element on
 the tables; the class `Receiver` is the polling loop, proved equal to a fold of `Step`.
 */
module Multiplexer {
  import opened Prelude

  datatype RequestKey =
    | RequestId(id: nat)
    | ProducerSend(producerId: nat, sequenceId: nat)
    | ConsumerKey(consumerId: nat)
    | CloseConsumerKey(consumerId: nat, requestId: nat)

  /** The commands that carry a request id and nothing else the receiver looks at. */
  datatype RequestKind =
    | Subscribe | PartitionMetadata | PartitionMetadataResponse | LookupTopic | LookupTopicResponse
    | Producer | ProducerSuccess | Unsubscribe | Seek | CloseProducer | Success | ErrorReply
    | ConsumerStats | ConsumerStatsResponse | GetLastMessageId | GetLastMessageIdResponse
    | GetTopicsOfNamespace | GetTopicsOfNamespaceResponse | GetSchema | GetSchemaResponse

  datatype SendKind = SendCommand | SendError | SendReceipt

  datatype ConsumerKind =
    | ActiveConsumerChange | TopicMessage | Flow | RedeliverUnacknowledged | ReachedEndOfTopic | Ack

  datatype Command =
    | Ping
    | Pong
    | Connect
    | Connected
    | Keyed(kind: RequestKind, requestId: nat)
    | Publish(sendKind: SendKind, producerId: nat, sequenceId: nat)
    | ToConsumer(consumerKind: ConsumerKind, consumerId: nat)
    | CloseConsumer(closedId: nat, closeRequestId: nat)
    | Unrecognised

  /** `content` stands for every part of the frame that the receiver does not inspect. */
  datatype Message = Message(command: Command, content: nat)

  function KeyOf(m: Message): Option<RequestKey> {
    match m.command
    case Keyed(_, r) => Some(RequestId(r))
    case Publish(_, p, s) => Some(ProducerSend(p, s))
    case ToConsumer(_, c) => Some(ConsumerKey(c))
    case CloseConsumer(c, r) => Some(CloseConsumerKey(c, r))
    case _ => None
  }

  /** The keys under which requests wait for an answer. */
  predicate Answerable(k: RequestKey) {
    k.RequestId? || k.ProducerSend?
  }

  /** Oneshot and mpsc senders, by name. */
  type Resolver = nat
  type Channel = nat

  datatype Register =
    | Request(key: RequestKey, resolver: Resolver)
    | Consumer(consumerId: nat, channel: Channel)
    | PingRequest(resolver: Resolver)

  datatype Tables = Tables(
    pending: map<RequestKey, Resolver>,
    received: map<RequestKey, Message>,
    consumers: map<nat, Channel>,
    ping: Option<Resolver>)

  const EMPTY := Tables(map[], map[], map[], None)

  datatype Input = Registered(reg: Register) | Arrived(msg: Message)

  /** What the outside world sees of one step. */
  datatype Effect =
    | Resolved(resolver: Resolver, answer: Message)
    | Forwarded(channel: Channel, frame: Message)
    | PongSent
    | PingResolved(pinger: Resolver)
    | Dropped(lost: Message)

  function StepRegister(t: Tables, reg: Register): (Tables, seq<Effect>) {
    match reg
    case Request(k, r) =>
      if k in t.received then
        (t.(received := t.received - {k}), [Resolved(r, t.received[k])])
      else
        (t.(pending := t.pending[k := r]), [])
    case Consumer(c, ch) => (t.(consumers := t.consumers[c := ch]), [])
    case PingRequest(r) => (t.(ping := Some(r)), [])
  }

  /** Hand a frame to the channel of a consumer, if there is one. */
  function Route(t: Tables, consumerId: nat, m: Message): seq<Effect> {
    if consumerId in t.consumers then [Forwarded(t.consumers[consumerId], m)] else [Dropped(m)]
  }

  /** An answer goes to the request that waits for it, or is kept until that request registers. */
  function MatchAnswer(t: Tables, k: RequestKey, m: Message): (Tables, seq<Effect>) {
    if k in t.pending then
      (t.(pending := t.pending - {k}), [Resolved(t.pending[k], m)])
    else
      (t.(received := t.received[k := m]), [])
  }

  function CloseNotice(t: Tables, consumerId: nat, requestId: nat, m: Message): (Tables, seq<Effect>) {
    var k := RequestId(requestId);
    if k in t.pending then
      (t.(pending := t.pending - {k}), [Resolved(t.pending[k], m)])
    else
      (t, Route(t, consumerId, m))
  }

  function StepFrame(t: Tables, m: Message): (Tables, seq<Effect>) {
    match m.command
    case Ping => (t, [PongSent])
    case Pong => (t.(ping := None), if t.ping.Some? then [PingResolved(t.ping.value)] else [])
    case Keyed(_, r) => MatchAnswer(t, RequestId(r), m)
    case Publish(_, p, s) => MatchAnswer(t, ProducerSend(p, s), m)
    case ToConsumer(_, c) => (t, Route(t, c, m))
    case CloseConsumer(c, r) => CloseNotice(t, c, r, m)
    case _ => (t, [Dropped(m)])
  }

  function Step(t: Tables, i: Input): (Tables, seq<Effect>) {
    match i
    case Registered(reg) => StepRegister(t, reg)
    case Arrived(m) => StepFrame(t, m)
  }

  /** Tables and effects after a whole trace. */
  function Run(t: Tables, trace: seq<Input>): (Tables, seq<Effect>) {
    if trace == [] then (t, [])
    else
      var (t1, e1) := Run(t, Front(trace));
      var (t2, e2) := Step(t1, Last(trace));
      (t2, e1 + e2)
  }

  function TablesAfter(trace: seq<Input>): Tables {
    Run(EMPTY, trace).0
  }

  function EffectsOf(trace: seq<Input>): seq<Effect> {
    Run(EMPTY, trace).1
  }

  lemma RunSnoc(t: Tables, trace: seq<Input>, i: Input)
    ensures Run(t, trace + [i]) ==
            var (t1, e1) := Run(t, trace);
            var (t2, e2) := Step(t1, i);
            (t2, e1 + e2)
  {
  }

  lemma {:induction false} RunAppend(t: Tables, a: seq<Input>, b: seq<Input>)
    ensures Run(t, a + b) ==
            var (t1, e1) := Run(t, a);
            var (t2, e2) := Run(t1, b);
            (t2, e1 + e2)
  {
    if b == [] {
      assert a + b == a;
      assert Run(t, a).1 + [] == Run(t, a).1;
    } else {
      assert a + b == (a + Front(b)) + [Last(b)];
      RunAppend(t, a, Front(b));
      RunSnoc(t, a + Front(b), Last(b));
      var (t1, e1) := Run(t, a);
      var (t2, e2) := Run(t1, Front(b));
      var (t3, e3) := Step(t2, Last(b));
      assert (e1 + e2) + e3 == e1 + (e2 + e3);
    }
  }

  /**
   No key is ever waiting on both sides, whatever the trace: a registration leaves `received`
   without its key, an answer leaves `pending` without its key.
   */
  lemma {:induction false} NeverWaitingOnBothSides(trace: seq<Input>)
    ensures TablesAfter(trace).pending.Keys !! TablesAfter(trace).received.Keys
  {
    if trace == [] {
    } else {
      NeverWaitingOnBothSides(Front(trace));
      var t := TablesAfter(Front(trace));
      var t' := TablesAfter(trace);
      forall k | k in t'.pending ensures k !in t'.received {
        assert k in t.pending || Last(trace).Registered?;
      }
    }
  }

  datatype PollResult = Pending | Stopped

  datatype ConnectionError = Disconnected | Broken(code: nat)

  /** Why a queue stopped producing elements for the current poll. */
  datatype InboundEnd = NothingYet | EndOfStream | Failure(code: nat)

  function Registrations(regs: seq<Register>): (inputs: seq<Input>)
    ensures |inputs| == |regs|
    ensures forall i :: 0 <= i < |regs| ==> inputs[i] == Registered(regs[i])
  {
    seq(|regs|, i requires 0 <= i < |regs| => Registered(regs[i]))
  }

  function Arrivals(frames: seq<Message>): (inputs: seq<Input>)
    ensures |inputs| == |frames|
    ensures forall i :: 0 <= i < |frames| ==> inputs[i] == Arrived(frames[i])
  {
    seq(|frames|, i requires 0 <= i < |frames| => Arrived(frames[i]))
  }

  class Receiver {
    var pendingRequests: map<RequestKey, Resolver>
    var receivedMessages: map<RequestKey, Message>
    var consumers: map<nat, Channel>
    var ping: Option<Resolver>
    var error: Option<ConnectionError>
    /** Everything sent on resolvers, consumer channels and the outbound queue, in order. */
    var effects: seq<Effect>

    ghost function View(): Tables
      reads this
    {
      Tables(pendingRequests, receivedMessages, consumers, ping)
    }

    constructor ()
      ensures View() == EMPTY && effects == [] && error == None
    {
      pendingRequests, receivedMessages, consumers := map[], map[], map[];
      ping, error, effects := None, None, [];
    }

    method TakeRegistration(reg: Register)
      modifies this
      ensures View() == StepRegister(old(View()), reg).0
      ensures effects == old(effects) + StepRegister(old(View()), reg).1
      ensures error == old(error)
    {
      match reg
      case Request(key, resolver) =>
        if key in receivedMessages {
          effects := effects + [Resolved(resolver, receivedMessages[key])];
          receivedMessages := receivedMessages - {key};
        } else {
          pendingRequests := pendingRequests[key := resolver];
        }
      case Consumer(id, channel) =>
        consumers := consumers[id := channel];
      case PingRequest(resolver) =>
        ping := Some(resolver);
    }

    method TakeAnswer(key: RequestKey, msg: Message)
      requires KeyOf(msg) == Some(key) && Answerable(key)
      modifies this
      ensures View() == StepFrame(old(View()), msg).0
      ensures effects == old(effects) + StepFrame(old(View()), msg).1
      ensures error == old(error)
    {
      if key in pendingRequests {
        effects := effects + [Resolved(pendingRequests[key], msg)];
        pendingRequests := pendingRequests - {key};
      } else {
        receivedMessages := receivedMessages[key := msg];
      }
    }

    method TakeFrame(msg: Message)
      modifies this
      ensures View() == StepFrame(old(View()), msg).0
      ensures effects == old(effects) + StepFrame(old(View()), msg).1
      ensures error == old(error)
    {
      if msg.command.Ping? {
        effects := effects + [PongSent];
        return;
      }
      if msg.command.Pong? {
        if ping.Some? {
          effects := effects + [PingResolved(ping.value)];
          ping := None;
        }
        return;
      }
      match KeyOf(msg)
      case Some(RequestId(_)) => TakeAnswer(KeyOf(msg).value, msg);
      case Some(ProducerSend(_, _)) => TakeAnswer(KeyOf(msg).value, msg);
      case Some(ConsumerKey(id)) =>
        effects := effects + [if id in consumers then Forwarded(consumers[id], msg) else Dropped(msg)];
      case Some(CloseConsumerKey(id, requestId)) =>
        var key := RequestId(requestId);
        if key in pendingRequests {
          effects := effects + [Resolved(pendingRequests[key], msg)];
          pendingRequests := pendingRequests - {key};
        } else {
          effects := effects + [if id in consumers then Forwarded(consumers[id], msg) else Dropped(msg)];
        }
      case None =>
        effects := effects + [Dropped(msg)];
    }

    method TakeRegistrations(regs: seq<Register>)
      modifies this
      ensures View() == Run(old(View()), Registrations(regs)).0
      ensures effects == old(effects) + Run(old(View()), Registrations(regs)).1
      ensures error == old(error)
    {
      ghost var start, before, inputs := View(), effects, Registrations(regs);
      for i := 0 to |regs|
        invariant View() == Run(start, inputs[..i]).0
        invariant effects == before + Run(start, inputs[..i]).1
        invariant error == old(error)
      {
        TakeRegistration(regs[i]);
        assert inputs[..i + 1] == inputs[..i] + [inputs[i]];
        RunSnoc(start, inputs[..i], inputs[i]);
      }
      assert inputs[..|regs|] == inputs;
    }

    method TakeFrames(frames: seq<Message>)
      modifies this
      ensures View() == Run(old(View()), Arrivals(frames)).0
      ensures effects == old(effects) + Run(old(View()), Arrivals(frames)).1
      ensures error == old(error)
    {
      ghost var start, before, inputs := View(), effects, Arrivals(frames);
      for i := 0 to |frames|
        invariant View() == Run(start, inputs[..i]).0
        invariant effects == before + Run(start, inputs[..i]).1
        invariant error == old(error)
      {
        TakeFrame(frames[i]);
        assert inputs[..i + 1] == inputs[..i] + [inputs[i]];
        RunSnoc(start, inputs[..i], inputs[i]);
      }
      assert inputs[..|frames|] == inputs;
    }

    /**
     One poll: all queued registrations are taken before the first frame.  The arguments are what
     the shutdown signal and the two queues yield during this poll.
     */
    method Poll(shutdown: bool, regs: seq<Register>, registrationsClosed: bool,
                frames: seq<Message>, end: InboundEnd) returns (result: PollResult)
      modifies this
      ensures shutdown ==> result == Stopped && View() == old(View()) && effects == old(effects) && error == old(error)
      ensures !shutdown && registrationsClosed ==>
                && View() == Run(old(View()), Registrations(regs)).0
                && effects == old(effects) + Run(old(View()), Registrations(regs)).1
                && result == Stopped && error == Some(Disconnected)
      ensures !shutdown && !registrationsClosed ==>
                var all := Registrations(regs) + Arrivals(frames);
                && View() == Run(old(View()), all).0
                && effects == old(effects) + Run(old(View()), all).1
                && (result == Pending <==> end == NothingYet)
                && error == (match end
                             case NothingYet => old(error)
                             case EndOfStream => Some(Disconnected)
                             case Failure(e) => Some(Broken(e)))
    {
      if shutdown {
        return Stopped;
      }
      TakeRegistrations(regs);
      if registrationsClosed {
        error := Some(Disconnected);
        return Stopped;
      }
      TakeFrames(frames);
      RunAppend(old(View()), Registrations(regs), Arrivals(frames));
      match end
      case NothingYet => result := Pending;
      case EndOfStream => error := Some(Disconnected); result := Stopped;
      case Failure(e) => error := Some(Broken(e)); result := Stopped;
    }
  }
}
