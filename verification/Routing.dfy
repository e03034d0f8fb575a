/**
 What a receiver does, told from its inputs alone.

 For each request key the two tables act as one slot that is empty, holds a waiting resolver or
 holds an answer come too early; for each consumer id the last channel registered counts; for pings
 the last one registered since the last Pong.  Every effect of every trace follows from these.
 */
module Routing {
  import opened Prelude
  import opened Multiplexer

  /** The slot of one request key. */
  datatype Slot = Empty | Waiting(resolver: Resolver) | Early(answer: Message)

  /** The frame answers requests under `k`. */
  predicate AnswersKey(m: Message, k: RequestKey) {
    match k
    case RequestId(id) => m.command.Keyed? && m.command.requestId == id
    case ProducerSend(p, s) => m.command.Publish? && m.command.producerId == p && m.command.sequenceId == s
    case _ => false
  }

  predicate NoticeUnder(m: Message, k: RequestKey) {
    m.command.CloseConsumer? && k == RequestId(m.command.closeRequestId)
  }

  function SlotNext(slot: Slot, i: Input, k: RequestKey): Slot {
    match i
    case Registered(Request(key, r)) =>
      if key != k then slot else if slot.Early? then Empty else Waiting(r)
    case Arrived(m) =>
      if AnswersKey(m, k) then (if slot.Waiting? then Empty else Early(m))
      else if NoticeUnder(m, k) && slot.Waiting? then Empty
      else slot
    case _ => slot
  }

  function SlotAfter(trace: seq<Input>, k: RequestKey): Slot {
    if trace == [] then Empty else SlotNext(SlotAfter(Front(trace), k), Last(trace), k)
  }

  /** The channel of the last registration of a consumer id. */
  function LastChannel(trace: seq<Input>, c: nat): Option<Channel> {
    if trace == [] then None
    else match Last(trace)
      case Registered(Consumer(id, ch)) => if id == c then Some(ch) else LastChannel(Front(trace), c)
      case _ => LastChannel(Front(trace), c)
  }

  /** The last ping registered since the last Pong. */
  function PingWaiting(trace: seq<Input>): Option<Resolver> {
    if trace == [] then None
    else match Last(trace)
      case Registered(PingRequest(r)) => Some(r)
      case Arrived(Message(Pong, _)) => None
      case _ => PingWaiting(Front(trace))
  }

  /** The slot as the two tables hold it. */
  function SlotIn(t: Tables, k: RequestKey): Slot {
    if k in t.pending then Waiting(t.pending[k]) else if k in t.received then Early(t.received[k]) else Empty
  }

  function ChannelIn(t: Tables, c: nat): Option<Channel> {
    if c in t.consumers then Some(t.consumers[c]) else None
  }

  lemma RegisterMovesSlot(t: Tables, reg: Register, k: RequestKey)
    requires k !in t.pending || k !in t.received
    ensures var t' := StepRegister(t, reg).0;
            && SlotIn(t', k) == SlotNext(SlotIn(t, k), Registered(reg), k)
            && (k !in t'.pending || k !in t'.received)
  {
  }

  lemma FrameMovesSlot(t: Tables, m: Message, k: RequestKey)
    requires k !in t.pending || k !in t.received
    ensures var t' := StepFrame(t, m).0;
            && SlotIn(t', k) == SlotNext(SlotIn(t, k), Arrived(m), k)
            && (k !in t'.pending || k !in t'.received)
  {
  }

  /** After every trace the tables hold for each key what the inputs under that key say. */
  lemma {:induction false} SlotsFollowInputs(trace: seq<Input>, k: RequestKey)
    ensures SlotIn(TablesAfter(trace), k) == SlotAfter(trace, k)
    ensures k !in TablesAfter(trace).pending || k !in TablesAfter(trace).received
  {
    if trace == [] {
    } else {
      SlotsFollowInputs(Front(trace), k);
      var t := TablesAfter(Front(trace));
      match Last(trace)
      case Registered(reg) => RegisterMovesSlot(t, reg, k);
      case Arrived(m) => FrameMovesSlot(t, m, k);
    }
  }

  /** And the channels and the ping slot. */
  lemma {:induction false} ChannelsFollowInputs(trace: seq<Input>, c: nat)
    ensures ChannelIn(TablesAfter(trace), c) == LastChannel(trace, c)
    ensures TablesAfter(trace).ping == PingWaiting(trace)
  {
    if trace == [] {
    } else {
      ChannelsFollowInputs(Front(trace), c);
    }
  }

  /** Consumer traffic goes to the channel, if there is one. */
  function Routed(channel: Option<Channel>, m: Message): Effect {
    if channel.Some? then Forwarded(channel.value, m) else Dropped(m)
  }

  function Answered(slot: Slot, m: Message): seq<Effect> {
    if slot.Waiting? then [Resolved(slot.resolver, m)] else []
  }

  /** What an input leads to, after the inputs before it. */
  function Expected(trace: seq<Input>, i: Input): seq<Effect> {
    match i
    case Registered(Request(k, r)) =>
      if SlotAfter(trace, k).Early? then [Resolved(r, SlotAfter(trace, k).answer)] else []
    case Registered(_) => []
    case Arrived(m) =>
      match m.command
      case Ping => [PongSent]
      case Pong => if PingWaiting(trace).Some? then [PingResolved(PingWaiting(trace).value)] else []
      case Keyed(_, id) => Answered(SlotAfter(trace, RequestId(id)), m)
      case Publish(_, p, s) => Answered(SlotAfter(trace, ProducerSend(p, s)), m)
      case ToConsumer(_, c) => [Routed(LastChannel(trace, c), m)]
      case CloseConsumer(c, id) =>
        if SlotAfter(trace, RequestId(id)).Waiting? then Answered(SlotAfter(trace, RequestId(id)), m)
        else [Routed(LastChannel(trace, c), m)]
      case Connect => [Dropped(m)]
      case Connected => [Dropped(m)]
      case Unrecognised => [Dropped(m)]
  }

  lemma RegisterExpected(trace: seq<Input>, reg: Register)
    ensures StepRegister(TablesAfter(trace), reg).1 == Expected(trace, Registered(reg))
  {
    if reg.Request? {
      SlotsFollowInputs(trace, reg.key);
    }
  }

  lemma FrameExpected(trace: seq<Input>, m: Message)
    ensures StepFrame(TablesAfter(trace), m).1 == Expected(trace, Arrived(m))
  {
    ChannelsFollowInputs(trace, 0);
    match m.command
    case Keyed(_, id) => SlotsFollowInputs(trace, RequestId(id));
    case Publish(_, p, s) => SlotsFollowInputs(trace, ProducerSend(p, s));
    case ToConsumer(_, c) => ChannelsFollowInputs(trace, c);
    case CloseConsumer(c, id) =>
      SlotsFollowInputs(trace, RequestId(id));
      ChannelsFollowInputs(trace, c);
    case _ =>
  }

  /** Over every trace, each input adds exactly the effects that the inputs before it call for. */
  lemma EffectsFollowInputs(trace: seq<Input>, i: Input)
    ensures EffectsOf(trace + [i]) == EffectsOf(trace) + Expected(trace, i)
  {
    RunSnoc(EMPTY, trace, i);
    match i
    case Registered(reg) => RegisterExpected(trace, reg);
    case Arrived(m) => FrameExpected(trace, m);
  }

  /** A close notice that meets no request, like any frame for a consumer, goes to its newest channel. */
  lemma ConsumerTrafficIsRouted(trace: seq<Input>, m: Message)
    requires m.command.ToConsumer? ||
             (m.command.CloseConsumer? && !SlotAfter(trace, RequestId(m.command.closeRequestId)).Waiting?)
    ensures var c := if m.command.ToConsumer? then m.command.consumerId else m.command.closedId;
            EffectsOf(trace + [Arrived(m)]) == EffectsOf(trace) +
              if LastChannel(trace, c).Some? then [Forwarded(LastChannel(trace, c).value, m)] else [Dropped(m)]
  {
    EffectsFollowInputs(trace, Arrived(m));
  }

  function Pongs(effects: seq<Effect>): nat {
    if effects == [] then 0 else Pongs(Front(effects)) + if Last(effects) == PongSent then 1 else 0
  }

  function Pings(trace: seq<Input>): nat {
    if trace == [] then 0
    else Pings(Front(trace)) + if Last(trace).Arrived? && Last(trace).msg.command == Ping then 1 else 0
  }

  /** The pings completed, in order. */
  function PingsResolved(effects: seq<Effect>): seq<Resolver> {
    if effects == [] then []
    else PingsResolved(Front(effects)) + if Last(effects).PingResolved? then [Last(effects).pinger] else []
  }

  /** For each Pong the ping that waited for it, if there was one. */
  function PingsAnswered(trace: seq<Input>): seq<Resolver> {
    if trace == [] then []
    else
      var waiting := PingWaiting(Front(trace));
      PingsAnswered(Front(trace)) +
      if Last(trace).Arrived? && Last(trace).msg.command == Pong && waiting.Some? then [waiting.value] else []
  }

  lemma AtMostOne(effects: seq<Effect>, more: seq<Effect>)
    requires |more| <= 1
    ensures Pongs(effects + more) == Pongs(effects) + if more == [PongSent] then 1 else 0
    ensures PingsResolved(effects + more) ==
            PingsResolved(effects) + if |more| == 1 && more[0].PingResolved? then [more[0].pinger] else []
  {
    if more == [] {
      assert effects + more == effects;
    } else {
      assert Front(effects + more) == effects;
    }
  }

  /** Where pings and pongs come from. */
  lemma ExpectedPings(trace: seq<Input>, i: Input)
    ensures var e := Expected(trace, i);
            && |e| <= 1
            && (e == [PongSent] <==> i.Arrived? && i.msg.command == Ping)
            && (|e| == 1 && e[0].PingResolved? <==> i.Arrived? && i.msg.command == Pong && PingWaiting(trace).Some?)
            && (|e| == 1 && e[0].PingResolved? ==> Some(e[0].pinger) == PingWaiting(trace))
  {
  }

  lemma PingStep(trace: seq<Input>, i: Input)
    ensures Pongs(EffectsOf(trace + [i])) ==
            Pongs(EffectsOf(trace)) + if i.Arrived? && i.msg.command == Ping then 1 else 0
    ensures PingsResolved(EffectsOf(trace + [i])) ==
            PingsResolved(EffectsOf(trace)) +
            if i.Arrived? && i.msg.command == Pong && PingWaiting(trace).Some? then [PingWaiting(trace).value] else []
  {
    EffectsFollowInputs(trace, i);
    ExpectedPings(trace, i);
    AtMostOne(EffectsOf(trace), Expected(trace, i));
  }

  /** Every Ping is answered by one Pong, and every Pong completes the ping that waited for it. */
  lemma {:induction false} PingsAndPongs(trace: seq<Input>)
    ensures Pongs(EffectsOf(trace)) == Pings(trace)
    ensures PingsResolved(EffectsOf(trace)) == PingsAnswered(trace)
  {
    if trace == [] {
    } else {
      PingsAndPongs(Front(trace));
      assert trace == Front(trace) + [Last(trace)];
      PingStep(Front(trace), Last(trace));
    }
  }
}
