/**
 The engine of a single-topic consumer.

 One pass of its loop repairs the connection, refills the broker's flow permits when fewer than
 half a batch are left, then waits for a frame, a message from the application, or a timer.
 Arithmetic overflow is modelled as with overflow checks enabled: it stops the engine.
 */
module Engine {
  import opened Prelude
  import opened Wire
  import opened BatchCodec

  /** What a consumer channel carries; `readable` is false when decompression fails. */
  datatype Inbound =
    | EndOfTopic
    | ActiveConsumerChange
    | MissingPayload
    | ClosedByBroker
    | Unexpected
    | Topic(id: MessageId, redeliveryCount: Option<nat>, payload: Payload<Metadata>, readable: bool)

  datatype Config = Config(batchSize: nat, delay: Option<nat>, maxRedeliver: Option<nat>, codec: Single)

  datatype Ending = TopicEnded | ChannelLost | ApplicationGone | ConnectionFailed | Overflowed

  datatype Phase = AtTop | AtWait | Ended(why: Ending)

  /** `session` numbers the connection that Flows are sent on, `reading` the one whose channel is read. */
  datatype State = State(
    remaining: nat,
    session: nat,
    reading: nat,
    held: bool,                        // the receiver sits in a future kept from an earlier pass
    unacked: map<MessageId, nat>,
    phase: Phase)

  datatype Effect =
    | Subscribed
    | Unreached                        // a reconnect failed before it replaced the connection
    | Abandoned(live: bool)            // it failed afterwards; `live`: the broker subscribed nevertheless
    | FlowSent(permits: nat)
    | HandedOver(item: Item)
    | AckSent(id: MessageId)
    | RedeliveryAsked(ids: set<MessageId>)

  function Start(c: Config): State {
    State(c.batchSize, 0, 0, false, map[], AtTop)
  }

  /** What a frame takes off `remaining_messages`. */
  function Weight(f: Inbound): nat {
    if f.Topic? && f.payload.metadata.numMessagesInBatch.Some?
    then AsU32(f.payload.metadata.numMessagesInBatch.value)
    else 1
  }

  /**
   How a `reconnect` ends.  The connection is replaced before the subscription is asked for, so a
   refusal, a time-out or a lost first Flow leaves the engine on the new connection, with the new
   channel dropped; the broker may have made the subscription all the same.
   */
  datatype Reopening = Reopened | FailedEarly | FailedLate(live: bool)

  /** After a success the new channel is stored, but a held future keeps the old one. */
  function Reopen(e: State, r: Reopening): State {
    match r
    case Reopened => e.(session := e.session + 1, reading := if e.held then e.reading else e.session + 1)
    case FailedEarly => e
    case FailedLate(_) => e.(session := e.session + 1)
  }

  function ReopenEffects(c: Config, r: Reopening): seq<Effect> {
    match r
    case Reopened => [Subscribed, FlowSent(c.batchSize)]
    case FailedEarly => [Unreached]
    case FailedLate(live) => [Abandoned(live)]
  }

  function Refill(c: Config, e: State): nat {
    Max(0, c.batchSize - e.remaining)
  }

  /** How sending a Flow goes; a disconnection leads to a reconnect and a second Flow. */
  datatype FlowOutcome = FlowOk | FlowDisconnected(reopening: Reopening, again: bool) | FlowError

  function RefillSpec(c: Config, e: State, flow: FlowOutcome): (State, seq<Effect>) {
    if e.remaining >= c.batchSize / 2 then (e.(phase := AtWait), [])
    else match flow
      case FlowOk =>
        (e.(remaining := c.batchSize, phase := AtWait), [FlowSent(Refill(c, e))])
      case FlowDisconnected(r, again) =>
        var e1 := Reopen(e, r);
        if r.Reopened? && again then
          (e1.(remaining := c.batchSize, phase := AtWait), ReopenEffects(c, r) + [FlowSent(Refill(c, e))])
        else
          (e1.(phase := Ended(ConnectionFailed)), ReopenEffects(c, r))
      case FlowError => (e.(phase := Ended(ConnectionFailed)), [])
  }

  /** The first half of a pass: `broken` says that the connection recorded an error. */
  function TopSpec(c: Config, e: State, broken: bool, r: Reopening, flow: FlowOutcome): (State, seq<Effect>) {
    if !broken then RefillSpec(c, e, flow)
    else if !r.Reopened? then (Reopen(e, r).(phase := Ended(ConnectionFailed)), ReopenEffects(c, r))
    else
      var (e1, effects) := RefillSpec(c, Reopen(e, r), flow);
      (e1, ReopenEffects(c, r) + effects)
  }

  /** What processing a frame amounts to. */
  datatype Work =
    | Finish
    | Ignore
    | Renew
    | Hand(items: seq<Item>)
    | DeadLetter(id: MessageId)
    | Complain

  function WorkFor(c: Config, f: Inbound): Work {
    match f
    case EndOfTopic => Finish
    case ActiveConsumerChange => Ignore
    case MissingPayload => Ignore
    case Unexpected => Ignore
    case ClosedByBroker => Renew
    case Topic(id, redelivered, payload, readable) =>
      if !readable then Complain
      else if payload.metadata.numMessagesInBatch.Some? then
        match Unpacked(c.codec, id, payload)
        case None => Complain
        case Some(items) => Hand(items)
      else if redelivered.Some? && c.maxRedeliver.Some? && redelivered.value >= c.maxRedeliver.value then
        DeadLetter(id)
      else Hand([(id, payload)])
  }

  /** The table after handing over items at the given times; without a delay nothing is tracked. */
  function Track(c: Config, unacked: map<MessageId, nat>, items: seq<Item>, times: seq<nat>): map<MessageId, nat>
    requires |items| <= |times|
  {
    if items == [] then unacked
    else
      var before := Track(c, unacked, Front(items), times);
      if c.delay.Some? then before[Last(items).0 := times[|items| - 1] + c.delay.value] else before
  }

  function HandedAll(items: seq<Item>): (e: seq<Effect>)
    ensures |e| == |items|
    ensures forall i :: 0 <= i < |items| ==> e[i] == HandedOver(items[i])
  {
    seq(|items|, i requires 0 <= i < |items| => HandedOver(items[i]))
  }

  /**
   What the environment decides while a frame is processed: the clock at each hand-over, how many
   hand-overs the application channel takes, how a reconnect ends, whether the dead-letter send works,
   and whether the application can still be told of an error.
   */
  datatype Luck = Luck(times: seq<nat>, accepted: nat, reopening: Reopening, deadLettered: bool, heard: bool)

  function AfterError(e: State, heard: bool): State {
    e.(phase := if heard then AtTop else Ended(ApplicationGone))
  }

  function ProcessSpec(c: Config, e: State, f: Inbound, luck: Luck): (State, seq<Effect>) {
    match WorkFor(c, f)
    case Finish => (e.(phase := Ended(TopicEnded)), [])
    case Ignore => (e.(phase := AtTop), [])
    case Complain => (AfterError(e, luck.heard), [])
    case Renew =>
      var e1 := Reopen(e, luck.reopening);
      (if luck.reopening.Reopened? then e1.(phase := AtTop) else AfterError(e1, luck.heard),
       ReopenEffects(c, luck.reopening))
    case DeadLetter(id) =>
      if luck.deadLettered then (e.(unacked := e.unacked - {id}, phase := AtTop), [AckSent(id)])
      else (AfterError(e, luck.heard), [])
    case Hand(items) =>
      var n := Min(Min(luck.accepted, |items|), |luck.times|);
      var e1 := e.(unacked := Track(c, e.unacked, items[..n], luck.times));
      (if n == |items| then e1.(phase := AtTop) else AfterError(e1, luck.heard), HandedAll(items[..n]))
  }

  function FrameSpec(c: Config, e: State, f: Inbound, luck: Luck): (State, seq<Effect>) {
    if Weight(f) > e.remaining then (e.(held := false, phase := Ended(Overflowed)), [])
    else ProcessSpec(c, e.(held := false, remaining := e.remaining - Weight(f)), f, luck)
  }

  function Overdue(e: State, now: nat): set<MessageId> {
    set id | id in e.unacked && e.unacked[id] < now
  }

  datatype Request =
    | Ack(id: MessageId)
    | Nack(id: MessageId)
    | Tick(now: nat, sent: bool)       // `sent`: the redelivery request reached the connection
    | GetConnection
    | Closed

  function RequestSpec(e: State, r: Request): (State, seq<Effect>) {
    var e := e.(held := false, phase := AtTop);
    match r
    case Ack(id) => (e.(unacked := e.unacked - {id}), [AckSent(id)])
    case Nack(id) => (e, [RedeliveryAsked({id})])
    case Tick(now, sent) =>
      var ids := Overdue(e, now);
      if ids != {} && sent then (e.(unacked := e.unacked - ids), [RedeliveryAsked(ids)]) else (e, [])
    case GetConnection => (e, [])
    case Closed => (e.(phase := Ended(ApplicationGone)), [])
  }

  /** What ends the wait. */
  datatype Wakeup =
    | Timer
    | Frame(frame: Inbound, luck: Luck)
    | ChannelClosed
    | Asked(request: Request)

  function WaitSpec(c: Config, e: State, w: Wakeup): (State, seq<Effect>) {
    match w
    case Timer => (e.(held := true, phase := AtTop), [])
    case Frame(f, luck) => FrameSpec(c, e, f, luck)
    case ChannelClosed => (e.(held := false, phase := Ended(ChannelLost)), [])
    case Asked(r) => RequestSpec(e, r)
  }

  /** What the environment does during one pass of the loop. */
  datatype Pass = Pass(broken: bool, reopening: Reopening, flow: FlowOutcome, wakeup: Wakeup)

  function PassSpec(c: Config, e: State, p: Pass): (State, seq<Effect>) {
    var (e1, f1) := TopSpec(c, e, p.broken, p.reopening, p.flow);
    if e1.phase != AtWait then (e1, f1)
    else
      var (e2, f2) := WaitSpec(c, e1, p.wakeup);
      (e2, f1 + f2)
  }

  /** Passes until the engine ends or the script does. */
  function EngineSpec(c: Config, e: State, script: seq<Pass>): (State, seq<Effect>) {
    if script == [] then (e, [])
    else
      var (e1, f1) := EngineSpec(c, e, Front(script));
      if e1.phase.Ended? then (e1, f1)
      else
        var (e2, f2) := PassSpec(c, e1, Last(script));
        (e2, f1 + f2)
  }

  lemma Associate(a: seq<Effect>, b: seq<Effect>, c: seq<Effect>)
    ensures (a + b) + c == a + (b + c)
  {
  }

  lemma EngineSnoc(c: Config, e: State, script: seq<Pass>, p: Pass)
    ensures EngineSpec(c, e, script + [p]) ==
            var (e1, f1) := EngineSpec(c, e, script);
            if e1.phase.Ended? then (e1, f1)
            else
              var (e2, f2) := PassSpec(c, e1, p);
              (e2, f1 + f2)
  {
  }

  class ConsumerEngine {
    const config: Config
    var remainingMessages: nat
    var session: nat
    var messagesRx: nat
    var held: bool
    var unackedMessages: map<MessageId, nat>
    var ending: Option<Ending>
    var effects: seq<Effect>

    ghost function View(phase: Phase): State
      reads this
    {
      State(remainingMessages, session, messagesRx, held, unackedMessages, phase)
    }

    ghost function Now(): State
      reads this
    {
      View(if ending.Some? then Ended(ending.value) else AtTop)
    }

    constructor (c: Config)
      ensures config == c && Now() == Start(c) && effects == []
    {
      config, remainingMessages, session, messagesRx, held := c, c.batchSize, 0, 0, false;
      unackedMessages, ending, effects := map[], None, [];
    }

    method Reconnect(r: Reopening)
      modifies this`session, this`messagesRx, this`effects
      ensures session == if r.FailedEarly? then old(session) else old(session) + 1
      ensures messagesRx == if r.Reopened? && !held then session else old(messagesRx)
      ensures effects == old(effects) + ReopenEffects(config, r)
    {
      if r.FailedEarly? {
        effects := effects + [Unreached];
        return;
      }
      session := session + 1;
      if r.FailedLate? {
        effects := effects + [Abandoned(r.live)];
        return;
      }
      effects := effects + [Subscribed, FlowSent(config.batchSize)];
      if !held {
        messagesRx := session;
      }
    }

    /** Refill of the flow permits; returns whether the engine goes on to wait. */
    method RefillPermits(flow: FlowOutcome) returns (waits: bool)
      requires ending == None
      modifies this
      ensures var (e, f) := RefillSpec(config, old(Now()), flow);
              && waits == (e.phase == AtWait) && effects == old(effects) + f
              && (if waits then View(AtWait) == e && ending == None else Now() == e)
    {
      if remainingMessages >= config.batchSize / 2 {
        assert effects + [] == effects;
        return true;
      }
      var permits := config.batchSize - remainingMessages;
      match flow {
        case FlowOk =>
          effects := effects + [FlowSent(permits)];
        case FlowDisconnected(r, again) =>
          Reconnect(r);
          if !r.Reopened? || !again {
            ending := Some(ConnectionFailed);
            return false;
          }
          Associate(old(effects), ReopenEffects(config, r), [FlowSent(permits)]);
          effects := effects + [FlowSent(permits)];
        case FlowError =>
          assert effects + [] == effects;
          ending := Some(ConnectionFailed);
          return false;
      }
      remainingMessages := config.batchSize;
      return true;
    }

    /** Connection check, then refill. */
    method Top(broken: bool, r: Reopening, flow: FlowOutcome) returns (waits: bool)
      requires ending == None
      modifies this
      ensures var (e, f) := TopSpec(config, old(Now()), broken, r, flow);
              && waits == (e.phase == AtWait) && effects == old(effects) + f
              && (if waits then View(AtWait) == e && ending == None else Now() == e)
    {
      ghost var start, log := Now(), effects;
      if broken {
        Reconnect(r);
        if !r.Reopened? {
          ending := Some(ConnectionFailed);
          return false;
        }
        assert Now() == Reopen(start, r);
      }
      ghost var middle := Now();
      waits := RefillPermits(flow);
      ghost var f := RefillSpec(config, middle, flow).1;
      Associate(log, ReopenEffects(config, r), f);
    }

    method SendToConsumer(items: seq<Item>, luck: Luck) returns (ok: bool)
      requires ending == None
      modifies this`unackedMessages, this`effects
      ensures var n := Min(Min(luck.accepted, |items|), |luck.times|);
              && ok == (n == |items|)
              && unackedMessages == Track(config, old(unackedMessages), items[..n], luck.times)
              && effects == old(effects) + HandedAll(items[..n])
    {
      var n := Min(Min(luck.accepted, |items|), |luck.times|);
      ghost var start, log := unackedMessages, effects;
      for i := 0 to n
        invariant unackedMessages == Track(config, start, items[..i], luck.times)
        invariant effects == log + HandedAll(items[..i])
      {
        assert Front(items[..i + 1]) == items[..i] && Last(items[..i + 1]) == items[i];
        effects := effects + [HandedOver(items[i])];
        if config.delay.Some? {
          unackedMessages := unackedMessages[items[i].0 := luck.times[i] + config.delay.value];
        }
        assert HandedAll(items[..i + 1]) == HandedAll(items[..i]) + [HandedOver(items[i])];
      }
      return n == |items|;
    }

    method OnFrame(f: Inbound, luck: Luck)
      requires ending == None
      modifies this
      ensures (Now(), effects) == (FrameSpec(config, old(View(AtWait)), f, luck).0,
                                   old(effects) + FrameSpec(config, old(View(AtWait)), f, luck).1)
    {
      held := false;
      assert effects + [] == effects;
      if Weight(f) > remainingMessages {
        ending := Some(Overflowed);
        return;
      }
      remainingMessages := remainingMessages - Weight(f);
      var failed := false;
      match WorkFor(config, f) {
        case Finish => ending := Some(TopicEnded);
        case Ignore =>
        case Complain => failed := true;
        case Renew =>
          Reconnect(luck.reopening);
          failed := !luck.reopening.Reopened?;
        case DeadLetter(id) =>
          if luck.deadLettered {
            unackedMessages := unackedMessages - {id};
            effects := effects + [AckSent(id)];
          } else {
            failed := true;
          }
        case Hand(items) =>
          var ok := SendToConsumer(items, luck);
          failed := !ok;
      }
      if failed && !luck.heard {
        ending := Some(ApplicationGone);
      }
    }

    method OnRequest(r: Request)
      requires ending == None
      modifies this
      ensures (Now(), effects) == (RequestSpec(old(View(AtWait)), r).0, old(effects) + RequestSpec(old(View(AtWait)), r).1)
    {
      held := false;
      assert effects + [] == effects;
      match r
      case Ack(id) =>
        unackedMessages := unackedMessages - {id};
        effects := effects + [AckSent(id)];
      case Nack(id) =>
        effects := effects + [RedeliveryAsked({id})];
      case Tick(now, sent) =>
        var ids := set id | id in unackedMessages && unackedMessages[id] < now;
        if ids != {} && sent {
          effects := effects + [RedeliveryAsked(ids)];
          unackedMessages := unackedMessages - ids;
        }
      case GetConnection =>
      case Closed =>
        ending := Some(ApplicationGone);
    }

    method Wait(w: Wakeup)
      requires ending == None
      modifies this
      ensures (Now(), effects) == (WaitSpec(config, old(View(AtWait)), w).0, old(effects) + WaitSpec(config, old(View(AtWait)), w).1)
    {
      assert effects + [] == effects;
      match w
      case Timer =>
        held := true;
      case Frame(f, luck) =>
        OnFrame(f, luck);
      case ChannelClosed =>
        held := false;
        ending := Some(ChannelLost);
      case Asked(r) =>
        OnRequest(r);
    }

    method OnePass(p: Pass)
      requires ending == None
      modifies this
      ensures (Now(), effects) == (PassSpec(config, old(Now()), p).0, old(effects) + PassSpec(config, old(Now()), p).1)
    {
      ghost var start, log := Now(), effects;
      var waits := Top(p.broken, p.reopening, p.flow);
      if waits {
        ghost var (e1, f1) := TopSpec(config, start, p.broken, p.reopening, p.flow);
        Wait(p.wakeup);
        Associate(log, f1, WaitSpec(config, e1, p.wakeup).1);
      }
    }

    /** The engine loop, run against everything the environment does. */
    method Run(script: seq<Pass>)
      requires ending == None
      modifies this
      ensures (Now(), effects) == (EngineSpec(config, old(Now()), script).0,
                                   old(effects) + EngineSpec(config, old(Now()), script).1)
    {
      ghost var start, log := Now(), effects;
      for i := 0 to |script|
        invariant Now() == EngineSpec(config, start, script[..i]).0
        invariant effects == log + EngineSpec(config, start, script[..i]).1
      {
        assert script[..i + 1] == script[..i] + [script[i]];
        EngineSnoc(config, start, script[..i], script[i]);
        ghost var e1, f1 := Now(), EngineSpec(config, start, script[..i]).1;
        if ending == None {
          OnePass(script[i]);
          Associate(log, f1, PassSpec(config, e1, script[i]).1);
        }
      }
      assert script[..|script|] == script;
    }
  }
}
