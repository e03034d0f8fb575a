/**
 Topic messages always find their consumer.

 The client tasks, the registration queue, the two directions of the network, the broker and the
 receiver run concurrently; every queue send and every queue receive is a step of its own.  The
 broker is free except that it sends a topic message to a consumer id only after it received a
 Flow command for that id.  A client sends Flows once `subscribe` has returned, whether it was
 answered or timed out.  In every interleaving the receiver hands a topic message to a channel at
 least as new as that of the subscription whose Flow allowed it exactly when it has taken that
 channel's registration, which it has unless the subscription timed out.
 */
module Dispatch {
  import opened Prelude
  import opened Multiplexer

  datatype Stage =
    | Started
    | ChannelRegistered
    | RequestRegistered
    | CommandSent
    | TimedOut
    | Refused
    | Subscribed

  /** One call of `subscribe`.  The positions are those of its two registrations in the queue. */
  datatype Subscription = Subscription(
    consumerId: nat,
    channel: Channel,
    requestId: nat,
    stage: Stage,
    channelAt: nat,
    requestAt: nat)

  /** Commands on their way to the broker; a Flow remembers the subscription it was sent for. */
  datatype Outgoing =
    | FlowFor(consumerId: nat, permits: nat, via: nat)
    | Other(msg: Message)

  /** Frames on their way back; a topic message remembers the Flow that allowed it. */
  datatype Incoming = Incoming(msg: Message, via: nat)

  datatype Grant = Grant(consumerId: nat, via: nat)

  datatype System = System(
    subscriptions: seq<Subscription>,
    nextRequestId: nat,
    log: seq<Register>,          // every registration ever queued
    taken: nat,                  // how many of them the receiver has taken
    tables: Tables,
    answers: map<Resolver, Message>,
    outbound: seq<Outgoing>,
    grants: set<Grant>,
    inbound: seq<Incoming>)

  datatype Move =
    | Begin(consumerId: nat, channel: Channel)
    | RegisterChannel(who: nat)
    | RegisterRequest(who: nat)
    | SendSubscribe(who: nat)
    | Expire(who: nat)
    | TakeAnswer(who: nat)
    | SendFlow(who: nat, permits: nat)
    | RegisterOther(key: RequestKey)
    | RegisterPing
    | SendOther(msg: Message)
    | BrokerReads
    | BrokerSends(frame: Incoming)
    | ReceiverTakesRegistration
    | ReceiverTakesFrame

  predicate IsTopicMessage(m: Message) {
    m.command.ToConsumer? && m.command.consumerKind == TopicMessage
  }

  /** Only a success reply makes `subscribe` return Ok. */
  predicate Accepts(m: Message) {
    m.command.Keyed? && m.command.kind == Success
  }

  const INITIAL := System([], 0, [], 0, EMPTY, map[], [], {}, [])

  predicate AtStage(s: System, who: nat, stage: Stage) {
    who < |s.subscriptions| && s.subscriptions[who].stage == stage
  }

  /** `subscribe` has returned; an engine whose reconnect failed goes on sending Flows. */
  predicate Returned(stage: Stage) {
    stage == Subscribed || stage == Refused || stage == TimedOut
  }

  predicate Enabled(s: System, m: Move) {
    match m
    case Begin(_, _) => true
    case RegisterChannel(w) => AtStage(s, w, Started)
    case RegisterRequest(w) => AtStage(s, w, ChannelRegistered)
    case SendSubscribe(w) => AtStage(s, w, RequestRegistered)
    case Expire(w) => AtStage(s, w, CommandSent)
    case TakeAnswer(w) => AtStage(s, w, CommandSent) && s.subscriptions[w].requestAt in s.answers
    case SendFlow(w, _) => w < |s.subscriptions| && Returned(s.subscriptions[w].stage)
    case RegisterOther(_) => true
    case RegisterPing => true
    case SendOther(_) => true
    case BrokerReads => s.outbound != []
    case BrokerSends(f) =>
      IsTopicMessage(f.msg) ==> Grant(f.msg.command.consumerId, f.via) in s.grants
    case ReceiverTakesRegistration => s.taken < |s.log|
    case ReceiverTakesFrame => s.inbound != []
  }

  function WithAnswers(answers: map<Resolver, Message>, effects: seq<Effect>): map<Resolver, Message> {
    if effects == [] then answers
    else
      var rest := WithAnswers(answers, Front(effects));
      if Last(effects).Resolved? then rest[Last(effects).resolver := Last(effects).answer] else rest
  }

  function Update(s: System, who: nat, sub: Subscription): System
    requires who < |s.subscriptions|
  {
    s.(subscriptions := s.subscriptions[who := sub])
  }

  /** A oneshot sender is named by the position of its registration in the queue. */
  function Apply(s: System, m: Move): System
    requires Enabled(s, m)
  {
    match m
    case Begin(c, ch) =>
      s.(subscriptions := s.subscriptions + [Subscription(c, ch, s.nextRequestId, Started, 0, 0)],
         nextRequestId := s.nextRequestId + 1)
    case RegisterChannel(w) =>
      var sub := s.subscriptions[w];
      Update(s, w, sub.(stage := ChannelRegistered, channelAt := |s.log|))
      .(log := s.log + [Consumer(sub.consumerId, sub.channel)])
    case RegisterRequest(w) =>
      var sub := s.subscriptions[w];
      Update(s, w, sub.(stage := RequestRegistered, requestAt := |s.log|))
      .(log := s.log + [Request(RequestId(sub.requestId), |s.log|)])
    case SendSubscribe(w) =>
      var sub := s.subscriptions[w];
      Update(s, w, sub.(stage := CommandSent))
      .(outbound := s.outbound + [Other(Message(Keyed(Subscribe, sub.requestId), 0))])
    case Expire(w) =>
      Update(s, w, s.subscriptions[w].(stage := TimedOut))
    case TakeAnswer(w) =>
      var sub := s.subscriptions[w];
      Update(s, w, sub.(stage := if Accepts(s.answers[sub.requestAt]) then Subscribed else Refused))
    case SendFlow(w, n) =>
      s.(outbound := s.outbound + [FlowFor(s.subscriptions[w].consumerId, n, w)])
    case RegisterOther(k) =>
      s.(log := s.log + [Request(k, |s.log|)])
    case RegisterPing =>
      s.(log := s.log + [PingRequest(|s.log|)])
    case SendOther(msg) =>
      s.(outbound := s.outbound + [Other(msg)])
    case BrokerReads =>
      var first := s.outbound[0];
      s.(outbound := s.outbound[1..],
         grants := if first.FlowFor? then s.grants + {Grant(first.consumerId, first.via)} else s.grants)
    case BrokerSends(f) =>
      s.(inbound := s.inbound + [f])
    case ReceiverTakesRegistration =>
      var (t, e) := StepRegister(s.tables, s.log[s.taken]);
      s.(taken := s.taken + 1, tables := t, answers := WithAnswers(s.answers, e))
    case ReceiverTakesFrame =>
      var (t, e) := StepFrame(s.tables, s.inbound[0].msg);
      s.(inbound := s.inbound[1..], tables := t, answers := WithAnswers(s.answers, e))
  }

  /** The newest registration of a consumer id. */
  function NewestAt(log: seq<Register>, consumerId: nat): Option<nat> {
    if log == [] then None
    else if Last(log).Consumer? && Last(log).consumerId == consumerId then Some(|log| - 1)
    else NewestAt(Front(log), consumerId)
  }

  lemma {:induction false} NewestAtIsNewest(log: seq<Register>, c: nat, i: nat)
    requires i < |log| && log[i].Consumer? && log[i].consumerId == c
    ensures NewestAt(log, c).Some?
    ensures var n := NewestAt(log, c).value; i <= n < |log| && log[n].Consumer? && log[n].consumerId == c
  {
    if i == |log| - 1 {
    } else {
      NewestAtIsNewest(Front(log), c, i);
    }
  }

  lemma {:induction false} NewestAtMeans(log: seq<Register>, c: nat)
    ensures NewestAt(log, c).Some? ==>
              var n := NewestAt(log, c).value; n < |log| && log[n].Consumer? && log[n].consumerId == c
  {
    if log == [] {
    } else {
      NewestAtMeans(Front(log), c);
    }
  }

  /** The receiver's consumer table is the newest registration of every id it has taken. */
  ghost predicate TableIsNewest(s: System) {
    && s.taken <= |s.log|
    && forall c ::
         var n := NewestAt(s.log[..s.taken], c);
         if n.Some? then
           n.value < s.taken && s.log[n.value].Consumer? &&
           c in s.tables.consumers && s.tables.consumers[c] == s.log[n.value].channel
         else c !in s.tables.consumers
  }

  /** An answer exists only for a registration already taken. */
  ghost predicate AnswersAfterTaking(s: System) {
    && (forall i :: 0 <= i < |s.log| && s.log[i].Request? ==> s.log[i].resolver == i)
    && (forall k :: k in s.tables.pending ==> s.tables.pending[k] < s.taken)
    && (forall r :: r in s.answers ==> r < s.taken)
  }

  ghost predicate Progressed(s: System, sub: Subscription) {
    && (sub.stage != Started ==>
          sub.channelAt < |s.log| && s.log[sub.channelAt] == Consumer(sub.consumerId, sub.channel))
    && (sub.stage != Started && sub.stage != ChannelRegistered ==> sub.channelAt < sub.requestAt < |s.log|)
    && (sub.stage == Subscribed || sub.stage == Refused ==> sub.requestAt < s.taken)
  }

  ghost predicate GrantedBy(s: System, consumerId: nat, via: nat) {
    via < |s.subscriptions| && Returned(s.subscriptions[via].stage) && s.subscriptions[via].consumerId == consumerId
  }

  ghost predicate FlowsAreEarned(s: System) {
    && (forall i :: 0 <= i < |s.outbound| && s.outbound[i].FlowFor? ==>
          GrantedBy(s, s.outbound[i].consumerId, s.outbound[i].via))
    && (forall g :: g in s.grants ==> GrantedBy(s, g.consumerId, g.via))
    && (forall i :: 0 <= i < |s.inbound| && IsTopicMessage(s.inbound[i].msg) ==>
          GrantedBy(s, s.inbound[i].msg.command.consumerId, s.inbound[i].via))
  }

  ghost predicate Inv(s: System) {
    && TableIsNewest(s)
    && AnswersAfterTaking(s)
    && (forall w :: 0 <= w < |s.subscriptions| ==> Progressed(s, s.subscriptions[w]))
    && FlowsAreEarned(s)
  }

  lemma {:induction false} AnswersStayBelow(answers: map<Resolver, Message>, effects: seq<Effect>, bound: nat)
    requires forall r :: r in answers ==> r < bound
    requires forall e :: e in effects && e.Resolved? ==> e.resolver < bound
    ensures forall r :: r in WithAnswers(answers, effects) ==> r < bound
  {
    if effects == [] {
    } else {
      assert forall e :: e in Front(effects) ==> e in effects;
      AnswersStayBelow(answers, Front(effects), bound);
      assert Last(effects) in effects;
    }
  }

  lemma TableStep(s: System)
    requires TableIsNewest(s) && Enabled(s, ReceiverTakesRegistration)
    ensures TableIsNewest(Apply(s, ReceiverTakesRegistration))
  {
    var s' := Apply(s, ReceiverTakesRegistration);
    assert Front(s.log[..s'.taken]) == s.log[..s.taken];
    assert Last(s.log[..s'.taken]) == s.log[s.taken];
  }

  lemma LogGrows(s: System, s': System)
    requires TableIsNewest(s)
    requires s.log <= s'.log && s'.taken == s.taken && s'.tables.consumers == s.tables.consumers
    ensures TableIsNewest(s')
  {
    assert s'.log[..s'.taken] == s.log[..s.taken];
  }

  lemma RegistrationKept(s: System)
    requires Enabled(s, ReceiverTakesRegistration) && TableIsNewest(s) && AnswersAfterTaking(s)
    ensures AnswersAfterTaking(Apply(s, ReceiverTakesRegistration))
  {
    AnswersStayBelow(s.answers, StepRegister(s.tables, s.log[s.taken]).1, s.taken + 1);
  }

  lemma FrameKept(s: System)
    requires Enabled(s, ReceiverTakesFrame) && TableIsNewest(s) && AnswersAfterTaking(s)
    ensures AnswersAfterTaking(Apply(s, ReceiverTakesFrame))
  {
    AnswersStayBelow(s.answers, StepFrame(s.tables, s.inbound[0].msg).1, s.taken);
  }

  /** The table of consumers and the answers, over every step. */
  lemma TablesKept(s: System, m: Move)
    requires Enabled(s, m) && TableIsNewest(s) && AnswersAfterTaking(s)
    ensures TableIsNewest(Apply(s, m)) && AnswersAfterTaking(Apply(s, m))
  {
    if m == ReceiverTakesRegistration {
      TableStep(s);
      RegistrationKept(s);
    } else {
      LogGrows(s, Apply(s, m));
      if m == ReceiverTakesFrame {
        FrameKept(s);
      }
    }
  }

  lemma SubscriptionsKept(s: System, m: Move)
    requires Enabled(s, m) && AnswersAfterTaking(s)
    requires forall w :: 0 <= w < |s.subscriptions| ==> Progressed(s, s.subscriptions[w])
    ensures var s' := Apply(s, m);
            && (forall w :: 0 <= w < |s'.subscriptions| ==> Progressed(s', s'.subscriptions[w]))
            && |s.subscriptions| <= |s'.subscriptions|
            && (forall w :: 0 <= w < |s.subscriptions| && Returned(s.subscriptions[w].stage) ==>
                  s'.subscriptions[w] == s.subscriptions[w])
  {
  }

  lemma EarnedKept(s: System, m: Move)
    requires Enabled(s, m) && FlowsAreEarned(s)
    requires var s' := Apply(s, m);
             && |s.subscriptions| <= |s'.subscriptions|
             && (forall w :: 0 <= w < |s.subscriptions| && Returned(s.subscriptions[w].stage) ==>
                   s'.subscriptions[w] == s.subscriptions[w])
    ensures FlowsAreEarned(Apply(s, m))
  {
    var s' := Apply(s, m);
    assert forall c, via :: GrantedBy(s, c, via) ==> GrantedBy(s', c, via);
  }

  lemma InvKept(s: System, m: Move)
    requires Inv(s) && Enabled(s, m)
    ensures Inv(Apply(s, m))
  {
    TablesKept(s, m);
    SubscriptionsKept(s, m);
    EarnedKept(s, m);
  }

  /** A subscription stands exactly when its answer is a success; any other answer refuses it. */
  lemma AnswersDecide(s: System, who: nat)
    requires Enabled(s, TakeAnswer(who))
    ensures var answer := s.answers[s.subscriptions[who].requestAt];
            var stage := Apply(s, TakeAnswer(who)).subscriptions[who].stage;
            && (stage == Subscribed <==> exists id, content :: answer == Message(Keyed(Success, id), content))
            && (stage != Subscribed ==> stage == Refused)
  {
    var answer := s.answers[s.subscriptions[who].requestAt];
    if Accepts(answer) {
      assert answer == Message(Keyed(Success, answer.command.requestId), answer.content);
    }
  }

  /** A finite run of the whole system. */
  ghost predicate Runs(moves: seq<Move>, s: System)
    decreases |moves|
  {
    if moves == [] then s == INITIAL
    else exists s0 :: Runs(Front(moves), s0) && Enabled(s0, Last(moves)) && s == Apply(s0, Last(moves))
  }

  lemma {:induction false} ReachableInv(moves: seq<Move>, s: System)
    requires Runs(moves, s)
    ensures Inv(s)
    decreases |moves|
  {
    if moves == [] {
    } else {
      var s0 :| Runs(Front(moves), s0) && Enabled(s0, Last(moves)) && s == Apply(s0, Last(moves));
      ReachableInv(Front(moves), s0);
      InvKept(s0, Last(moves));
    }
  }

  /** The message goes to the newest channel registered for its consumer, and that is entry `n` of the queue. */
  ghost predicate ForwardedTo(s: System, m: Message, n: nat)
    requires IsTopicMessage(m)
  {
    && n < s.taken <= |s.log|
    && NewestAt(s.log[..s.taken], m.command.consumerId) == Some(n)
    && s.log[n].Consumer? && s.log[n].consumerId == m.command.consumerId
    && StepFrame(s.tables, m) == (s.tables, [Forwarded(s.log[n].channel, m)])
  }

  /** It goes to a channel registered by the subscription whose Flow allowed it, or to a newer one. */
  ghost predicate FindsItsConsumer(s: System, f: Incoming)
    requires IsTopicMessage(f.msg) && f.via < |s.subscriptions|
  {
    exists n :: s.subscriptions[f.via].channelAt <= n && ForwardedTo(s, f.msg, n)
  }

  /**
   In every reachable state a topic message read next finds its consumer exactly when the receiver
   has taken the channel registration of the subscription whose Flow allowed the message; it has,
   whenever that subscription was answered.
   */
  lemma TopicMessagesFindTheirConsumer(moves: seq<Move>, s: System)
    requires Runs(moves, s)
    requires s.inbound != [] && IsTopicMessage(s.inbound[0].msg)
    ensures s.inbound[0].via < |s.subscriptions|
    ensures var sub := s.subscriptions[s.inbound[0].via];
            && (FindsItsConsumer(s, s.inbound[0]) <==> sub.channelAt < s.taken)
            && (sub.stage != TimedOut ==> sub.channelAt < s.taken)
  {
    ReachableInv(moves, s);
    var Incoming(m, via) := s.inbound[0];
    assert GrantedBy(s, m.command.consumerId, via);
    var sub := s.subscriptions[via];
    assert Progressed(s, sub);
    if sub.channelAt < s.taken {
      NewestAtIsNewest(s.log[..s.taken], m.command.consumerId, sub.channelAt);
      assert ForwardedTo(s, m, NewestAt(s.log[..s.taken], m.command.consumerId).value);
    }
  }

  /** A topic message is dropped exactly when no channel of its consumer id was ever taken. */
  lemma DroppedExactlyWhenUnregistered(moves: seq<Move>, s: System, m: Message)
    requires Runs(moves, s) && IsTopicMessage(m)
    ensures s.taken <= |s.log|
    ensures StepFrame(s.tables, m).1 == [Dropped(m)] <==>
            forall i :: 0 <= i < s.taken && s.log[i].Consumer? ==> s.log[i].consumerId != m.command.consumerId
  {
    ReachableInv(moves, s);
    var c := m.command.consumerId;
    NewestAtMeans(s.log[..s.taken], c);
    forall i | 0 <= i < s.taken && s.log[i].Consumer? && s.log[i].consumerId == c
      ensures NewestAt(s.log[..s.taken], c).Some?
    {
      NewestAtIsNewest(s.log[..s.taken], c, i);
    }
  }

  lemma RunsSnoc(moves: seq<Move>, s: System, m: Move)
    requires Runs(moves, s) && Enabled(s, m)
    ensures Runs(moves + [m], Apply(s, m))
  {
    assert Front(moves + [m]) == moves && Last(moves + [m]) == m;
  }

  /** A first subscription after its two registrations, neither of them taken. */
  function Enrolled(c: nat, ch: Channel): System {
    INITIAL.(subscriptions := [Subscription(c, ch, 0, RequestRegistered, 0, 1)], nextRequestId := 1,
             log := [Consumer(c, ch), Request(RequestId(0), 1)])
  }

  lemma CanRegister(c: nat, ch: Channel) returns (moves: seq<Move>)
    ensures Runs(moves, Enrolled(c, ch))
  {
    var m1, m2, m3 := Begin(c, ch), RegisterChannel(0), RegisterRequest(0);
    var s1 := INITIAL.(subscriptions := [Subscription(c, ch, 0, Started, 0, 0)], nextRequestId := 1);
    RunsSnoc([], INITIAL, m1);
    assert Apply(INITIAL, m1) == s1;
    var s2 := s1.(subscriptions := [Subscription(c, ch, 0, ChannelRegistered, 0, 0)], log := [Consumer(c, ch)]);
    RunsSnoc([] + [m1], s1, m2);
    assert Apply(s1, m2) == s2;
    RunsSnoc([] + [m1] + [m2], s2, m3);
    assert Apply(s2, m3) == Enrolled(c, ch);
    moves := [] + [m1] + [m2] + [m3];
  }

  /** The same once it has timed out. */
  function Expired(c: nat, ch: Channel): System {
    Enrolled(c, ch).(subscriptions := [Subscription(c, ch, 0, TimedOut, 0, 1)],
                       outbound := [Other(Message(Keyed(Subscribe, 0), 0))])
  }

  lemma CanExpire(c: nat, ch: Channel) returns (moves: seq<Move>)
    ensures Runs(moves, Expired(c, ch))
  {
    var ms := CanRegister(c, ch);
    var s1 := Expired(c, ch).(subscriptions := [Subscription(c, ch, 0, CommandSent, 0, 1)]);
    RunsSnoc(ms, Enrolled(c, ch), SendSubscribe(0));
    assert Apply(Enrolled(c, ch), SendSubscribe(0)) == s1;
    RunsSnoc(ms + [SendSubscribe(0)], s1, Expire(0));
    assert Apply(s1, Expire(0)) == Expired(c, ch);
    moves := ms + [SendSubscribe(0)] + [Expire(0)];
  }

  lemma CanBeGranted(c: nat, ch: Channel) returns (moves: seq<Move>)
    ensures Runs(moves, Expired(c, ch).(outbound := [], grants := {Grant(c, 0)}))
  {
    var ms := CanExpire(c, ch);
    var s0 := Expired(c, ch);
    var other := s0.outbound[0];
    RunsSnoc(ms, s0, SendFlow(0, 1));
    var s1 := s0.(outbound := [other, FlowFor(c, 1, 0)]);
    assert s1 == Apply(s0, SendFlow(0, 1));
    RunsSnoc(ms + [SendFlow(0, 1)], s1, BrokerReads);
    var s2 := s0.(outbound := [FlowFor(c, 1, 0)]);
    assert s2 == Apply(s1, BrokerReads);
    RunsSnoc(ms + [SendFlow(0, 1)] + [BrokerReads], s2, BrokerReads);
    moves := ms + [SendFlow(0, 1)] + [BrokerReads] + [BrokerReads];
    assert s0.(outbound := [], grants := {Grant(c, 0)}) == Apply(s2, BrokerReads);
  }

  ghost predicate LosesNext(moves: seq<Move>, s: System) {
    && Runs(moves, s) && s.inbound != [] && IsTopicMessage(s.inbound[0].msg)
    && StepFrame(s.tables, s.inbound[0].msg).1 == [Dropped(s.inbound[0].msg)]
  }

  /**
   The failing case: a Flow is sent for the subscription that timed out, the broker answers with a
   message, and a receiver that has not taken the registration yet drops it.
   */
  lemma FlowAfterTimeOutCanLoseAMessage(c: nat, ch: Channel)
    ensures exists moves, s :: LosesNext(moves, s)
  {
    var ms := CanBeGranted(c, ch);
    var f := Incoming(Message(ToConsumer(TopicMessage, c), 0), 0);
    var s := Expired(c, ch).(outbound := [], grants := {Grant(c, 0)});
    RunsSnoc(ms, s, BrokerSends(f));
    assert LosesNext(ms + [BrokerSends(f)], Apply(s, BrokerSends(f)));
  }
}
