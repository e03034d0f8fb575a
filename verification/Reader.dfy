/** A reader acknowledges every message before handing it out (`Reader::poll_next`). */
module Reader {
  import opened Prelude

  type MessageId = nat

  datatype Phase = PollingConsumer | PollingAck(id: MessageId)

  datatype FromConsumer = ConsumerPending | ConsumerEnded | ConsumerFailed(error: nat) | ConsumerYields(id: MessageId)

  datatype FromAck = AckPending | AckSent | AckFailed

  datatype Poll = Pending | Ended | Failed | Yields(id: MessageId)

  /** The acknowledgement of a message: sent, or refused by a stopped engine. */
  datatype Settled = Settled(id: MessageId, sent: bool)

  datatype State = State(
    phase: Phase,
    received: seq<MessageId>,
    settled: seq<Settled>,
    yielded: seq<MessageId>)

  const FRESH := State(PollingConsumer, [], [], [])

  function PollAckSpec(s: State, id: MessageId, a: FromAck): (State, Poll) {
    match a
    case AckPending => (s.(phase := PollingAck(id)), Pending)
    case AckSent =>
      (s.(phase := PollingConsumer, settled := s.settled + [Settled(id, true)], yielded := s.yielded + [id]), Yields(id))
    case AckFailed => (s.(phase := PollingConsumer, settled := s.settled + [Settled(id, false)]), Failed)
  }

  function PollSpec(s: State, c: FromConsumer, a: FromAck): (State, Poll) {
    match s.phase
    case PollingAck(id) => PollAckSpec(s, id, a)
    case PollingConsumer =>
      match c
      case ConsumerPending => (s, Pending)
      case ConsumerEnded => (s, Ended)
      case ConsumerFailed(_) => (s, Failed)
      case ConsumerYields(id) => PollAckSpec(s.(received := s.received + [id]), id, a)
  }

  function After(polls: seq<(FromConsumer, FromAck)>): State {
    if polls == [] then FRESH else PollSpec(After(Front(polls)), Last(polls).0, Last(polls).1).0
  }

  class Reader {
    var state: Option<Phase>
    var received: seq<MessageId>
    var settled: seq<Settled>
    var yielded: seq<MessageId>

    /** Between calls the state is always there to be taken. */
    ghost predicate Valid()
      reads this
    {
      state.Some?
    }

    ghost function View(): State
      requires Valid()
      reads this
    {
      State(state.value, received, settled, yielded)
    }

    constructor ()
      ensures Valid() && View() == FRESH
    {
      state, received, settled, yielded := Some(PollingConsumer), [], [], [];
    }

    method PollNext(c: FromConsumer, a: FromAck) returns (r: Poll)
      requires Valid()
      modifies this
      ensures Valid() && (View(), r) == PollSpec(old(View()), c, a)
    {
      var phase := state.value;
      state := None;
      if phase.PollingConsumer? {
        if !c.ConsumerYields? {
          state := Some(PollingConsumer);
          return match c case ConsumerPending => Pending case ConsumerEnded => Ended case _ => Failed;
        }
        received := received + [c.id];
        phase := PollingAck(c.id);
      }
      match a
      case AckPending =>
        state := Some(phase);
        r := Pending;
      case AckSent =>
        state := Some(PollingConsumer);
        settled := settled + [Settled(phase.id, true)];
        yielded := yielded + [phase.id];
        r := Yields(phase.id);
      case AckFailed =>
        state := Some(PollingConsumer);
        settled := settled + [Settled(phase.id, false)];
        r := Failed;
    }
  }

  function Ids(s: seq<Settled>): seq<MessageId> {
    if s == [] then [] else Ids(Front(s)) + [Last(s).id]
  }

  function AckedIds(s: seq<Settled>): seq<MessageId> {
    if s == [] then [] else AckedIds(Front(s)) + if Last(s).sent then [Last(s).id] else []
  }

  lemma SettledSnoc(s: seq<Settled>, x: Settled)
    ensures Ids(s + [x]) == Ids(s) + [x.id]
    ensures AckedIds(s + [x]) == AckedIds(s) + if x.sent then [x.id] else []
  {
  }

  ghost predicate Balanced(s: State) {
    && s.yielded == AckedIds(s.settled)
    && s.received == Ids(s.settled) + if s.phase.PollingAck? then [s.phase.id] else []
  }

  lemma PollKept(s: State, c: FromConsumer, a: FromAck)
    requires Balanced(s)
    ensures Balanced(PollSpec(s, c, a).0)
  {
  }

  /**
   The messages handed out are exactly those acknowledged, in the same order; and every message
   received is settled once, in order, except the one whose acknowledgement is under way.
   */
  lemma {:induction false} AcksBeforeYields(polls: seq<(FromConsumer, FromAck)>)
    ensures var s := After(polls);
            && s.yielded == AckedIds(s.settled)
            && s.received == Ids(s.settled) + if s.phase.PollingAck? then [s.phase.id] else []
  {
    if polls == [] {
    } else {
      AcksBeforeYields(Front(polls));
      PollKept(After(Front(polls)), Last(polls).0, Last(polls).1);
    }
  }

  /** The message that a poll deals with: the one under way, or the one that the consumer yields now. */
  function AtHand(polls: seq<(FromConsumer, FromAck)>, c: FromConsumer): Option<MessageId>
    decreases |polls|, 1
  {
    if UnderWay(polls).Some? then UnderWay(polls) else if c.ConsumerYields? then Some(c.id) else None
  }

  /** The message whose acknowledgement is under way, from what the consumer and the engine did. */
  function UnderWay(polls: seq<(FromConsumer, FromAck)>): Option<MessageId>
    decreases |polls|, 0
  {
    if polls == [] then None
    else if Last(polls).1 == AckPending then AtHand(Front(polls), Last(polls).0)
    else None
  }

  /** What a poll returns. */
  function Returns(polls: seq<(FromConsumer, FromAck)>, c: FromConsumer, a: FromAck): Poll {
    var id := AtHand(polls, c);
    if id.None? then
      match c
      case ConsumerPending => Pending
      case ConsumerEnded => Ended
      case _ => Failed
    else if a == AckSent then Yields(id.value)
    else if a == AckFailed then Failed
    else Pending
  }

  function Results(polls: seq<(FromConsumer, FromAck)>): seq<Poll> {
    if polls == [] then []
    else Results(Front(polls)) + [PollSpec(After(Front(polls)), Last(polls).0, Last(polls).1).1]
  }

  /** The ids returned as messages. */
  function Returned(results: seq<Poll>): seq<MessageId> {
    if results == [] then [] else Returned(Front(results)) + if Last(results).Yields? then [Last(results).id] else []
  }

  lemma {:induction false} PhaseFollowsInputs(polls: seq<(FromConsumer, FromAck)>)
    ensures After(polls).phase ==
            if UnderWay(polls).Some? then PollingAck(UnderWay(polls).value) else PollingConsumer
  {
    if polls == [] {
    } else {
      PhaseFollowsInputs(Front(polls));
    }
  }

  /** Every poll returns what the consumer and the acknowledgement call for, whatever came before. */
  lemma PollsReturn(polls: seq<(FromConsumer, FromAck)>, c: FromConsumer, a: FromAck)
    ensures PollSpec(After(polls), c, a).1 == Returns(polls, c, a)
    ensures PollSpec(After(polls), c, a).0.settled == After(polls).settled +
              if AtHand(polls, c).Some? && a != AckPending then [Settled(AtHand(polls, c).value, a == AckSent)] else []
  {
    PhaseFollowsInputs(polls);
  }

  /** Over any polls the ids returned as messages are exactly those acknowledged, in order. */
  lemma {:induction false} ReturnsWhatItAcked(polls: seq<(FromConsumer, FromAck)>)
    ensures Returned(Results(polls)) == AckedIds(After(polls).settled)
  {
    if polls == [] {
    } else {
      var front, c, a := Front(polls), Last(polls).0, Last(polls).1;
      ReturnsWhatItAcked(front);
      PollsReturn(front, c, a);
      assert Front(Results(polls)) == Results(front);
      if AtHand(front, c).Some? && a != AckPending {
        SettledSnoc(After(front).settled, Settled(AtHand(front, c).value, a == AckSent));
      }
    }
  }
}
