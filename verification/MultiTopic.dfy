/**
 A consumer over many topics.

 A deque of topic names is rotated to poll the topics in turn, beside a map from names to
 consumers; topics that fail are removed, and a periodic discovery adds new ones.
 */
module MultiTopic {
  import opened Prelude

  type TopicName = string

  /** How many messages each live consumer has yielded. */
  type Consumers = map<TopicName, nat>

  datatype State = State(
    consumers: Consumers,
    topics: seq<TopicName>,
    discovery: Option<set<TopicName>>,   // a running discovery, with the names it will skip
    departed: nat)                       // messages yielded by consumers since removed

  /** What polling one topic yields. */
  datatype Outcome = NotReady | Yields | StreamEnded | StreamFailed

  /** What polling the discovery yields. */
  datatype Finding = StillRunning | GaveUp | Found(names: seq<TopicName>)

  function Names(s: seq<TopicName>): set<TopicName> {
    set t | t in s
  }

  /** `add_consumers`: fresh consumers have yielded nothing. */
  function AddSpec(s: State, names: seq<TopicName>): State {
    if names == [] then s
    else
      var s1 := AddSpec(s, Front(names));
      s1.(consumers := s1.consumers[Last(names) := 0], topics := s1.topics + [Last(names)])
  }

  function Without(topics: seq<TopicName>, gone: seq<TopicName>): seq<TopicName> {
    if topics == [] then []
    else Without(Front(topics), gone) + if Last(topics) in gone then [] else [Last(topics)]
  }

  /** The consumers left, and the messages yielded by those removed. */
  function Remove(m: Consumers, departed: nat, gone: seq<TopicName>): (Consumers, nat) {
    if gone == [] then (m, departed)
    else
      var (m1, d1) := Remove(m, departed, Front(gone));
      var t := Last(gone);
      if t in m1 then (m1 - {t}, d1 + m1[t]) else (m1, d1)
  }

  function RemoveSpec(s: State, gone: seq<TopicName>): State {
    var (m, d) := Remove(s.consumers, s.departed, gone);
    s.(consumers := m, departed := d, topics := Without(s.topics, gone))
  }

  /** `update_topics`: without a pattern there is nothing to discover. */
  function UpdateSpec(s: State, pattern: bool): State {
    if pattern then s.(discovery := Some(s.consumers.Keys)) else s
  }

  function Unknown(names: seq<TopicName>, known: set<TopicName>): seq<TopicName> {
    if names == [] then []
    else Unknown(Front(names), known) + if Last(names) in known then [] else [Last(names)]
  }

  function DiscoverySpec(s: State, f: Finding): State {
    if s.discovery.None? then s
    else match f
      case StillRunning => s
      case GaveUp => s.(discovery := None)
      case Found(names) => AddSpec(s.(discovery := None), Unknown(names, s.discovery.value))
  }

  /** The polling loop: the deque as it turns, who failed, who yielded, and whether a consumer was missing. */
  datatype Turn = Turn(
    topics: seq<TopicName>,
    consumers: Consumers,
    failed: seq<TopicName>,
    yielded: Option<TopicName>,
    polled: nat,
    missing: bool)

  function TurnOne(u: Turn, o: Outcome): Turn
    requires u.topics != []
  {
    var t := u.topics[0];
    var u1 := u.(topics := u.topics[1..] + [t], polled := u.polled + 1);
    if t !in u.consumers then u1.(missing := true)
    else match o
      case NotReady => u1
      case Yields => u1.(yielded := Some(t), consumers := u.consumers[t := u.consumers[t] + 1])
      case StreamEnded => u1.(failed := u.failed + [t])
      case StreamFailed => u1.(failed := u.failed + [t])
  }

  function Turned(s: State, outcomes: seq<Outcome>): (u: Turn)
    requires |outcomes| <= |s.topics|
    ensures |u.topics| == |s.topics|
  {
    if outcomes == [] then Turn(s.topics, s.consumers, [], None, 0, false)
    else
      var u := Turned(s, Front(outcomes));
      if u.yielded.Some? then u else TurnOne(u, Last(outcomes))
  }

  /** What a full turn of the deque would yield, one outcome per topic. */
  function Turning(s: State, outcomes: seq<Outcome>): Turn
    requires |outcomes| >= |s.topics|
  {
    Turned(s, outcomes[..|s.topics|])
  }

  function ScanSpec(s: State, outcomes: seq<Outcome>): State
    requires |outcomes| >= |s.topics|
  {
    var u := Turning(s, outcomes);
    RemoveSpec(s.(topics := u.topics, consumers := u.consumers), u.failed)
  }

  /** One `poll_next`: a refresh that fires restarts the call, so any number may come first. */
  datatype Poll = Poll(refreshes: seq<Finding>, finding: Finding, outcomes: seq<Outcome>)

  function Refreshed(s: State, pattern: bool, findings: seq<Finding>): State {
    if findings == [] then s
    else UpdateSpec(DiscoverySpec(Refreshed(s, pattern, Front(findings)), Last(findings)), pattern)
  }

  /** The state in which the topics are polled. */
  function BeforeScan(s: State, pattern: bool, p: Poll): State {
    DiscoverySpec(Refreshed(s, pattern, p.refreshes), p.finding)
  }

  predicate Enough(s: State, pattern: bool, p: Poll) {
    |p.outcomes| >= |BeforeScan(s, pattern, p).topics|
  }

  function PollSpec(s: State, pattern: bool, p: Poll): State
    requires Enough(s, pattern, p)
  {
    ScanSpec(BeforeScan(s, pattern, p), p.outcomes)
  }

  function YieldOf(s: State, pattern: bool, p: Poll): Option<TopicName>
    requires Enough(s, pattern, p)
  {
    Turning(BeforeScan(s, pattern, p), p.outcomes).yielded
  }

  /** `messages_received()` */
  ghost function MessagesReceivedSpec(s: State): nat {
    SumOf(s.consumers) + s.departed
  }

  class MultiTopicConsumer {
    const pattern: bool
    var consumers: Consumers
    var topics: seq<TopicName>
    var newConsumers: Option<set<TopicName>>
    var discMessagesReceived: nat

    ghost function View(): State
      reads this
    {
      State(consumers, topics, newConsumers, discMessagesReceived)
    }

    constructor (hasPattern: bool)
      ensures pattern == hasPattern && View() == State(map[], [], None, 0)
    {
      pattern, consumers, topics, newConsumers, discMessagesReceived := hasPattern, map[], [], None, 0;
    }

    method AddConsumers(names: seq<TopicName>)
      modifies this
      ensures View() == AddSpec(old(View()), names)
    {
      ghost var start := View();
      for i := 0 to |names|
        invariant View() == AddSpec(start, names[..i])
      {
        assert Front(names[..i + 1]) == names[..i];
        consumers := consumers[names[i] := 0];
        topics := topics + [names[i]];
      }
      assert names[..|names|] == names;
    }

    method RemoveConsumers(gone: seq<TopicName>)
      modifies this
      ensures View() == RemoveSpec(old(View()), gone)
    {
      ghost var start := View();
      var kept: seq<TopicName> := [];
      for i := 0 to |topics|
        invariant topics == start.topics && View() == start && kept == Without(topics[..i], gone)
      {
        assert Front(topics[..i + 1]) == topics[..i];
        if topics[i] !in gone {
          kept := kept + [topics[i]];
        }
      }
      assert topics[..|topics|] == topics;
      topics := kept;
      for i := 0 to |gone|
        invariant topics == kept && newConsumers == start.discovery
        invariant (consumers, discMessagesReceived) == Remove(start.consumers, start.departed, gone[..i])
      {
        assert Front(gone[..i + 1]) == gone[..i];
        var t := gone[i];
        if t in consumers {
          discMessagesReceived := discMessagesReceived + consumers[t];
          consumers := consumers - {t};
        }
      }
      assert gone[..|gone|] == gone;
    }

    method UpdateTopics()
      modifies this
      ensures View() == UpdateSpec(old(View()), pattern)
    {
      if pattern {
        newConsumers := Some(consumers.Keys);
      }
    }

    method PollDiscovery(f: Finding)
      modifies this
      ensures View() == DiscoverySpec(old(View()), f)
    {
      if newConsumers.Some? {
        match f
        case StillRunning =>
        case GaveUp => newConsumers := None;
        case Found(names) =>
          var unknown := Unknown(names, newConsumers.value);
          newConsumers := None;
          AddConsumers(unknown);
      }
    }

    method MessagesReceived() returns (n: nat)
      ensures n == MessagesReceivedSpec(View())
    {
      var rest := consumers;
      n := 0;
      while rest.Keys != {}
        invariant n + SumOf(rest) == SumOf(consumers)
        decreases rest.Keys
      {
        var t :| t in rest.Keys;
        SumRemove(rest, t);
        n := n + rest[t];
        rest := rest - {t};
      }
      assert rest == map[];
      n := n + discMessagesReceived;
    }

    method Refresh(findings: seq<Finding>)
      modifies this
      ensures View() == Refreshed(old(View()), pattern, findings)
    {
      ghost var start := View();
      for i := 0 to |findings|
        invariant View() == Refreshed(start, pattern, findings[..i])
      {
        assert Front(findings[..i + 1]) == findings[..i];
        PollDiscovery(findings[i]);
        UpdateTopics();
      }
      assert findings[..|findings|] == findings;
    }

    method PollFront(o: Outcome, failed: seq<TopicName>) returns (yielded: Option<TopicName>, failed': seq<TopicName>)
      requires topics != []
      modifies this`topics, this`consumers
      ensures forall n: nat, missing ::
                var u := TurnOne(Turn(old(topics), old(consumers), failed, None, n, missing), o);
                topics == u.topics && consumers == u.consumers && yielded == u.yielded && failed' == u.failed
    {
      yielded, failed' := None, failed;
      var t := topics[0];
      topics := topics[1..];
      if t in consumers {
        match o
        case NotReady =>
        case Yields =>
          yielded := Some(t);
          consumers := consumers[t := consumers[t] + 1];
        case StreamEnded => failed' := failed + [t];
        case StreamFailed => failed' := failed + [t];
      }
      topics := topics + [t];
    }

    method Scan(outcomes: seq<Outcome>) returns (yielded: Option<TopicName>)
      requires |outcomes| >= |topics|
      modifies this
      ensures View() == ScanSpec(old(View()), outcomes)
      ensures yielded == Turning(old(View()), outcomes).yielded
    {
      ghost var s := View();
      var n := |topics|;
      var failed: seq<TopicName> := [];
      yielded := None;
      for i := 0 to n
        invariant |topics| == n && newConsumers == s.discovery && discMessagesReceived == s.departed
        invariant var u := Turned(s, outcomes[..i]);
                  topics == u.topics && consumers == u.consumers && failed == u.failed && yielded == u.yielded
      {
        assert Front(outcomes[..i + 1]) == outcomes[..i] && Last(outcomes[..i + 1]) == outcomes[i];
        if yielded.None? {
          ghost var u := Turned(s, outcomes[..i]);
          assert u == Turn(topics, consumers, failed, None, u.polled, u.missing);
          yielded, failed := PollFront(outcomes[i], failed);
        }
      }
      RemoveConsumers(failed);
    }

    method PollNext(p: Poll) returns (yielded: Option<TopicName>)
      requires Enough(View(), pattern, p)
      modifies this
      ensures View() == PollSpec(old(View()), pattern, p)
      ensures yielded == YieldOf(old(View()), pattern, p)
    {
      Refresh(p.refreshes);
      PollDiscovery(p.finding);
      yielded := Scan(p.outcomes);
    }
  }

  /** Names and consumers agree, and a running discovery skips every name in use. */
  ghost predicate Agree(s: State) {
    && Names(s.topics) == s.consumers.Keys
    && (s.discovery.Some? ==> s.consumers.Keys <= s.discovery.value)
  }

  ghost predicate NamesAgree(s: State) {
    Names(s.topics) == s.consumers.Keys
  }

  lemma NamesSnoc(ts: seq<TopicName>, t: TopicName)
    ensures Names(ts + [t]) == Names(ts) + {t}
  {
  }

  /** New names start at zero, so adding them, even twice, changes no count. */
  lemma {:induction false} AddKept(s: State, names: seq<TopicName>)
    requires NamesAgree(s) && forall t :: t in names ==> t !in s.consumers
    ensures var s' := AddSpec(s, names);
            && NamesAgree(s') && s'.discovery == s.discovery
            && MessagesReceivedSpec(s') == MessagesReceivedSpec(s)
            && s.topics <= s'.topics
            && (forall t :: t in s'.consumers && t !in s.consumers ==> s'.consumers[t] == 0)
  {
    if names == [] {
    } else {
      assert forall t :: t in Front(names) ==> t in names;
      AddKept(s, Front(names));
      var s1, t := AddSpec(s, Front(names)), Last(names);
      assert t in names;
      SumUpdate(s1.consumers, t, 0);
      NamesSnoc(s1.topics, t);
    }
  }

  lemma {:induction false} UnknownIsUnknown(names: seq<TopicName>, known: set<TopicName>)
    ensures forall t :: t in Unknown(names, known) ==> t !in known
  {
    if names == [] {
    } else {
      UnknownIsUnknown(Front(names), known);
    }
  }

  lemma DiscoveryKept(s: State, f: Finding)
    requires Agree(s)
    ensures var s' := DiscoverySpec(s, f);
            Agree(s') && MessagesReceivedSpec(s') == MessagesReceivedSpec(s) && s.topics <= s'.topics
  {
    if s.discovery.Some? && f.Found? {
      UnknownIsUnknown(f.names, s.discovery.value);
      AddKept(s.(discovery := None), Unknown(f.names, s.discovery.value));
    }
  }

  lemma {:induction false} RefreshedKept(s: State, pattern: bool, findings: seq<Finding>)
    requires Agree(s)
    ensures var s' := Refreshed(s, pattern, findings);
            Agree(s') && MessagesReceivedSpec(s') == MessagesReceivedSpec(s) && s.topics <= s'.topics
  {
    if findings == [] {
    } else {
      RefreshedKept(s, pattern, Front(findings));
      DiscoveryKept(Refreshed(s, pattern, Front(findings)), Last(findings));
    }
  }

  lemma BeforeScanKept(s: State, pattern: bool, p: Poll)
    requires Agree(s)
    ensures var s' := BeforeScan(s, pattern, p);
            Agree(s') && MessagesReceivedSpec(s') == MessagesReceivedSpec(s) && s.topics <= s'.topics
  {
    RefreshedKept(s, pattern, p.refreshes);
    DiscoveryKept(Refreshed(s, pattern, p.refreshes), p.finding);
  }

  /** The loop rotates the deque; it polls the first topics and nothing else. */
  ghost predicate Rotated(s: State, u: Turn) {
    && u.polled <= |s.topics|
    && u.topics == s.topics[u.polled..] + s.topics[..u.polled]
    && u.consumers.Keys == s.consumers.Keys
    && !u.missing
    && SumOf(u.consumers) == SumOf(s.consumers) + (if u.yielded.Some? then 1 else 0)
    && (forall t :: t in u.failed ==> t in s.topics[..u.polled])
    && (u.yielded.Some? ==> u.polled >= 1)
  }

  lemma RotateSeq(ts: seq<TopicName>, k: nat)
    requires k < |ts|
    ensures (ts[k..] + ts[..k])[0] == ts[k]
    ensures (ts[k..] + ts[..k])[1..] + [ts[k]] == ts[k + 1..] + ts[..k + 1]
    ensures ts[..k + 1] == ts[..k] + [ts[k]]
  {
  }

  /** What one poll changes besides the deque. */
  lemma TurnOneFacts(u: Turn, o: Outcome)
    requires u.topics != [] && u.topics[0] in u.consumers && u.yielded.None?
    ensures var u' := TurnOne(u, o);
            && u'.consumers.Keys == u.consumers.Keys && u'.missing == u.missing
            && SumOf(u'.consumers) == SumOf(u.consumers) + (if u'.yielded.Some? then 1 else 0)
            && (u'.failed == u.failed || u'.failed == u.failed + [u.topics[0]])
  {
    var t := u.topics[0];
    if o == Yields {
      SumUpdate(u.consumers, t, u.consumers[t] + 1);
    }
  }

  lemma RotateOnce(s: State, u: Turn, o: Outcome)
    requires NamesAgree(s) && Rotated(s, u) && u.yielded.None? && u.polled < |s.topics|
    ensures Rotated(s, TurnOne(u, o)) && TurnOne(u, o).polled == u.polled + 1
  {
    var k := u.polled;
    var t := s.topics[k];
    RotateSeq(s.topics, k);
    assert t in Names(s.topics);
    TurnOneFacts(u, o);
    var u' := TurnOne(u, o);
    assert u'.topics == s.topics[k + 1..] + s.topics[..k + 1];
    forall x | x in u'.failed ensures x in s.topics[..u'.polled] {
      assert x in u.failed || x == t;
    }
  }

  lemma {:induction false} TurnedIsRotated(s: State, outcomes: seq<Outcome>)
    requires NamesAgree(s) && |outcomes| <= |s.topics|
    ensures var u := Turned(s, outcomes);
            Rotated(s, u) && u.polled <= |outcomes| && (u.yielded.None? ==> u.polled == |outcomes|)
  {
    if outcomes == [] {
      assert s.topics[0..] + s.topics[..0] == s.topics;
    } else {
      TurnedIsRotated(s, Front(outcomes));
      var u := Turned(s, Front(outcomes));
      if u.yielded.None? {
        RotateOnce(s, u, Last(outcomes));
      }
    }
  }

  lemma {:induction false} RemoveKept(m: Consumers, departed: nat, gone: seq<TopicName>)
    ensures var (m', d') := Remove(m, departed, gone);
            m'.Keys == m.Keys - Names(gone) && SumOf(m') + d' == SumOf(m) + departed
  {
    if gone == [] {
    } else {
      RemoveKept(m, departed, Front(gone));
      var (m1, d1) := Remove(m, departed, Front(gone));
      var t := Last(gone);
      NamesSnoc(Front(gone), t);
      assert gone == Front(gone) + [t];
      if t in m1 {
        SumRemove(m1, t);
      }
    }
  }

  lemma {:induction false} WithoutNames(ts: seq<TopicName>, gone: seq<TopicName>)
    ensures Names(Without(ts, gone)) == Names(ts) - Names(gone)
  {
    if ts == [] {
    } else {
      WithoutNames(Front(ts), gone);
      NamesSnoc(Front(ts), Last(ts));
      assert ts == Front(ts) + [Last(ts)];
      NamesSnoc(Without(Front(ts), gone), Last(ts));
      assert Without(Front(ts), gone) + [] == Without(Front(ts), gone);
    }
  }

  lemma {:induction false} RotationKeepsNames(ts: seq<TopicName>, k: nat)
    requires k <= |ts|
    ensures Names(ts[k..] + ts[..k]) == Names(ts)
  {
  }

  lemma ScanKept(s: State, outcomes: seq<Outcome>)
    requires Agree(s) && |outcomes| >= |s.topics|
    ensures var s' := ScanSpec(s, outcomes);
            && Agree(s')
            && !Turning(s, outcomes).missing
            && MessagesReceivedSpec(s') == MessagesReceivedSpec(s) + (if Turning(s, outcomes).yielded.Some? then 1 else 0)
  {
    var u := Turning(s, outcomes);
    TurnedIsRotated(s, outcomes[..|s.topics|]);
    RotationKeepsNames(s.topics, u.polled);
    RemoveKept(u.consumers, s.departed, u.failed);
    WithoutNames(u.topics, u.failed);
  }

  lemma PollKept(s: State, pattern: bool, p: Poll)
    requires Agree(s) && Enough(s, pattern, p)
    ensures Agree(PollSpec(s, pattern, p))
    ensures MessagesReceivedSpec(PollSpec(s, pattern, p)) ==
            MessagesReceivedSpec(s) + (if YieldOf(s, pattern, p).Some? then 1 else 0)
    ensures !Turning(BeforeScan(s, pattern, p), p.outcomes).missing
  {
    BeforeScanKept(s, pattern, p);
    ScanKept(BeforeScan(s, pattern, p), p.outcomes);
  }

  /** The consumer as built: the first topics, sorted or discovered, and no discovery running. */
  function Built(names: seq<TopicName>): State {
    AddSpec(State(map[], [], None, 0), names)
  }

  /** The state after a sequence of polls, and how many messages they returned. */
  function After(names: seq<TopicName>, pattern: bool, polls: seq<Poll>): Option<(State, nat)> {
    if polls == [] then Some((Built(names), 0))
    else match After(names, pattern, Front(polls))
      case None => None
      case Some((s, n)) =>
        var p := Last(polls);
        if !Enough(s, pattern, p) then None
        else Some((PollSpec(s, pattern, p), n + if YieldOf(s, pattern, p).Some? then 1 else 0))
  }

  lemma BuiltAgrees(names: seq<TopicName>)
    ensures Agree(Built(names)) && MessagesReceivedSpec(Built(names)) == 0
  {
    AddKept(State(map[], [], None, 0), names);
  }

  /**
   Over any polls, with any topics discovered, refreshed and lost in between, the deque and the map
   hold the same names, a running discovery skips every name in use, and `messages_received()` is
   the number of messages ever returned.
   */
  lemma {:induction false} AgreementAndConservation(names: seq<TopicName>, pattern: bool, polls: seq<Poll>)
    ensures var r := After(names, pattern, polls);
            r.Some? ==>
              var (s, n) := r.value;
              && Names(s.topics) == s.consumers.Keys
              && (s.discovery.Some? ==> s.consumers.Keys <= s.discovery.value)
              && MessagesReceivedSpec(s) == n
  {
    if polls == [] {
      BuiltAgrees(names);
    } else {
      AgreementAndConservation(names, pattern, Front(polls));
      var before := After(names, pattern, Front(polls));
      if before.Some? && Enough(before.value.0, pattern, Last(polls)) {
        PollKept(before.value.0, pattern, Last(polls));
      }
    }
  }

  /** The branch for a name without a consumer is never taken. */
  lemma NoConsumerIsEverMissing(names: seq<TopicName>, pattern: bool, polls: seq<Poll>, p: Poll)
    requires After(names, pattern, polls).Some? && Enough(After(names, pattern, polls).value.0, pattern, p)
    ensures !Turning(BeforeScan(After(names, pattern, polls).value.0, pattern, p), p.outcomes).missing
  {
    AgreementAndConservation(names, pattern, polls);
    PollKept(After(names, pattern, polls).value.0, pattern, p);
  }

  lemma {:induction false} WithoutIsShorter(ts: seq<TopicName>, gone: seq<TopicName>)
    ensures |Without(ts, gone)| <= |ts|
  {
    if ts == [] {
    } else {
      WithoutIsShorter(Front(ts), gone);
    }
  }

  /** A topic at position `j` that stays is found at `j` or earlier once others are removed. */
  lemma {:induction false} WithoutMovesForward(ts: seq<TopicName>, gone: seq<TopicName>, j: nat)
    requires j < |ts| && ts[j] !in gone
    ensures exists i :: 0 <= i <= j && i < |Without(ts, gone)| && Without(ts, gone)[i] == ts[j]
  {
    if j < |ts| - 1 {
      WithoutMovesForward(Front(ts), gone, j);
      var i :| 0 <= i <= j && i < |Without(Front(ts), gone)| && Without(Front(ts), gone)[i] == ts[j];
      assert Without(ts, gone)[i] == ts[j];
    } else {
      WithoutIsShorter(Front(ts), gone);
      assert Without(ts, gone)[|Without(Front(ts), gone)|] == ts[j];
    }
  }

  /** The topics one call polls. */
  function PolledBy(s: State, pattern: bool, p: Poll): seq<TopicName>
    requires Enough(s, pattern, p)
  {
    var s1 := BeforeScan(s, pattern, p);
    var k := Turning(s1, p.outcomes).polled;
    if k <= |s1.topics| then s1.topics[..k] else []
  }

  lemma TurnBringsCloser(s: State, u: Turn, i: nat)
    requires Rotated(s, u) && i < |s.topics| && (u.yielded.None? ==> u.polled == |s.topics|)
    requires s.topics[i] !in s.topics[..u.polled]
    ensures exists j :: 0 <= j < i && j < |Without(u.topics, u.failed)| && Without(u.topics, u.failed)[j] == s.topics[i]
  {
    var t, k := s.topics[i], u.polled;
    assert k <= i;
    assert k >= 1 && t !in u.failed;
    assert u.topics[i - k] == t;
    WithoutMovesForward(u.topics, u.failed, i - k);
    var j :| 0 <= j <= i - k && j < |Without(u.topics, u.failed)| && Without(u.topics, u.failed)[j] == t;
    assert j < i;
  }

  /** A call polls the topic at position `i`, or leaves it strictly closer to the front. */
  lemma PolledOrCloser(s: State, pattern: bool, p: Poll, i: nat)
    requires Agree(s) && Enough(s, pattern, p) && i < |s.topics|
    ensures s.topics[i] in PolledBy(s, pattern, p) ||
            exists j :: 0 <= j < i && j < |PollSpec(s, pattern, p).topics| && PollSpec(s, pattern, p).topics[j] == s.topics[i]
  {
    var s1 := BeforeScan(s, pattern, p);
    BeforeScanKept(s, pattern, p);
    assert s1.topics[i] == s.topics[i];
    var u := Turning(s1, p.outcomes);
    TurnedIsRotated(s1, p.outcomes[..|s1.topics|]);
    assert PollSpec(s, pattern, p).topics == Without(u.topics, u.failed);
    if s1.topics[i] !in s1.topics[..u.polled] {
      TurnBringsCloser(s1, u, i);
    }
  }

  /** The environment has an outcome for every topic each call may poll. */
  predicate Possible(s: State, pattern: bool, polls: seq<Poll>)
    decreases |polls|
  {
    polls == [] || (Enough(s, pattern, polls[0]) && Possible(PollSpec(s, pattern, polls[0]), pattern, polls[1..]))
  }

  /** One of the first `n` calls polls the topic. */
  predicate PolledWithin(s: State, pattern: bool, polls: seq<Poll>, n: nat, t: TopicName)
    requires Possible(s, pattern, polls)
    decreases n
  {
    && n > 0 && polls != []
    && (t in PolledBy(s, pattern, polls[0]) ||
        PolledWithin(PollSpec(s, pattern, polls[0]), pattern, polls[1..], n - 1, t))
  }

  lemma {:induction false} PolledLater(s: State, pattern: bool, polls: seq<Poll>, n: nat, n': nat, t: TopicName)
    requires Possible(s, pattern, polls) && n <= n' && PolledWithin(s, pattern, polls, n, t)
    ensures PolledWithin(s, pattern, polls, n', t)
    decreases n
  {
    if t !in PolledBy(s, pattern, polls[0]) {
      PolledLater(PollSpec(s, pattern, polls[0]), pattern, polls[1..], n - 1, n' - 1, t);
    }
  }

  /**
   Bounded bypass: a topic with `i` topics ahead of it in the deque is polled by one of the next
   i + 1 calls, whatever they return and whatever topics come and go meanwhile.
   */
  lemma {:induction false} BoundedBypass(s: State, pattern: bool, polls: seq<Poll>, i: nat)
    requires Agree(s) && i < |s.topics| && |polls| > i && Possible(s, pattern, polls)
    ensures PolledWithin(s, pattern, polls, i + 1, s.topics[i])
    decreases i
  {
    var t, s' := s.topics[i], PollSpec(s, pattern, polls[0]);
    PolledOrCloser(s, pattern, polls[0], i);
    if t !in PolledBy(s, pattern, polls[0]) {
      var j :| 0 <= j < i && j < |s'.topics| && s'.topics[j] == t;
      PollKept(s, pattern, polls[0]);
      BoundedBypass(s', pattern, polls[1..], j);
      PolledLater(s', pattern, polls[1..], j + 1, i, t);
    }
  }
}
