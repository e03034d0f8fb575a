/**
 What a call of the multi-topic consumer does, told by the positions of the deque and what polling
 each of them yields; and what a discovery adds.
 */
module Polling {
  import opened Prelude
  import opened MultiTopic

  /** The first position that yields a message. */
  function FirstYield(outcomes: seq<Outcome>): Option<nat> {
    if outcomes == [] then None
    else if FirstYield(Front(outcomes)).Some? then FirstYield(Front(outcomes))
    else if Last(outcomes) == Yields then Some(|outcomes| - 1)
    else None
  }

  lemma {:induction false} FirstYieldIsFirst(outcomes: seq<Outcome>)
    ensures match FirstYield(outcomes)
            case Some(i) => i < |outcomes| && outcomes[i] == Yields && forall j :: 0 <= j < i ==> outcomes[j] != Yields
            case None => forall j :: 0 <= j < |outcomes| ==> outcomes[j] != Yields
  {
    if outcomes == [] {
    } else {
      FirstYieldIsFirst(Front(outcomes));
    }
  }

  /** Topics are polled up to the first that yields. */
  function PolledCount(outcomes: seq<Outcome>): nat {
    if FirstYield(outcomes).Some? then FirstYield(outcomes).value + 1 else |outcomes|
  }

  predicate Fails(o: Outcome) {
    o == StreamEnded || o == StreamFailed
  }

  predicate FailsAt(topics: seq<TopicName>, outcomes: seq<Outcome>, t: TopicName, i: nat) {
    i < |topics| && i < |outcomes| && topics[i] == t && Fails(outcomes[i])
  }

  /** One of the positions polled holds the topic and failed. */
  ghost predicate Broke(topics: seq<TopicName>, outcomes: seq<Outcome>, t: TopicName) {
    exists i: nat :: i < PolledCount(outcomes) && FailsAt(topics, outcomes, t, i)
  }

  /** Who failed, by positions and outcomes. */
  ghost predicate FailedBy(s: State, outcomes: seq<Outcome>, failed: seq<TopicName>) {
    forall t :: t in failed <==> Broke(s.topics, outcomes, t)
  }

  /** How many were polled and who yielded, by positions and outcomes. */
  ghost predicate YieldedBy(s: State, outcomes: seq<Outcome>, u: Turn)
    requires |outcomes| <= |s.topics|
  {
    && u.polled == PolledCount(outcomes) <= |outcomes|
    && match FirstYield(outcomes)
       case None => u.yielded == None && u.consumers == s.consumers
       case Some(i) =>
         && i < |outcomes| && u.yielded == Some(s.topics[i])
         && s.topics[i] in s.consumers && u.consumers == s.consumers[s.topics[i] := s.consumers[s.topics[i]] + 1]
  }

  lemma CountSnoc(outcomes: seq<Outcome>, o: Outcome)
    ensures FirstYield(outcomes + [o]) ==
            if FirstYield(outcomes).Some? then FirstYield(outcomes) else if o == Yields then Some(|outcomes|) else None
    ensures FirstYield(outcomes).Some? ==> FirstYield(outcomes).value < |outcomes|
  {
    assert Front(outcomes + [o]) == outcomes;
    FirstYieldIsFirst(outcomes);
  }

  lemma BrokeStays(topics: seq<TopicName>, outcomes: seq<Outcome>, o: Outcome, t: TopicName)
    requires FirstYield(outcomes).Some?
    ensures Broke(topics, outcomes + [o], t) <==> Broke(topics, outcomes, t)
  {
    CountSnoc(outcomes, o);
    var k := PolledCount(outcomes);
    assert forall i: nat :: i < k ==> (FailsAt(topics, outcomes + [o], t, i) <==> FailsAt(topics, outcomes, t, i));
  }

  lemma BrokeGrows(topics: seq<TopicName>, outcomes: seq<Outcome>, o: Outcome, t: TopicName)
    requires FirstYield(outcomes).None? && |outcomes| < |topics|
    ensures Broke(topics, outcomes + [o], t) <==>
            Broke(topics, outcomes, t) || (topics[|outcomes|] == t && Fails(o))
  {
    CountSnoc(outcomes, o);
    var n := |outcomes|;
    assert PolledCount(outcomes + [o]) == n + 1 && PolledCount(outcomes) == n;
    assert forall i: nat :: i < n ==> (FailsAt(topics, outcomes + [o], t, i) <==> FailsAt(topics, outcomes, t, i));
    assert FailsAt(topics, outcomes + [o], t, n) <==> topics[n] == t && Fails(o);
  }

  /** What one poll of the front adds. */
  lemma TurnOneByOutcome(u: Turn, o: Outcome)
    requires u.topics != [] && u.topics[0] in u.consumers
    ensures var t, u' := u.topics[0], TurnOne(u, o);
            && u'.polled == u.polled + 1
            && u'.failed == (if Fails(o) then u.failed + [t] else u.failed)
            && u'.yielded == (if o == Yields then Some(t) else u.yielded)
            && u'.consumers == (if o == Yields then u.consumers[t := u.consumers[t] + 1] else u.consumers)
  {
  }

  lemma FailedByOutcome(s: State, outcomes: seq<Outcome>, o: Outcome, failed: seq<TopicName>, failed': seq<TopicName>)
    requires |outcomes| < |s.topics| && FirstYield(outcomes).None? && FailedBy(s, outcomes, failed)
    requires failed' == if Fails(o) then failed + [s.topics[|outcomes|]] else failed
    ensures FailedBy(s, outcomes + [o], failed')
  {
    forall t ensures t in failed' <==> Broke(s.topics, outcomes + [o], t) {
      BrokeGrows(s.topics, outcomes, o, t);
    }
  }

  lemma YieldedByOutcome(s: State, outcomes: seq<Outcome>, o: Outcome, u: Turn)
    requires |outcomes| < |s.topics| && YieldedBy(s, outcomes, u) && FirstYield(outcomes).None?
    requires u.topics != [] && u.topics[0] == s.topics[|outcomes|] && u.topics[0] in s.consumers
    ensures YieldedBy(s, outcomes + [o], TurnOne(u, o))
  {
    CountSnoc(outcomes, o);
    TurnOneByOutcome(u, o);
  }

  lemma DoneByOutcome(s: State, outcomes: seq<Outcome>, o: Outcome, u: Turn)
    requires |outcomes| < |s.topics| && FirstYield(outcomes).Some?
    requires YieldedBy(s, outcomes, u) && FailedBy(s, outcomes, u.failed)
    ensures YieldedBy(s, outcomes + [o], u) && FailedBy(s, outcomes + [o], u.failed)
  {
    CountSnoc(outcomes, o);
    forall t ensures t in u.failed <==> Broke(s.topics, outcomes + [o], t) {
      BrokeStays(s.topics, outcomes, o, t);
    }
  }

  lemma FrontIsNext(s: State, u: Turn)
    requires NamesAgree(s) && Rotated(s, u) && u.polled < |s.topics|
    ensures u.topics != [] && u.topics[0] == s.topics[u.polled] && u.topics[0] in s.consumers
  {
    assert s.topics[u.polled] in Names(s.topics);
  }

  lemma {:induction false} LoopByOutcomes(s: State, outcomes: seq<Outcome>)
    requires NamesAgree(s) && |outcomes| <= |s.topics|
    ensures YieldedBy(s, outcomes, Turned(s, outcomes)) && FailedBy(s, outcomes, Turned(s, outcomes).failed)
  {
    if outcomes == [] {
    } else {
      var front, o := Front(outcomes), Last(outcomes);
      LoopByOutcomes(s, front);
      TurnedIsRotated(s, front);
      var u := Turned(s, front);
      assert outcomes == front + [o];
      if FirstYield(front).Some? {
        DoneByOutcome(s, front, o, u);
      } else {
        FrontIsNext(s, u);
        TurnOneByOutcome(u, o);
        YieldedByOutcome(s, front, o, u);
        FailedByOutcome(s, front, o, u.failed, TurnOne(u, o).failed);
      }
    }
  }

  /**
   What one turn of the deque does to an agreeing state: the topics that stay are those that did not
   fail where they were polled; the first that yields, and no other, has its count raised; and it is
   the one returned.
   */
  ghost predicate ScannedBy(s: State, outcomes: seq<Outcome>, s': State, yielded: Option<TopicName>)
    requires |outcomes| == |s.topics|
  {
    && (forall t :: t in s'.consumers <==> t in s.consumers && !Broke(s.topics, outcomes, t))
    && (forall t :: t in s'.topics <==> t in s.topics && !Broke(s.topics, outcomes, t))
    && (forall t :: t in s'.consumers && t in s.consumers ==>
          s'.consumers[t] == s.consumers[t] + if yielded == Some(t) then 1 else 0)
    && (match FirstYield(outcomes)
        case None => yielded == None
        case Some(i) => i < |outcomes| && yielded == Some(s.topics[i]))
    && s'.discovery == s.discovery
  }

  lemma TopicsLeft(s: State, u: Turn, t: TopicName)
    requires Rotated(s, u)
    ensures t in Without(u.topics, u.failed) <==> t in s.topics && t !in u.failed
  {
    WithoutNames(u.topics, u.failed);
    RotationKeepsNames(s.topics, u.polled);
    assert t in Names(Without(u.topics, u.failed)) <==> t in Names(u.topics) && t !in Names(u.failed);
    assert t in Names(u.topics) <==> t in Names(s.topics);
  }

  lemma {:induction false} RemoveKeepsCounts(m: Consumers, departed: nat, gone: seq<TopicName>)
    ensures var m' := Remove(m, departed, gone).0;
            && (forall t :: t in m' <==> t in m && t !in gone)
            && (forall t :: t in m' && t in m ==> m'[t] == m[t])
  {
    if gone == [] {
    } else {
      RemoveKeepsCounts(m, departed, Front(gone));
      assert forall t :: t in gone <==> t in Front(gone) || t == Last(gone);
    }
  }

  /** The loop of a call, from positions and outcomes. */
  lemma ScanByOutcomes(s: State, outcomes: seq<Outcome>)
    requires Agree(s) && |outcomes| >= |s.topics|
    ensures ScannedBy(s, outcomes[..|s.topics|], ScanSpec(s, outcomes), Turning(s, outcomes).yielded)
  {
    var os := outcomes[..|s.topics|];
    var u := Turning(s, outcomes);
    LoopByOutcomes(s, os);
    TurnedIsRotated(s, os);
    RemoveKeepsCounts(u.consumers, s.departed, u.failed);
    forall t ensures t in ScanSpec(s, outcomes).topics <==> t in s.topics && !Broke(s.topics, os, t) {
      TopicsLeft(s, u, t);
    }
  }

  /**
   A whole call, from any state in which names and consumers agree: the refreshes that fire, one more
   look at the discovery, and a turn of the deque.
   */
  lemma PollByOutcomes(s: State, pattern: bool, p: Poll)
    requires Agree(s) && Enough(s, pattern, p)
    ensures var s1 := DiscoverySpec(Refreshed(s, pattern, p.refreshes), p.finding);
            && |p.outcomes| >= |s1.topics|
            && ScannedBy(s1, p.outcomes[..|s1.topics|], PollSpec(s, pattern, p), YieldOf(s, pattern, p))
  {
    BeforeScanKept(s, pattern, p);
    ScanByOutcomes(BeforeScan(s, pattern, p), p.outcomes);
  }

  lemma {:induction false} UnknownExactly(names: seq<TopicName>, known: set<TopicName>, t: TopicName)
    ensures t in Unknown(names, known) <==> t in names && t !in known
  {
    if names == [] {
    } else {
      UnknownExactly(Front(names), known, t);
      assert t in names <==> t in Front(names) || t == Last(names);
    }
  }

  lemma {:induction false} AddExactly(s: State, names: seq<TopicName>)
    ensures var s' := AddSpec(s, names);
            && s'.topics == s.topics + names && s'.discovery == s.discovery && s'.departed == s.departed
            && (forall t :: t in s'.consumers <==> t in s.consumers || t in names)
            && (forall t :: t in s'.consumers ==> s'.consumers[t] == if t in names then 0 else s.consumers[t])
  {
    if names == [] {
    } else {
      AddExactly(s, Front(names));
      assert forall t :: t in names <==> t in Front(names) || t == Last(names);
      assert names == Front(names) + [Last(names)];
    }
  }

  /** The name is new to the discovery that found it. */
  predicate New(s: State, f: Finding, t: TopicName) {
    s.discovery.Some? && f.Found? && t in f.names && t !in s.discovery.value
  }

  /**
   A discovery that finds names adds exactly those outside its snapshot, at the back and with nothing
   counted; one that gives up is dropped; one that still runs stays.
   */
  lemma DiscoveryExactly(s: State, f: Finding)
    requires Agree(s)
    ensures var s' := DiscoverySpec(s, f);
            && (s'.discovery == if f.StillRunning? then s.discovery else None)
            && s.topics <= s'.topics && s'.departed == s.departed
            && (forall t :: t in s'.topics[|s.topics|..] <==> New(s, f, t))
            && (forall t :: t in s'.consumers <==> t in s.consumers || New(s, f, t))
            && (forall t :: t in s'.consumers ==> s'.consumers[t] == if t in s.consumers then s.consumers[t] else 0)
  {
    if s.discovery.Some? && f.Found? {
      var added := Unknown(f.names, s.discovery.value);
      forall t ensures t in added <==> New(s, f, t) {
        UnknownExactly(f.names, s.discovery.value, t);
      }
      AddExactly(s.(discovery := None), added);
      assert (s.topics + added)[|s.topics|..] == added;
    }
  }

  /**
   A refresh that fires comes after a look at the discovery, and starts a discovery exactly when there
   is a pattern; it skips the names in use.
   */
  lemma RefreshExactly(s: State, pattern: bool, findings: seq<Finding>, f: Finding)
    ensures Refreshed(s, pattern, []) == s
    ensures var before := DiscoverySpec(Refreshed(s, pattern, findings), f);
            var s' := Refreshed(s, pattern, findings + [f]);
            && s'.discovery == (if pattern then Some(before.consumers.Keys) else before.discovery)
            && s' == before.(discovery := s'.discovery)
  {
    assert Front(findings + [f]) == findings;
  }
}
