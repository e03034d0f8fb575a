/**
 Retrying a send is safe: sequence ids are never reused, so an answer that arrives late, for an
 attempt already given up, can only ever be taken for that attempt.
 */
module Retry {
  import opened Prelude
  import opened BatchCodec
  import opened Producer
  import Multiplexer
  import Matching

  /** How many attempts were made for a given send. */
  function AttemptsFor(attempts: seq<Attempt>, send: nat): nat {
    if attempts == [] then 0
    else AttemptsFor(Front(attempts), send) + if Last(attempts).send == send then 1 else 0
  }

  lemma {:induction false} NoAttemptsYet(attempts: seq<Attempt>, send: nat)
    requires forall i :: 0 <= i < |attempts| ==> attempts[i].send < send
    ensures AttemptsFor(attempts, send) == 0
  {
    if attempts == [] {
    } else {
      NoAttemptsYet(Front(attempts), send);
      assert attempts[|attempts| - 1].send < send;
    }
  }

  /** Ids count the attempts; earlier sends had at most two, the one under way has had `n`. */
  ghost predicate Underway(attempts: seq<Attempt>, sends: nat, n: nat) {
    && (forall i :: 0 <= i < |attempts| ==> attempts[i].sequenceId == i && attempts[i].send <= sends)
    && (forall k: nat :: AttemptsFor(attempts, k) <= if k == sends then n else 2)
  }

  /** The n-th attempt of a producer carries sequence id n; no send is attempted more than twice. */
  ghost predicate Sequenced(s: State) {
    s.nextSequence == |s.attempts| && Underway(s.attempts, |s.results|, 0)
  }

  lemma AttemptKept(attempts: seq<Attempt>, sends: nat, n: nat, a: Attempt)
    requires Underway(attempts, sends, n) && a.sequenceId == |attempts| && a.send == sends
    ensures Underway(attempts + [a], sends, n + 1)
  {
  }

  lemma SendEnds(attempts: seq<Attempt>, sends: nat, n: nat)
    requires Underway(attempts, sends, n) && n <= 2
    ensures Underway(attempts, sends + 1, 0)
  {
    NoAttemptsYet(attempts, sends + 1);
  }

  lemma OneAttempt(attempts: seq<Attempt>, sends: nat, a: Attempt)
    requires Underway(attempts, sends, 0) && a.sequenceId == |attempts| && a.send == sends
    ensures Underway(attempts + [a], sends + 1, 0)
  {
    AttemptKept(attempts, sends, 0, a);
    SendEnds(attempts + [a], sends, 1);
  }

  lemma TwoAttempts(attempts: seq<Attempt>, sends: nat, a: Attempt, b: Attempt)
    requires Underway(attempts, sends, 0) && a.sequenceId == |attempts| && a.send == sends
    requires b.sequenceId == |attempts| + 1 && b.send == sends
    ensures Underway((attempts + [a]) + [b], sends + 1, 0)
  {
    AttemptKept(attempts, sends, 0, a);
    AttemptKept(attempts + [a], sends, 1, b);
    SendEnds((attempts + [a]) + [b], sends, 2);
  }

  /** A send makes one attempt or two, and returns one result. */
  lemma SendAttempts(s: State, luck: Luck)
    ensures var s' := SendSpec(s, luck).0;
            var a := Attempt(s.nextSequence, s.connection, |s.results|, luck.first);
            && |s'.results| == |s.results| + 1
            && (if s'.attempts == s.attempts + [a] then s'.nextSequence == s.nextSequence + 1
                else
                  && luck.reopening.Reopened? && s'.nextSequence == s.nextSequence + 2
                  && s'.attempts == (s.attempts + [a])
                     + [Attempt(s.nextSequence + 1, luck.reopening.connection, |s.results|, luck.second)])
  {
  }

  lemma SendSequenced(s: State, luck: Luck)
    requires Sequenced(s)
    ensures Sequenced(SendSpec(s, luck).0)
  {
    SendAttempts(s, luck);
    var a := Attempt(s.nextSequence, s.connection, |s.results|, luck.first);
    if SendSpec(s, luck).0.attempts == s.attempts + [a] {
      OneAttempt(s.attempts, |s.results|, a);
    } else {
      TwoAttempts(s.attempts, |s.results|, a,
                  Attempt(s.nextSequence + 1, luck.reopening.connection, |s.results|, luck.second));
    }
  }

  lemma CallSequenced(p: Single, s: State, c: Call)
    requires Sequenced(s)
    ensures Sequenced(CallSpec(p, s, c))
  {
    SendSequenced(s, c.luck);
    SendSequenced(s.(queue := Some([])), c.luck);
  }

  /** Over a producer's whole life, reconnects included. */
  lemma {:induction false} AttemptsAreSequenced(p: Single, batchSize: Option<nat>, calls: seq<Call>)
    ensures Sequenced(After(p, batchSize, calls))
    ensures var attempts := After(p, batchSize, calls).attempts;
            && (forall i :: 0 <= i < |attempts| ==> attempts[i].sequenceId == i)
            && (forall k: nat :: AttemptsFor(attempts, k) <= 2)
  {
    if calls == [] {
    } else {
      AttemptsAreSequenced(p, batchSize, Front(calls));
      CallSequenced(p, After(p, batchSize, Front(calls)), Last(calls));
    }
  }

  lemma SequenceIdsIncrease(p: Single, batchSize: Option<nat>, calls: seq<Call>, i: nat, j: nat)
    requires i < j < |After(p, batchSize, calls).attempts|
    ensures After(p, batchSize, calls).attempts[i].sequenceId < After(p, batchSize, calls).attempts[j].sequenceId
  {
    AttemptsAreSequenced(p, batchSize, calls);
  }

  /** Attempt `i` was made for send `n` and got this answer. */
  predicate Answers(attempts: seq<Attempt>, i: nat, n: nat, f: Frame) {
    i < |attempts| && attempts[i].send == n && attempts[i].outcome == Answered(f)
  }

  ghost predicate ResultAnswered(attempts: seq<Attempt>, n: nat, r: SendResult) {
    r.Ok? ==> exists i: nat :: Answers(attempts, i, n, r.value)
  }

  ghost predicate ResultsAnswered(attempts: seq<Attempt>, results: seq<SendResult>) {
    forall n :: 0 <= n < |results| ==> ResultAnswered(attempts, n, results[n])
  }

  lemma AnsweredStays(attempts: seq<Attempt>, more: seq<Attempt>, n: nat, r: SendResult)
    requires attempts <= more && ResultAnswered(attempts, n, r)
    ensures ResultAnswered(more, n, r)
  {
    if r.Ok? {
      var i: nat :| Answers(attempts, i, n, r.value);
      assert Answers(more, i, n, r.value);
    }
  }

  /** A receipt is the answer to the last attempt made for it. */
  lemma SendAnswered(s: State, luck: Luck)
    requires ResultsAnswered(s.attempts, s.results)
    ensures var s' := SendSpec(s, luck).0; ResultsAnswered(s'.attempts, s'.results)
  {
    var (s', r) := SendSpec(s, luck);
    assert s.attempts <= s'.attempts && s'.results == s.results + [r];
    forall n | 0 <= n < |s'.results| ensures ResultAnswered(s'.attempts, n, s'.results[n]) {
      if n < |s.results| {
        AnsweredStays(s.attempts, s'.attempts, n, s.results[n]);
      } else if r.Ok? {
        assert Answers(s'.attempts, |s'.attempts| - 1, n, r.value);
      }
    }
  }

  lemma CallAnswered(p: Single, s: State, c: Call)
    requires ResultsAnswered(s.attempts, s.results)
    ensures var s' := CallSpec(p, s, c); ResultsAnswered(s'.attempts, s'.results)
  {
    SendAnswered(s, c.luck);
    SendAnswered(s.(queue := Some([])), c.luck);
  }

  lemma {:induction false} EveryResultAnswered(p: Single, batchSize: Option<nat>, calls: seq<Call>)
    ensures var s := After(p, batchSize, calls); ResultsAnswered(s.attempts, s.results)
  {
    if calls == [] {
    } else {
      EveryResultAnswered(p, batchSize, Front(calls));
      CallAnswered(p, After(p, batchSize, Front(calls)), Last(calls));
    }
  }

  predicate RegistersOwnKey(attempts: seq<Attempt>, producerId: nat, i: Multiplexer.Input) {
    i.Registered? && i.reg.Request? && i.reg.resolver < |attempts| ==>
      i.reg.key == Multiplexer.ProducerSend(producerId, attempts[i.reg.resolver].sequenceId)
  }

  /**
   `wire(c)` is the trace of the receiver of connection `c`, which any attempts may share.  The
   oneshot sender of an attempt is named by the attempt's position, and registered only under the key
   of that attempt.
   */
  ghost predicate OwnKeysOnly(attempts: seq<Attempt>, producerId: nat, wire: nat -> seq<Multiplexer.Input>) {
    forall c: nat, p :: 0 <= p < |wire(c)| ==> RegistersOwnKey(attempts, producerId, wire(c)[p])
  }

  /** Every answer an attempt got in time was handed out by the receiver of its connection. */
  ghost predicate Received(attempts: seq<Attempt>, wire: nat -> seq<Multiplexer.Input>) {
    forall i :: 0 <= i < |attempts| && attempts[i].outcome.Answered? ==>
      Multiplexer.Resolved(i, attempts[i].outcome.frame) in Multiplexer.EffectsOf(wire(attempts[i].connection))
  }

  /** The key under which attempt `i` waits. */
  function KeyOfAttempt(producerId: nat, attempts: seq<Attempt>, i: nat): Option<Multiplexer.RequestKey>
    requires i < |attempts|
  {
    Some(Multiplexer.ProducerSend(producerId, attempts[i].sequenceId))
  }

  /** Whatever a receiver ever hands to an attempt, in time or late, carries that attempt's own sequence id. */
  lemma AnswerCarriesOwnKey(attempts: seq<Attempt>, producerId: nat, trace: seq<Multiplexer.Input>, i: nat, f: Frame)
    requires i < |attempts| && Multiplexer.Resolved(i, f) in Multiplexer.EffectsOf(trace)
    requires forall p :: 0 <= p < |trace| ==> RegistersOwnKey(attempts, producerId, trace[p])
    ensures Multiplexer.KeyOf(f) == KeyOfAttempt(producerId, attempts, i)
  {
    Matching.OnlyAskedForAnswers(trace, i, f);
    var p :| 0 <= p < |trace| && Matching.Asked(trace[p], i, f);
    assert RegistersOwnKey(attempts, producerId, trace[p]);
  }

  /**
   A frame that answers one attempt, however late and whether or not that attempt was given up, is
   never handed to another attempt, of this message or any other, on any connection.
   */
  lemma LateReceiptsNeverCross(p: Single, batchSize: Option<nat>, calls: seq<Call>, producerId: nat,
                               wire: nat -> seq<Multiplexer.Input>, i: nat, j: nat, f: Frame, c: nat)
    requires var attempts := After(p, batchSize, calls).attempts;
             && OwnKeysOnly(attempts, producerId, wire)
             && i < |attempts| && j < |attempts| && i != j
             && Multiplexer.KeyOf(f) == KeyOfAttempt(producerId, attempts, i)
    ensures Multiplexer.Resolved(j, f) !in Multiplexer.EffectsOf(wire(c))
  {
    var attempts := After(p, batchSize, calls).attempts;
    AttemptsAreSequenced(p, batchSize, calls);
    if Multiplexer.Resolved(j, f) in Multiplexer.EffectsOf(wire(c)) {
      AnswerCarriesOwnKey(attempts, producerId, wire(c), j, f);
    }
  }

  /** The frame carries the key of one of the attempts of send `n`, and of no attempt of another send. */
  ghost predicate AnswersOnly(attempts: seq<Attempt>, producerId: nat, n: nat, f: Frame) {
    && (exists i: nat :: Answers(attempts, i, n, f) && Multiplexer.KeyOf(f) == KeyOfAttempt(producerId, attempts, i))
    && (forall j :: 0 <= j < |attempts| && Multiplexer.KeyOf(f) == KeyOfAttempt(producerId, attempts, j) ==>
          attempts[j].send == n)
  }

  lemma KeysIdentifySends(attempts: seq<Attempt>, producerId: nat, i: nat, n: nat, f: Frame)
    requires Answers(attempts, i, n, f) && Multiplexer.KeyOf(f) == KeyOfAttempt(producerId, attempts, i)
    requires forall j :: 0 <= j < |attempts| ==> attempts[j].sequenceId == j
    ensures AnswersOnly(attempts, producerId, n, f)
  {
  }

  lemma ReceiptAnswersOwnSend(attempts: seq<Attempt>, producerId: nat, wire: nat -> seq<Multiplexer.Input>, n: nat,
                              r: SendResult)
    requires forall j :: 0 <= j < |attempts| ==> attempts[j].sequenceId == j
    requires OwnKeysOnly(attempts, producerId, wire) && Received(attempts, wire)
    requires r.Ok? && ResultAnswered(attempts, n, r)
    ensures AnswersOnly(attempts, producerId, n, r.value)
  {
    var i: nat :| Answers(attempts, i, n, r.value);
    AnswerCarriesOwnKey(attempts, producerId, wire(attempts[i].connection), i, r.value);
    KeysIdentifySends(attempts, producerId, i, n, r.value);
  }

  /**
   Over a producer's whole life, a receipt that a send returned carries the key of one of that send's
   own attempts, and of no attempt of any other send.
   */
  lemma ReceiptsAnswerTheirOwnSend(p: Single, batchSize: Option<nat>, calls: seq<Call>, producerId: nat,
                                   wire: nat -> seq<Multiplexer.Input>, n: nat)
    requires var s := After(p, batchSize, calls);
             && OwnKeysOnly(s.attempts, producerId, wire) && Received(s.attempts, wire)
             && n < |s.results| && s.results[n].Ok?
    ensures var s := After(p, batchSize, calls);
            AnswersOnly(s.attempts, producerId, n, s.results[n].value)
  {
    var s := After(p, batchSize, calls);
    AttemptsAreSequenced(p, batchSize, calls);
    EveryResultAnswered(p, batchSize, calls);
    ReceiptAnswersOwnSend(s.attempts, producerId, wire, n, s.results[n]);
  }

  function Receipt(producerId: nat, sequenceId: nat): Frame {
    Multiplexer.Message(Multiplexer.Publish(Multiplexer.SendReceipt, producerId, sequenceId), 0)
  }

  /** A time-out leaves the connection valid, so both attempts of a send can meet in one receiver. */
  function SharedReceiver(id: nat): seq<Multiplexer.Input> {
    [] + [Multiplexer.Registered(Multiplexer.Request(Multiplexer.ProducerSend(id, 0), 0))]
    + [Multiplexer.Registered(Multiplexer.Request(Multiplexer.ProducerSend(id, 1), 1))]
    + [Multiplexer.Arrived(Receipt(id, 0))] + [Multiplexer.Arrived(Receipt(id, 1))]
  }

  /** There the late receipt goes to the attempt given up, and the retry gets its own. */
  lemma RetryCanShareItsReceiver(id: nat)
    ensures var (s, r) := SendSpec(Fresh(None), Luck(TimedOut, Reopened(0), Answered(Receipt(id, 1))));
            && r == Ok(Receipt(id, 1))
            && |s.attempts| == 2 && s.attempts[0].connection == s.attempts[1].connection == 0
            && OwnKeysOnly(s.attempts, id, c => SharedReceiver(id)) && Received(s.attempts, c => SharedReceiver(id))
            && Multiplexer.EffectsOf(SharedReceiver(id)) ==
               [Multiplexer.Resolved(0, Receipt(id, 0)), Multiplexer.Resolved(1, Receipt(id, 1))]
  {
    var i0, i1 := SharedReceiver(id)[0], SharedReceiver(id)[1];
    var i2, i3 := SharedReceiver(id)[2], SharedReceiver(id)[3];
    Multiplexer.RunSnoc(Multiplexer.EMPTY, [], i0);
    Multiplexer.RunSnoc(Multiplexer.EMPTY, [] + [i0], i1);
    Multiplexer.RunSnoc(Multiplexer.EMPTY, [] + [i0] + [i1], i2);
    Multiplexer.RunSnoc(Multiplexer.EMPTY, [] + [i0] + [i1] + [i2], i3);
  }
}
