/**
 How a send is tried and what it returns, told from the calls made and what the network did.

 A send is tried a second time exactly when the first attempt was cut off or timed out and the
 reconnect after it succeeded; it succeeds exactly when its last attempt was answered by a receipt.
 */
module Verdicts {
  import opened Prelude
  import opened BatchCodec
  import opened Producer
  import Multiplexer

  predicate IsReceipt(f: Frame) {
    match f.command
    case Publish(kind, _, _) => kind == Multiplexer.SendReceipt
    case _ => false
  }

  /** The outcomes after which a send reconnects. */
  predicate CutOff(o: Outcome) {
    o.Disconnected? || o.TimedOut?
  }

  /** The outcomes of the attempts that a send makes. */
  function Tried(luck: Luck): (os: seq<Outcome>)
    ensures 1 <= |os| <= 2
  {
    if CutOff(luck.first) && luck.reopening.Reopened? then [luck.first, luck.second] else [luck.first]
  }

  function Verdict(luck: Luck): SendResult {
    match Last(Tried(luck))
    case Answered(f) => if IsReceipt(f) then Ok(f) else Err(Refused(f))
    case _ => if CutOff(luck.first) && |Tried(luck)| == 1 then Err(ReconnectError) else Err(Broken)
  }

  /** The connection in use after a send. */
  function Moved(connection: nat, luck: Luck): nat {
    if !CutOff(luck.first) || luck.reopening.FailedEarly? then connection else luck.reopening.connection
  }

  function ConnectionAfter(lucks: seq<Luck>): nat {
    if lucks == [] then 0 else Moved(ConnectionAfter(Front(lucks)), Last(lucks))
  }

  /** Whether a call sends: alone without batching, a batch when it is full, what is queued when asked to. */
  predicate Sends(s: State, c: Call) {
    match c
    case SendRaw(_, _, _) => s.queue.None? || s.batchSize.None? || |s.queue.value| + 1 >= s.batchSize.value
    case SendBatch(_) => s.queue.Some? && s.queue.value != []
  }

  /** What the network did during each send of a producer's life. */
  function Sent(p: Single, batchSize: Option<nat>, calls: seq<Call>): seq<Luck> {
    if calls == [] then []
    else
      var s := After(p, batchSize, Front(calls));
      Sent(p, batchSize, Front(calls)) + if Sends(s, Last(calls)) then [Last(calls).luck] else []
  }

  /** The attempts of send `n`. */
  function AttemptsOf(attempts: seq<Attempt>, n: nat): seq<Attempt> {
    if attempts == [] then []
    else AttemptsOf(Front(attempts), n) + if Last(attempts).send == n then [Last(attempts)] else []
  }

  /** The attempts made are those that the network called for, over the right connections. */
  ghost predicate TriedAs(made: seq<Attempt>, luck: Luck, connection: nat) {
    && |made| == |Tried(luck)|
    && (forall i :: 0 <= i < |made| ==> made[i].outcome == Tried(luck)[i])
    && made[0].connection == connection
    && (|made| == 2 && luck.reopening.Reopened? ==> made[1].connection == luck.reopening.connection)
  }

  ghost predicate Judged(attempts: seq<Attempt>, results: seq<SendResult>, lucks: seq<Luck>, n: nat)
    requires n < |lucks| && n < |results|
  {
    results[n] == Verdict(lucks[n]) && TriedAs(AttemptsOf(attempts, n), lucks[n], ConnectionAfter(lucks[..n]))
  }

  ghost predicate Life(s: State, lucks: seq<Luck>) {
    && |s.results| == |lucks| && s.connection == ConnectionAfter(lucks)
    && (forall i :: 0 <= i < |s.attempts| ==> s.attempts[i].send < |lucks|)
    && (forall n :: 0 <= n < |lucks| ==> Judged(s.attempts, s.results, lucks, n))
  }

  /** The attempts that a send adds. */
  function NewAttempts(s: State, luck: Luck): seq<Attempt> {
    var first := Attempt(s.nextSequence, s.connection, |s.results|, luck.first);
    if |Tried(luck)| == 1 || !luck.reopening.Reopened? then [first]
    else [first, Attempt(s.nextSequence + 1, luck.reopening.connection, |s.results|, luck.second)]
  }

  lemma SendByLuck(s: State, luck: Luck)
    ensures var (s', r) := SendSpec(s, luck);
            && s'.attempts == s.attempts + NewAttempts(s, luck)
            && s'.results == s.results + [Verdict(luck)] && r == Verdict(luck)
            && s'.connection == Moved(s.connection, luck)
  {
  }

  lemma {:induction false} AttemptsOfAppend(a: seq<Attempt>, b: seq<Attempt>, n: nat)
    ensures AttemptsOf(a + b, n) == AttemptsOf(a, n) + AttemptsOf(b, n)
  {
    if b == [] {
      assert a + b == a;
    } else {
      assert Front(a + b) == a + Front(b);
      AttemptsOfAppend(a, Front(b), n);
    }
  }

  lemma {:induction false} AllOrNone(a: seq<Attempt>, n: nat)
    ensures (forall i :: 0 <= i < |a| ==> a[i].send == n) ==> AttemptsOf(a, n) == a
    ensures (forall i :: 0 <= i < |a| ==> a[i].send != n) ==> AttemptsOf(a, n) == []
  {
    if a == [] {
    } else {
      AllOrNone(Front(a), n);
      assert forall i :: 0 <= i < |Front(a)| ==> Front(a)[i] == a[i];
      assert Last(a) == a[|a| - 1];
    }
  }

  lemma JudgedStays(s: State, lucks: seq<Luck>, luck: Luck, more: seq<Attempt>, r: SendResult, n: nat)
    requires Life(s, lucks) && n < |lucks| && forall i :: 0 <= i < |more| ==> more[i].send == |lucks|
    ensures Judged(s.attempts + more, s.results + [r], lucks + [luck], n)
  {
    AttemptsOfAppend(s.attempts, more, n);
    AllOrNone(more, n);
    assert (lucks + [luck])[..n] == lucks[..n];
    assert Judged(s.attempts, s.results, lucks, n);
  }

  lemma NewAttemptsTried(s: State, luck: Luck)
    ensures TriedAs(NewAttempts(s, luck), luck, s.connection)
    ensures forall i :: 0 <= i < |NewAttempts(s, luck)| ==> NewAttempts(s, luck)[i].send == |s.results|
  {
  }

  lemma LastAttemptsOf(attempts: seq<Attempt>, more: seq<Attempt>, n: nat)
    requires forall i :: 0 <= i < |attempts| ==> attempts[i].send != n
    requires forall i :: 0 <= i < |more| ==> more[i].send == n
    ensures AttemptsOf(attempts + more, n) == more
  {
    AttemptsOfAppend(attempts, more, n);
    AllOrNone(attempts, n);
    AllOrNone(more, n);
  }

  lemma JudgedLast(s: State, lucks: seq<Luck>, luck: Luck)
    requires Life(s, lucks)
    ensures Judged(s.attempts + NewAttempts(s, luck), s.results + [Verdict(luck)], lucks + [luck], |lucks|)
  {
    NewAttemptsTried(s, luck);
    LastAttemptsOf(s.attempts, NewAttempts(s, luck), |lucks|);
    assert (lucks + [luck])[..|lucks|] == lucks;
  }

  lemma SendLives(s: State, lucks: seq<Luck>, luck: Luck)
    requires Life(s, lucks)
    ensures Life(SendSpec(s, luck).0, lucks + [luck])
  {
    SendByLuck(s, luck);
    var s' := SendSpec(s, luck).0;
    assert Front(lucks + [luck]) == lucks;
    forall n | 0 <= n < |lucks + [luck]| ensures Judged(s'.attempts, s'.results, lucks + [luck], n) {
      if n < |lucks| {
        JudgedStays(s, lucks, luck, NewAttempts(s, luck), Verdict(luck), n);
      } else {
        JudgedLast(s, lucks, luck);
      }
    }
  }

  lemma CallLives(p: Single, s: State, c: Call, lucks: seq<Luck>)
    requires Life(s, lucks)
    ensures Life(CallSpec(p, s, c), lucks + if Sends(s, c) then [c.luck] else [])
  {
    assert lucks + [] == lucks;
    SendLives(s, lucks, c.luck);
    SendLives(s.(queue := Some([])), lucks, c.luck);
  }

  lemma {:induction false} WholeLife(p: Single, batchSize: Option<nat>, calls: seq<Call>)
    ensures Life(After(p, batchSize, calls), Sent(p, batchSize, calls))
  {
    if calls == [] {
    } else {
      WholeLife(p, batchSize, Front(calls));
      CallLives(p, After(p, batchSize, Front(calls)), Last(calls), Sent(p, batchSize, Front(calls)));
    }
  }

  /**
   Over a producer's whole life: a send returns Ok exactly when its last attempt was answered by a
   receipt, which is what it returns, and Refused exactly when it was answered by another frame; it
   has a second attempt exactly when the first was cut off and the reconnect succeeded; and it fails
   to reconnect exactly when the first was cut off and there is no second.
   */
  lemma ResultsFollowAttempts(p: Single, batchSize: Option<nat>, calls: seq<Call>, n: nat, f: Frame)
    requires n < |After(p, batchSize, calls).results|
    ensures n < |Sent(p, batchSize, calls)|
    ensures var s, luck := After(p, batchSize, calls), Sent(p, batchSize, calls)[n];
            var made := AttemptsOf(s.attempts, n);
            && 1 <= |made| <= 2 && made[0].outcome == luck.first
            && (|made| == 2 <==> CutOff(luck.first) && luck.reopening.Reopened?)
            && (s.results[n] == Ok(f) <==> Last(made).outcome == Answered(f) && IsReceipt(f))
            && (s.results[n] == Err(Refused(f)) <==> Last(made).outcome == Answered(f) && !IsReceipt(f))
            && (s.results[n] == Err(ReconnectError) <==> |made| == 1 && CutOff(made[0].outcome))
  {
    WholeLife(p, batchSize, calls);
    var s, lucks := After(p, batchSize, calls), Sent(p, batchSize, calls);
    assert Judged(s.attempts, s.results, lucks, n);
  }

  /** The raw sends of a run, and those that complete their receipt. */
  function RawResults(calls: seq<Call>): seq<SendResult> {
    if calls == [] then []
    else RawResults(Front(calls)) + if Last(calls).SendRaw? then [Verdict(Last(calls).luck)] else []
  }

  function Completed(calls: seq<Call>): seq<(Resolver, SendResult)> {
    if calls == [] then []
    else
      var c := Last(calls);
      Completed(Front(calls)) + if c.SendRaw? && Verdict(c.luck).Ok? then [(c.tx, Verdict(c.luck))] else []
  }

  /**
   Without batching every `send_raw` is one send of its own, whose receipt future is completed exactly
   when that send succeeded; `send_batch` does nothing.
   */
  lemma {:induction false} UnbatchedSends(p: Single, calls: seq<Call>)
    ensures var s := After(p, None, calls);
            && s.batchSize == None && s.queue == None && s.flushes == []
            && s.results == RawResults(calls) && s.resolved == Completed(calls)
  {
    if calls == [] {
    } else {
      UnbatchedSends(p, Front(calls));
      SendByLuck(After(p, None, Front(calls)), Last(calls).luck);
    }
  }
}
