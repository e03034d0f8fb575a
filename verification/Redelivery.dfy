/**
 The table of unacknowledged messages is a summary of the engine's history.

 The history records every hand-over with its time, every ack, and every timed redelivery request
 that was sent.  What the table says about an id is what its last record says.
 */
module Redelivery {
  import opened Prelude
  import opened BatchCodec
  import opened Engine
  import opened Delivery

  datatype Record =
    | Handed(id: MessageId, at: nat)
    | Acked(id: MessageId)
    | Requested(ids: set<MessageId>)

  function HandedRecords(items: seq<Item>, times: seq<nat>): (r: seq<Record>)
    requires |items| <= |times|
    ensures |r| == |items|
    ensures forall i :: 0 <= i < |r| ==> r[i] == Handed(items[i].0, times[i])
  {
    seq(|items|, i requires 0 <= i < |items| => Handed(items[i].0, times[i]))
  }

  function FrameRecords(c: Config, e: State, f: Inbound, luck: Luck): seq<Record> {
    if Weight(f) > e.remaining then []
    else if DeadLettered(c, f) then (if luck.deadLettered then [Acked(f.id)] else [])
    else HandedRecords(Taken(Due(c, f), luck), luck.times)
  }

  function WaitRecords(c: Config, e: State, w: Wakeup): seq<Record> {
    match w
    case Frame(f, luck) => FrameRecords(c, e, f, luck)
    case Asked(Ack(id)) => [Acked(id)]
    case Asked(Tick(now, sent)) => if Overdue(e, now) != {} && sent then [Requested(Overdue(e, now))] else []
    case _ => []
  }

  function PassRecords(c: Config, e: State, p: Pass): seq<Record> {
    var e1 := TopSpec(c, e, p.broken, p.reopening, p.flow).0;
    if e1.phase != AtWait then [] else WaitRecords(c, e1, p.wakeup)
  }

  /** Everything that happened to message ids while the engine ran. */
  function History(c: Config, script: seq<Pass>): seq<Record> {
    if script == [] then []
    else
      var e := EngineSpec(c, Start(c), Front(script)).0;
      History(c, Front(script)) + if e.phase.Ended? then [] else PassRecords(c, e, Last(script))
  }

  predicate Concerns(r: Record, id: MessageId) {
    match r
    case Handed(i, _) => i == id
    case Acked(i) => i == id
    case Requested(ids) => id in ids
  }

  /** The time of the last hand-over, unless an ack or a redelivery request came after it. */
  function Fate(h: seq<Record>, id: MessageId): Option<nat> {
    if h == [] then None
    else if Concerns(Last(h), id) then (if Last(h).Handed? then Some(Last(h).at) else None)
    else Fate(Front(h), id)
  }

  ghost predicate Summarises(c: Config, unacked: map<MessageId, nat>, h: seq<Record>) {
    forall id ::
      && (id in unacked <==> c.delay.Some? && Fate(h, id).Some?)
      && (id in unacked ==> unacked[id] == Fate(h, id).value + c.delay.value)
  }

  lemma SummarisesHanded(c: Config, unacked: map<MessageId, nat>, h: seq<Record>, id: MessageId, at: nat)
    requires Summarises(c, unacked, h)
    ensures Summarises(c, if c.delay.Some? then unacked[id := at + c.delay.value] else unacked, h + [Handed(id, at)])
  {
  }

  lemma SummarisesRemoved(c: Config, unacked: map<MessageId, nat>, h: seq<Record>, r: Record, gone: set<MessageId>)
    requires Summarises(c, unacked, h) && !r.Handed?
    requires forall i :: i in gone <==> Concerns(r, i)
    ensures Summarises(c, unacked - gone, h + [r])
  {
  }

  lemma {:induction false} TrackSummarises(c: Config, unacked: map<MessageId, nat>, h: seq<Record>,
                                          items: seq<Item>, times: seq<nat>)
    requires Summarises(c, unacked, h) && |items| <= |times|
    ensures Summarises(c, Track(c, unacked, items, times), h + HandedRecords(items, times))
  {
    if items == [] {
      assert h + HandedRecords(items, times) == h;
    } else {
      var front := Front(items);
      TrackSummarises(c, unacked, h, front, times);
      SummarisesHanded(c, Track(c, unacked, front, times), h + HandedRecords(front, times), Last(items).0, times[|items| - 1]);
      assert h + HandedRecords(items, times) ==
             (h + HandedRecords(front, times)) + [Handed(Last(items).0, times[|items| - 1])];
    }
  }

  lemma FrameSummarises(c: Config, e: State, f: Inbound, luck: Luck, h: seq<Record>)
    requires Summarises(c, e.unacked, h)
    ensures Summarises(c, FrameSpec(c, e, f, luck).0.unacked, h + FrameRecords(c, e, f, luck))
  {
    assert h + [] == h;
    WorkIsDue(c, f);
    if Weight(f) <= e.remaining {
      if DeadLettered(c, f) {
        SummarisesRemoved(c, e.unacked, h, Acked(f.id), {f.id});
      } else {
        TrackSummarises(c, e.unacked, h, Taken(Due(c, f), luck), luck.times);
      }
    }
  }

  lemma WaitSummarises(c: Config, e: State, w: Wakeup, h: seq<Record>)
    requires Summarises(c, e.unacked, h)
    ensures Summarises(c, WaitSpec(c, e, w).0.unacked, h + WaitRecords(c, e, w))
  {
    assert h + [] == h;
    match w
    case Frame(f, luck) => FrameSummarises(c, e, f, luck, h);
    case Asked(Ack(id)) => SummarisesRemoved(c, e.unacked, h, Acked(id), {id});
    case Asked(Tick(now, sent)) => SummarisesRemoved(c, e.unacked, h, Requested(Overdue(e, now)), Overdue(e, now));
    case _ =>
  }

  lemma TopKeepsTable(c: Config, e: State, broken: bool, r: Reopening, flow: FlowOutcome)
    ensures TopSpec(c, e, broken, r, flow).0.unacked == e.unacked
  {
  }

  lemma PassSummarises(c: Config, e: State, p: Pass, h: seq<Record>)
    requires Summarises(c, e.unacked, h)
    ensures Summarises(c, PassSpec(c, e, p).0.unacked, h + PassRecords(c, e, p))
  {
    TopKeepsTable(c, e, p.broken, p.reopening, p.flow);
    var e1 := TopSpec(c, e, p.broken, p.reopening, p.flow).0;
    if e1.phase == AtWait {
      WaitSummarises(c, e1, p.wakeup, h);
    } else {
      assert h + [] == h;
    }
  }

  /**
   After any run the table holds exactly the ids handed over and, since their last hand-over, neither
   acked nor part of a timed redelivery request that was sent, each with that time plus the delay;
   without a configured delay it stays empty.
   */
  lemma {:induction false} TableRefinesHistory(c: Config, script: seq<Pass>)
    ensures Summarises(c, EngineSpec(c, Start(c), script).0.unacked, History(c, script))
  {
    if script == [] {
    } else {
      TableRefinesHistory(c, Front(script));
      var e := EngineSpec(c, Start(c), Front(script)).0;
      if e.phase.Ended? {
        assert History(c, Front(script)) + [] == History(c, Front(script));
      } else {
        PassSummarises(c, e, Last(script), History(c, Front(script)));
      }
    }
  }

  /** A tick asks for exactly the ids whose last hand-over is longer ago than the delay. */
  lemma TickAsksForTheOverdue(c: Config, script: seq<Pass>, now: nat, id: MessageId)
    requires c.delay.Some?
    ensures var e, h := EngineSpec(c, Start(c), script).0, History(c, script);
            && (id in Overdue(e, now) <==> Fate(h, id).Some? && Fate(h, id).value + c.delay.value < now)
            && RequestSpec(e, Tick(now, true)).1 == (if Overdue(e, now) == {} then [] else [RedeliveryAsked(Overdue(e, now))])
  {
    TableRefinesHistory(c, script);
  }

  function Deliveries(h: seq<Record>, id: MessageId): nat {
    if h == [] then 0
    else Deliveries(Front(h), id) + if Last(h).Handed? && Last(h).id == id then 1 else 0
  }

  function TimedRequests(h: seq<Record>, id: MessageId): nat {
    if h == [] then 0
    else TimedRequests(Front(h), id) + if Last(h).Requested? && id in Last(h).ids then 1 else 0
  }

  /** Requests never outnumber deliveries, and a tracked delivery has not been asked for yet. */
  ghost predicate Settled(h: seq<Record>, id: MessageId) {
    TimedRequests(h, id) + (if Fate(h, id).Some? then 1 else 0) <= Deliveries(h, id)
  }

  lemma SettledSnoc(h: seq<Record>, r: Record, id: MessageId)
    requires Settled(h, id) && (r.Requested? && id in r.ids ==> Fate(h, id).Some?)
    ensures Settled(h + [r], id)
  {
  }

  lemma {:induction false} SettledHanded(h: seq<Record>, rs: seq<Record>, id: MessageId)
    requires Settled(h, id) && forall i :: 0 <= i < |rs| ==> !rs[i].Requested?
    ensures Settled(h + rs, id)
  {
    if rs == [] {
      assert h + rs == h;
    } else {
      SettledHanded(h, Front(rs), id);
      SettledSnoc(h + Front(rs), Last(rs), id);
      assert h + rs == (h + Front(rs)) + [Last(rs)];
    }
  }

  lemma PassSettles(c: Config, e: State, p: Pass, h: seq<Record>, id: MessageId)
    requires Summarises(c, e.unacked, h) && Settled(h, id)
    ensures Settled(h + PassRecords(c, e, p), id)
  {
    TopKeepsTable(c, e, p.broken, p.reopening, p.flow);
    var e1 := TopSpec(c, e, p.broken, p.reopening, p.flow).0;
    var rs := PassRecords(c, e, p);
    if e1.phase == AtWait && p.wakeup.Asked? && p.wakeup.request.Tick? && rs != [] {
      var ids := Overdue(e1, p.wakeup.request.now);
      assert rs == [Requested(ids)];
      SettledSnoc(h, Requested(ids), id);
    } else {
      SettledHanded(h, rs, id);
    }
  }

  /** Each delivery of a message leads to at most one timed redelivery request for it. */
  lemma {:induction false} OneTimedRequestPerDelivery(c: Config, script: seq<Pass>, id: MessageId)
    ensures TimedRequests(History(c, script), id) <= Deliveries(History(c, script), id)
    ensures Settled(History(c, script), id)
  {
    if script == [] {
    } else {
      OneTimedRequestPerDelivery(c, Front(script), id);
      var e, h := EngineSpec(c, Start(c), Front(script)).0, History(c, Front(script));
      TableRefinesHistory(c, Front(script));
      if e.phase.Ended? {
        assert h + [] == h;
      } else {
        PassSettles(c, e, Last(script), h, id);
      }
    }
  }
}
