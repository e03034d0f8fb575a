/**
 What a consumer engine does for the application, told from the frames it reads and the requests it
 gets: which messages it hands over, what it acknowledges, which redeliveries it asks for, and when
 and why it ends.
 */
module Delivery {
  import opened Prelude
  import opened Wire
  import opened BatchCodec
  import opened Engine

  /** An unbatched message delivered too often goes to the dead letter topic. */
  predicate DeadLettered(c: Config, f: Inbound) {
    && f.Topic? && f.readable && f.payload.metadata.numMessagesInBatch.None?
    && f.redeliveryCount.Some? && c.maxRedeliver.Some? && f.redeliveryCount.value >= c.maxRedeliver.value
  }

  predicate IsBatch(f: Inbound) {
    f.Topic? && f.payload.metadata.numMessagesInBatch.Some?
  }

  /** The messages that parsing finds in a batch. */
  function Parsed(c: Config, f: Inbound): Option<seq<BatchedMessage>>
    requires IsBatch(f)
  {
    Parse(c.codec, AsU32(f.payload.metadata.numMessagesInBatch.value), f.payload.data)
  }

  /** The messages that a frame holds for the application. */
  function Due(c: Config, f: Inbound): seq<Item> {
    if !f.Topic? || !f.readable || DeadLettered(c, f) then []
    else if !IsBatch(f) then [(f.id, f.payload)]
    else if Parsed(c, f).None? then []
    else Items(f.id, f.payload.metadata, Parsed(c, f).value)
  }

  /** Hand-overs stop at the first refusal. */
  function Taken(items: seq<Item>, luck: Luck): seq<Item> {
    items[..Min(Min(luck.accepted, |items|), |luck.times|)]
  }

  /** Processing the frame meets an error, which the application is told. */
  predicate Troubled(c: Config, f: Inbound, luck: Luck) {
    || (f.ClosedByBroker? && !luck.reopening.Reopened?)
    || (f.Topic? && !f.readable)
    || (f.Topic? && f.readable && IsBatch(f) && Parsed(c, f).None?)
    || (DeadLettered(c, f) && !luck.deadLettered)
    || |Taken(Due(c, f), luck)| < |Due(c, f)|
  }

  /** The effects that matter to the application. */
  predicate Matters(x: Effect) {
    x.HandedOver? || x.AckSent? || x.RedeliveryAsked?
  }

  function Visible(effects: seq<Effect>): seq<Effect> {
    if effects == [] then []
    else Visible(Front(effects)) + if Matters(Last(effects)) then [Last(effects)] else []
  }

  /** What a frame leads to, once it is counted. */
  function FrameShows(c: Config, f: Inbound, luck: Luck): seq<Effect> {
    if DeadLettered(c, f) then (if luck.deadLettered then [AckSent(f.id)] else [])
    else HandedAll(Taken(Due(c, f), luck))
  }

  /** What ends a wait leads to. */
  function WakeShows(c: Config, e: State, u: Wakeup): seq<Effect> {
    match u
    case Frame(f, luck) => if Weight(f) <= e.remaining then FrameShows(c, f, luck) else []
    case Asked(Ack(id)) => [AckSent(id)]
    case Asked(Nack(id)) => [RedeliveryAsked({id})]
    case Asked(Tick(now, sent)) =>
      var late := set id | id in e.unacked && e.unacked[id] < now;
      if sent && late != {} then [RedeliveryAsked(late)] else []
    case _ => []
  }

  lemma {:induction false} VisibleAppend(a: seq<Effect>, b: seq<Effect>)
    ensures Visible(a + b) == Visible(a) + Visible(b)
  {
    if b == [] {
      assert a + b == a;
    } else {
      assert Front(a + b) == a + Front(b);
      VisibleAppend(a, Front(b));
    }
  }

  lemma {:induction false} AllVisible(effects: seq<Effect>)
    requires forall i :: 0 <= i < |effects| ==> Matters(effects[i])
    ensures Visible(effects) == effects
  {
    if effects == [] {
    } else {
      AllVisible(Front(effects));
      assert Matters(effects[|effects| - 1]);
      assert effects == Front(effects) + [Last(effects)];
    }
  }

  lemma {:induction false} NoneVisible(effects: seq<Effect>)
    requires forall i :: 0 <= i < |effects| ==> !Matters(effects[i])
    ensures Visible(effects) == []
  {
    if effects == [] {
    } else {
      NoneVisible(Front(effects));
      assert !Matters(effects[|effects| - 1]);
    }
  }

  /** What processing a frame amounts to, by the frame. */
  lemma WorkIsDue(c: Config, f: Inbound)
    ensures WorkFor(c, f) ==
            if f.EndOfTopic? then Finish
            else if f.ClosedByBroker? then Renew
            else if !f.Topic? then Ignore
            else if !f.readable || (IsBatch(f) && Parsed(c, f).None?) then Complain
            else if DeadLettered(c, f) then DeadLetter(f.id)
            else Hand(Due(c, f))
  {
  }

  lemma ProcessShows(c: Config, e: State, f: Inbound, luck: Luck)
    ensures Visible(ProcessSpec(c, e, f, luck).1) == FrameShows(c, f, luck)
  {
    WorkIsDue(c, f);
    var effects := ProcessSpec(c, e, f, luck).1;
    if f.ClosedByBroker? {
      NoneVisible(effects);
    } else {
      AllVisible(effects);
    }
  }

  lemma RequestShows(c: Config, e: State, r: Request)
    ensures Visible(RequestSpec(e, r).1) == WakeShows(c, e, Asked(r))
  {
    if r.Tick? {
      assert (set id | id in e.unacked && e.unacked[id] < r.now) == Overdue(e, r.now);
    }
    assert RequestSpec(e, r).1 == WakeShows(c, e, Asked(r));
    AllVisible(RequestSpec(e, r).1);
  }

  lemma FrameIsShown(c: Config, e: State, f: Inbound, luck: Luck)
    ensures Visible(FrameSpec(c, e, f, luck).1) == WakeShows(c, e, Frame(f, luck))
  {
    if Weight(f) <= e.remaining {
      ProcessShows(c, e.(held := false, remaining := e.remaining - Weight(f)), f, luck);
    }
  }

  lemma WaitShows(c: Config, e: State, u: Wakeup)
    ensures Visible(WaitSpec(c, e, u).1) == WakeShows(c, e, u)
  {
    match u
    case Frame(f, luck) => FrameIsShown(c, e, f, luck);
    case Asked(r) => RequestShows(c, e, r);
    case _ =>
  }

  lemma TopShowsNothing(c: Config, e: State, broken: bool, r: Reopening, flow: FlowOutcome)
    ensures Visible(TopSpec(c, e, broken, r, flow).1) == []
  {
    NoneVisible(TopSpec(c, e, broken, r, flow).1);
  }

  /** The state in which a pass waits, if it comes to that. */
  function Waiting(c: Config, e: State, p: Pass): Option<State> {
    var e1 := TopSpec(c, e, p.broken, p.reopening, p.flow).0;
    if e1.phase == AtWait then Some(e1) else None
  }

  function PassShows(c: Config, e: State, p: Pass): seq<Effect> {
    if Waiting(c, e, p).Some? then WakeShows(c, Waiting(c, e, p).value, p.wakeup) else []
  }

  lemma PassIsShown(c: Config, e: State, p: Pass)
    ensures Visible(PassSpec(c, e, p).1) == PassShows(c, e, p)
  {
    var (e1, f1) := TopSpec(c, e, p.broken, p.reopening, p.flow);
    TopShowsNothing(c, e, p.broken, p.reopening, p.flow);
    if e1.phase == AtWait {
      WaitShows(c, e1, p.wakeup);
      VisibleAppend(f1, WaitSpec(c, e1, p.wakeup).1);
    }
  }

  function Now(c: Config, script: seq<Pass>): State {
    EngineSpec(c, Start(c), script).0
  }

  /** Everything that a run shows, from the frames read and the requests served. */
  function Shows(c: Config, script: seq<Pass>): seq<Effect> {
    if script == [] then []
    else
      var e := Now(c, Front(script));
      Shows(c, Front(script)) + if e.phase.Ended? then [] else PassShows(c, e, Last(script))
  }

  /**
   Over every run, hand-overs, acknowledgements and redelivery requests are, in order, exactly those
   that the frames read and the requests served call for.
   */
  lemma {:induction false} RunsShowWhatIsDue(c: Config, script: seq<Pass>)
    ensures Visible(EngineSpec(c, Start(c), script).1) == Shows(c, script)
  {
    if script == [] {
    } else {
      RunsShowWhatIsDue(c, Front(script));
      var (e1, f1) := EngineSpec(c, Start(c), Front(script));
      if !e1.phase.Ended? {
        PassIsShown(c, e1, Last(script));
        VisibleAppend(f1, PassSpec(c, e1, Last(script)).1);
      }
    }
  }

  function HandedItems(effects: seq<Effect>): seq<Item> {
    if effects == [] then []
    else HandedItems(Front(effects)) + if Last(effects).HandedOver? then [Last(effects).item] else []
  }

  /** The messages of the frame that ended a wait, as far as the application took them. */
  function PassDelivers(c: Config, e: State, p: Pass): seq<Item> {
    var w := Waiting(c, e, p);
    if w.Some? && p.wakeup.Frame? && Weight(p.wakeup.frame) <= w.value.remaining
    then Taken(Due(c, p.wakeup.frame), p.wakeup.luck)
    else []
  }

  function Delivered(c: Config, script: seq<Pass>): seq<Item> {
    if script == [] then []
    else
      var e := Now(c, Front(script));
      Delivered(c, Front(script)) + if e.phase.Ended? then [] else PassDelivers(c, e, Last(script))
  }

  lemma {:induction false} HandedAppend(a: seq<Effect>, b: seq<Effect>)
    ensures HandedItems(a + b) == HandedItems(a) + HandedItems(b)
  {
    if b == [] {
      assert a + b == a;
    } else {
      assert Front(a + b) == a + Front(b);
      HandedAppend(a, Front(b));
    }
  }

  lemma {:induction false} HandedAllItems(items: seq<Item>)
    ensures HandedItems(HandedAll(items)) == items
  {
    if items == [] {
    } else {
      assert Front(HandedAll(items)) == HandedAll(Front(items));
      HandedAllItems(Front(items));
    }
  }

  lemma {:induction false} HandedVisible(effects: seq<Effect>)
    ensures HandedItems(Visible(effects)) == HandedItems(effects)
  {
    if effects == [] {
    } else {
      HandedVisible(Front(effects));
      if Matters(Last(effects)) {
        assert Front(Visible(Front(effects)) + [Last(effects)]) == Visible(Front(effects));
      } else {
        assert Visible(effects) == Visible(Front(effects));
      }
    }
  }

  lemma PassHandsOver(c: Config, e: State, p: Pass)
    ensures HandedItems(PassShows(c, e, p)) == PassDelivers(c, e, p)
  {
    var w := Waiting(c, e, p);
    if w.Some? && p.wakeup.Frame? {
      HandedAllItems(Taken(Due(c, p.wakeup.frame), p.wakeup.luck));
    }
  }

  lemma {:induction false} ShownHandOvers(c: Config, script: seq<Pass>)
    ensures HandedItems(Shows(c, script)) == Delivered(c, script)
  {
    if script == [] {
    } else {
      ShownHandOvers(c, Front(script));
      var e := Now(c, Front(script));
      var more := if e.phase.Ended? then [] else PassShows(c, e, Last(script));
      HandedAppend(Shows(c, Front(script)), more);
      PassHandsOver(c, e, Last(script));
    }
  }

  /**
   Over every run the application gets exactly the messages of the frames read, in order, each frame
   up to the first message refused.
   */
  lemma EveryMessageIsHandedOver(c: Config, script: seq<Pass>)
    ensures HandedItems(EngineSpec(c, Start(c), script).1) == Delivered(c, script)
  {
    RunsShowWhatIsDue(c, script);
    HandedVisible(EngineSpec(c, Start(c), script).1);
    ShownHandOvers(c, script);
  }

  /** Why the first half of a pass ends the engine, if it does. */
  function TopEnding(c: Config, e: State, p: Pass): Option<Ending> {
    if p.broken && !p.reopening.Reopened? then Some(ConnectionFailed)
    else if e.remaining >= c.batchSize / 2 || p.flow.FlowOk? then None
    else if p.flow.FlowDisconnected? && p.flow.reopening.Reopened? && p.flow.again then None
    else Some(ConnectionFailed)
  }

  /** Why what ended a wait ends the engine, if it does. */
  function WakeEnding(c: Config, remaining: nat, u: Wakeup): Option<Ending> {
    match u
    case Timer => None
    case ChannelClosed => Some(ChannelLost)
    case Asked(r) => if r == Closed then Some(ApplicationGone) else None
    case Frame(f, luck) =>
      if Weight(f) > remaining then Some(Overflowed)
      else if f.EndOfTopic? then Some(TopicEnded)
      else if Troubled(c, f, luck) && !luck.heard then Some(ApplicationGone)
      else None
  }

  /** The counter after the first half of a pass. */
  function Topped(c: Config, e: State): nat {
    if e.remaining < c.batchSize / 2 then c.batchSize else e.remaining
  }

  /** Why a pass ends the engine, if it does. */
  function PassEnding(c: Config, e: State, p: Pass): Option<Ending> {
    if TopEnding(c, e, p).Some? then TopEnding(c, e, p) else WakeEnding(c, Topped(c, e), p.wakeup)
  }

  lemma TopEnds(c: Config, e: State, p: Pass)
    ensures var e1 := TopSpec(c, e, p.broken, p.reopening, p.flow).0;
            && e1.phase == (if TopEnding(c, e, p).Some? then Ended(TopEnding(c, e, p).value) else AtWait)
            && (e1.phase == AtWait ==> e1.remaining == Topped(c, e))
  {
  }

  lemma ProcessEnds(c: Config, e: State, f: Inbound, luck: Luck)
    ensures ProcessSpec(c, e, f, luck).0.phase ==
            if f.EndOfTopic? then Ended(TopicEnded)
            else if Troubled(c, f, luck) && !luck.heard then Ended(ApplicationGone)
            else AtTop
    ensures ProcessSpec(c, e, f, luck).0.remaining == e.remaining && ProcessSpec(c, e, f, luck).0.held == e.held
  {
    WorkIsDue(c, f);
  }

  lemma WaitEnds(c: Config, e: State, u: Wakeup)
    ensures var e1 := WaitSpec(c, e, u).0;
            && e1.phase == (if WakeEnding(c, e.remaining, u).Some? then Ended(WakeEnding(c, e.remaining, u).value) else AtTop)
            && (e1.held <==> u.Timer?)
            && e1.remaining ==
               if u.Frame? && Weight(u.frame) <= e.remaining then e.remaining - Weight(u.frame) else e.remaining
  {
    if u.Frame? && Weight(u.frame) <= e.remaining {
      ProcessEnds(c, e.(held := false, remaining := e.remaining - Weight(u.frame)), u.frame, u.luck);
    }
  }

  /**
   From any state a pass ends the engine exactly for the reasons listed; otherwise the counter is the
   refilled one less what the frame read counts, and a future is held exactly after the timer.
   */
  lemma PassesEndExactly(c: Config, script: seq<Pass>, p: Pass)
    requires !Now(c, script).phase.Ended?
    ensures var e, e' := Now(c, script), Now(c, script + [p]);
            match PassEnding(c, e, p)
            case Some(why) => e'.phase == Ended(why)
            case None =>
              && e'.phase == AtTop && (e'.held <==> p.wakeup.Timer?)
              && e'.remaining == Topped(c, e) - (if p.wakeup.Frame? then Weight(p.wakeup.frame) else 0)
  {
    var e := Now(c, script);
    EngineSnoc(c, Start(c), script, p);
    TopEnds(c, e, p);
    var e1 := TopSpec(c, e, p.broken, p.reopening, p.flow).0;
    if e1.phase == AtWait {
      WaitEnds(c, e1, p.wakeup);
    }
  }

  /** A run of the engine ends with the topic exactly when the last frame it read ended the topic. */
  lemma TopicEndsExactly(c: Config, script: seq<Pass>, p: Pass)
    requires !Now(c, script).phase.Ended?
    ensures Now(c, script + [p]).phase == Ended(TopicEnded) <==>
            && TopEnding(c, Now(c, script), p).None?
            && p.wakeup.Frame? && p.wakeup.frame.EndOfTopic? && Topped(c, Now(c, script)) >= 1
  {
    PassesEndExactly(c, script, p);
  }
}
