/**
 Which subscription an engine listens to, and what happens when it is not the one it feeds.

 Flows go out on the engine's connection; frames come in on the channel it reads.  A reconnect that
 finds a future kept from an earlier pass, or one that fails after it replaced the connection, makes
 the two differ.  Then what the broker sends on the connection in use is lost for good, and the
 engine can be left waiting on an empty channel while the broker has nothing it may send.
 */
module Sessions {
  import opened Prelude
  import opened Wire
  import opened BatchCodec
  import opened Engine
  import opened Permits

  /** What a reconnect attempt led to: the new channel is read, or not, or there is none. */
  datatype Fortune = Read | Held | Deaf | Missed

  function FortuneOf(held: bool, r: Reopening): Fortune {
    match r
    case Reopened => if held then Held else Read
    case FailedEarly => Missed
    case FailedLate(_) => Deaf
  }

  /** The reconnects of a refill: at most one. */
  function RefillFortunes(c: Config, e: State, flow: FlowOutcome): seq<Fortune> {
    if e.remaining < c.batchSize / 2 && flow.FlowDisconnected? then [FortuneOf(e.held, flow.reopening)] else []
  }

  /** The reconnects that a move makes, in order. */
  function Fortunes(c: Config, e: State, m: Move): seq<Fortune> {
    match m
    case Loop(broken, r, flow) =>
      if !broken then RefillFortunes(c, e, flow)
      else [FortuneOf(e.held, r)] + if r.Reopened? then RefillFortunes(c, e, flow) else []
    case Wake(Frame(ClosedByBroker, luck)) => if e.remaining >= 1 then [FortuneOf(false, luck.reopening)] else []
    case _ => []
  }

  /** All the reconnects of a run. */
  function AllFortunes(c: Config, moves: seq<Move>): seq<Fortune> {
    if moves == [] then []
    else
      var w := From(c, Initial(c), Front(moves));
      AllFortunes(c, Front(moves)) + if w.Some? then Fortunes(c, w.value.e, Last(moves)) else []
  }

  /** The last reconnect that replaced the connection; the first subscription counts as one. */
  function LastSwitch(h: seq<Fortune>): Fortune {
    if h == [] then Read else if Last(h) == Missed then LastSwitch(Front(h)) else Last(h)
  }

  /** What the fortunes so far say about where the engine stands. */
  ghost predicate Positioned(e: State, h: seq<Fortune>) {
    e.reading <= e.session && (e.reading == e.session <==> LastSwitch(h) == Read)
  }

  lemma SwitchSnoc(h: seq<Fortune>, f: Fortune)
    ensures LastSwitch(h + [f]) == if f == Missed then LastSwitch(h) else f
  {
    assert Front(h + [f]) == h;
  }

  lemma ReopenPositions(e: State, h: seq<Fortune>, r: Reopening)
    requires Positioned(e, h)
    ensures Positioned(Reopen(e, r), h + [FortuneOf(e.held, r)])
  {
    SwitchSnoc(h, FortuneOf(e.held, r));
  }

  lemma RefillPositions(c: Config, e: State, flow: FlowOutcome, h: seq<Fortune>)
    requires Positioned(e, h)
    ensures Positioned(RefillSpec(c, e, flow).0, h + RefillFortunes(c, e, flow))
  {
    assert h + [] == h;
    if flow.FlowDisconnected? {
      ReopenPositions(e, h, flow.reopening);
    }
  }

  lemma TopPositions(c: Config, e: State, broken: bool, r: Reopening, flow: FlowOutcome, h: seq<Fortune>)
    requires Positioned(e, h)
    ensures Positioned(TopSpec(c, e, broken, r, flow).0, h + Fortunes(c, e, Loop(broken, r, flow)))
  {
    if !broken {
      RefillPositions(c, e, flow, h);
    } else {
      var f := [FortuneOf(e.held, r)];
      ReopenPositions(e, h, r);
      RefillPositions(c, Reopen(e, r), flow, h + f);
      assert (h + f) + RefillFortunes(c, e, flow) == h + (f + RefillFortunes(c, e, flow));
      assert h + (f + []) == h + f;
    }
  }

  lemma ProcessKeepsSession(c: Config, e: State, f: Inbound, luck: Luck)
    requires !f.ClosedByBroker?
    ensures var (e', effects) := ProcessSpec(c, e, f, luck);
            && e'.session == e.session && e'.reading == e.reading
            && forall x :: x in effects ==> x.HandedOver? || x.AckSent? || x.RedeliveryAsked?
  {
  }

  lemma WaitPositions(c: Config, e: State, u: Wakeup, h: seq<Fortune>)
    requires Positioned(e, h)
    ensures Positioned(WaitSpec(c, e, u).0, h + Fortunes(c, e, Wake(u)))
  {
    assert h + [] == h;
    if u.Frame? {
      var Frame(f, luck) := u;
      if f.ClosedByBroker? {
        ReopenPositions(e.(held := false), h, luck.reopening);
      } else if Weight(f) <= e.remaining {
        ProcessKeepsSession(c, e.(held := false, remaining := e.remaining - Weight(f)), f, luck);
      }
    }
  }

  lemma StepPositions(c: Config, w: World, m: Move, h: seq<Fortune>)
    requires Enabled(w, m) && Positioned(w.e, h)
    ensures Positioned(Apply(c, w, m).e, h + Fortunes(c, w.e, m))
  {
    assert h + [] == h;
    match m
    case Loop(broken, r, flow) => TopPositions(c, w.e, broken, r, flow, h);
    case Wake(u) => WaitPositions(c, w.e, u, h);
    case _ =>
  }

  /**
   In every run the engine reads the channel of the connection in use exactly when the last reconnect
   that replaced the connection succeeded and met no held future.
   */
  lemma {:induction false} ReadsExactlyAfterCleanReconnect(c: Config, moves: seq<Move>, w: World)
    requires Runs(c, moves, w)
    ensures w.e.reading <= w.e.session
    ensures w.e.reading == w.e.session <==> LastSwitch(AllFortunes(c, moves)) == Read
    decreases |moves|
  {
    if moves == [] {
    } else {
      var w0 := LastStep(c, Initial(c), moves, w);
      ReadsExactlyAfterCleanReconnect(c, Front(moves), w0);
      StepPositions(c, w0, Last(moves), AllFortunes(c, Front(moves)));
    }
  }

  /** The broker has a subscription on the connection in use, and its channel is the one read. */
  predicate Attached(w: World) {
    w.live && w.e.reading == w.e.session
  }

  /** Either nothing was tried since the last success, or it succeeded. */
  predicate LastTryWorked(h: seq<Fortune>) {
    h == [] || Last(h) == Read
  }

  /** The broker told the engine, which has not read it yet. */
  predicate NoticeUnderway(w: World) {
    w.e.session in w.queues && ClosedByBroker in w.queues[w.e.session]
  }

  ghost predicate Explained(w: World, h: seq<Fortune>) {
    !w.e.phase.Ended? && w.e.reading == w.e.session ==>
      && (!LastTryWorked(h) ==> !w.live)
      && (LastTryWorked(h) && !w.live ==> NoticeUnderway(w))
  }

  /** A refill leaves a running engine attached as it was, or makes it so. */
  lemma RefillLive(c: Config, e: State, flow: FlowOutcome, a: Account)
    ensures var (e1, effects) := RefillSpec(c, e, flow);
            !e1.phase.Ended? ==>
              if RefillFortunes(c, e, flow) == [] then Credit(a, effects).live == a.live && e1.session == e.session
              else Credit(a, effects).live && e1.session == e.session + 1 && flow.reopening.Reopened?
  {
    CreditSingle(a, FlowSent(Refill(c, e)));
    if flow.FlowDisconnected? {
      CreditReopen(c, a, flow.reopening);
      CreditSnoc(a, ReopenEffects(c, flow.reopening), FlowSent(Refill(c, e)));
    }
  }

  /** So does a whole first half of a pass. */
  lemma TopLive(c: Config, e: State, m: Move, a: Account)
    requires m.Loop?
    ensures var (e1, effects) := TopSpec(c, e, m.broken, m.reopening, m.flow);
            !e1.phase.Ended? ==>
              if Fortunes(c, e, m) == [] then Credit(a, effects).live == a.live && e1.session == e.session
              else Credit(a, effects).live && e1.session > e.session
  {
    if !m.broken {
      RefillLive(c, e, m.flow, a);
    } else {
      CreditReopen(c, a, m.reopening);
      var e1 := Reopen(e, m.reopening);
      CreditAppend(a, ReopenEffects(c, m.reopening), RefillSpec(c, e1, m.flow).1);
      RefillLive(c, e1, m.flow, Account(c.batchSize, true, 0));
    }
  }

  /** A running engine has only had successes in a first half of a pass. */
  lemma TopFortunes(c: Config, e: State, m: Move)
    requires m.Loop? && !TopSpec(c, e, m.broken, m.reopening, m.flow).0.phase.Ended?
    ensures forall f :: f in Fortunes(c, e, m) ==> f == if e.held then Held else Read
  {
  }

  lemma LoopExplained(c: Config, w: World, m: Move, h: seq<Fortune>)
    requires Enabled(w, m) && Explained(w, h) && Positioned(w.e, h) && m.Loop?
    ensures Explained(Apply(c, w, m), h + Fortunes(c, w.e, m))
  {
    assert h + [] == h;
    TopLive(c, w.e, m, AccountOf(w));
    var w' := Apply(c, w, m);
    StepPositions(c, w, m, h);
    var fs := Fortunes(c, w.e, m);
    if !w'.e.phase.Ended? && w'.e.reading == w'.e.session && fs != [] {
      assert w'.live && Last(h + fs) == Last(fs);
      TopFortunes(c, w.e, m);
    }
  }

  /** The close notice is read, and a reconnect attempted. */
  lemma NoticeExplained(c: Config, w: World, luck: Luck, h: seq<Fortune>)
    requires Inv(c, w) && Enabled(w, Wake(Frame(ClosedByBroker, luck))) && Explained(w, h)
    ensures Explained(Apply(c, w, Wake(Frame(ClosedByBroker, luck))),
                      h + Fortunes(c, w.e, Wake(Frame(ClosedByBroker, luck))))
  {
    CreditReopen(c, AccountOf(w), luck.reopening);
  }

  lemma FrameExplained(c: Config, w: World, f: Inbound, luck: Luck, h: seq<Fortune>)
    requires Inv(c, w) && Enabled(w, Wake(Frame(f, luck))) && Explained(w, h) && !f.ClosedByBroker?
    ensures Explained(Apply(c, w, Wake(Frame(f, luck))), h)
  {
    var q := w.queues[w.e.reading];
    assert q == [f] + q[1..];
    CreditIgnores(AccountOf(w), []);
    if Weight(f) <= w.e.remaining {
      var e1 := w.e.(held := false, remaining := w.e.remaining - Weight(f));
      ProcessKeepsSession(c, e1, f, luck);
      CreditIgnores(AccountOf(w), ProcessSpec(c, e1, f, luck).1);
    }
  }

  lemma StepExplained(c: Config, w: World, m: Move, h: seq<Fortune>)
    requires Inv(c, w) && Enabled(w, m) && Explained(w, h) && Positioned(w.e, h)
    ensures Explained(Apply(c, w, m), h + Fortunes(c, w.e, m))
  {
    assert h + [] == h;
    match m
    case Loop(_, _, _) => LoopExplained(c, w, m, h);
    case Wake(Frame(f, luck)) =>
      if f.ClosedByBroker? {
        NoticeExplained(c, w, luck, h);
      } else {
        FrameExplained(c, w, f, luck, h);
      }
    case Wake(u) => CreditIgnores(AccountOf(w), WaitSpec(c, w.e, u).1);
    case _ =>
  }

  lemma {:induction false} RunsExplained(c: Config, moves: seq<Move>, w: World)
    requires Runs(c, moves, w)
    ensures Explained(w, AllFortunes(c, moves))
    decreases |moves|
  {
    if moves == [] {
    } else {
      var w0 := LastStep(c, Initial(c), moves, w);
      RunsExplained(c, Front(moves), w0);
      ReachableInv(c, Front(moves), w0);
      ReadsExactlyAfterCleanReconnect(c, Front(moves), w0);
      StepExplained(c, w0, Last(moves), AllFortunes(c, Front(moves)));
    }
  }

  /**
   In every run, a running engine that has no close notice still to read is attached exactly when its
   last reconnect attempt, if it made any, succeeded and met no held future.
   */
  lemma AttachedExactlyAfterCleanReconnect(c: Config, moves: seq<Move>, w: World)
    requires Runs(c, moves, w) && !w.e.phase.Ended? && !NoticeUnderway(w)
    ensures Attached(w) <==> LastTryWorked(AllFortunes(c, moves))
  {
    RunsExplained(c, moves, w);
    ReadsExactlyAfterCleanReconnect(c, moves, w);
  }

  /** A channel that was passed over. */
  predicate Lost(w: World, q: nat) {
    q in w.queues && q != w.e.reading
  }

  lemma EngineNeverGoesBack(c: Config, w: World, m: Move)
    ensures var e := EngineStep(c, w, m).0;
            && w.e.session <= e.session <= w.e.session + 2
            && (e.reading == w.e.reading || w.e.session < e.reading <= e.session)
  {
    match m
    case Loop(_, r, flow) =>
      RefillSession(c, w.e, flow);
      RefillSession(c, Reopen(w.e, r), flow);
    case _ =>
  }

  lemma LostStep(c: Config, w: World, m: Move, q: nat)
    requires Inv(c, w) && Enabled(w, m) && Lost(w, q)
    ensures Lost(Apply(c, w, m), q) && w.queues[q] <= Apply(c, w, m).queues[q]
  {
    EngineNeverGoesBack(c, w, m);
  }

  /**
   Frames on a channel that was passed over are lost: however the run goes on, none of them is taken
   off the channel again.  This is so for the channel of the connection in use as long as another one
   is read, so for everything the broker sends to a detached engine.
   */
  lemma {:induction false} LostForever(c: Config, w: World, more: seq<Move>, w': World, q: nat)
    requires Inv(c, w) && Leads(c, w, more, w') && Lost(w, q)
    ensures Lost(w', q) && w.queues[q] <= w'.queues[q]
    decreases |more|
  {
    if more == [] {
    } else {
      var w0 := LastStep(c, w, more, w');
      LostForever(c, w, Front(more), w0, q);
      InvLeads(c, w, Front(more), w0);
      LostStep(c, w0, Last(more), q);
    }
  }

  /** The engine waits on an empty channel, and the broker has nothing that it may send. */
  predicate Stuck(w: World) {
    Sound(w) && w.e.phase == AtWait && w.queues[w.e.reading] == [] && !(w.live && w.permits > 0)
  }

  /**
   With a batch size of at least two, in every run, an engine that waits on the channel of a live
   subscription has a frame to read or a broker that may send one.
   */
  lemma NeverWaitsWithoutPermits(c: Config, moves: seq<Move>, w: World)
    requires Runs(c, moves, w) && w.e.phase == AtWait && c.batchSize >= 2
    ensures Sound(w)
    ensures Attached(w) ==> w.permits > 0 || w.queues[w.e.reading] != []
  {
    ReachableInv(c, moves, w);
  }

  predicate BrokerOnly(moves: seq<Move>) {
    forall i :: 0 <= i < |moves| ==> moves[i].BrokerSends?
  }

  /** What an attached, waiting engine keeps while only the broker moves. */
  predicate Fed(w: World) {
    Sound(w) && w.e.phase == AtWait && w.e.reading == w.e.session && (w.live || w.queues[w.e.reading] != [])
  }

  lemma {:induction false} FedKept(c: Config, w: World, sends: seq<Move>, w': World)
    requires Fed(w) && BrokerOnly(sends) && Leads(c, w, sends, w')
    ensures Fed(w')
    decreases |sends|
  {
    if sends == [] {
    } else {
      var w0 := LastStep(c, w, sends, w');
      FedKept(c, w, Front(sends), w0);
      assert sends[|sends| - 1].BrokerSends?;
    }
  }

  function OneMessage(): Inbound {
    Topic(MessageId(0, 0, None, None), None, Payload(Metadata(None, [], None, None, 0), []), true)
  }

  /** A broker can use up its permits on an engine that reads another channel. */
  lemma {:induction false} PermitsRunOut(c: Config, w: World) returns (sends: seq<Move>, w': World)
    requires Sound(w) && w.live && w.e.reading != w.e.session
    ensures BrokerOnly(sends) && Leads(c, w, sends, w')
    ensures w'.e == w.e && w'.live && w'.permits <= 0 && Sound(w') && w'.queues[w.e.reading] == w.queues[w.e.reading]
    decreases w.permits
  {
    if w.permits <= 0 {
      sends, w' := [], w;
    } else {
      var m := BrokerSends(OneMessage());
      var w1 := Apply(c, w, m);
      Extend(c, w, [], w, m);
      assert [] + [m] == [m];
      var rest;
      rest, w' := PermitsRunOut(c, w1);
      Chain(c, w, [m], w1, rest, w');
      sends := [m] + rest;
    }
  }

  ghost predicate CanGetStuck(c: Config, w: World) {
    exists sends, w' :: BrokerOnly(sends) && Leads(c, w, sends, w') && Stuck(w')
  }

  /**
   With a batch size of at least two, in every run, an engine that waits on an empty channel can be
   left stuck by the broker exactly when it is not attached.
   */
  lemma StuckExactlyWhenDetached(c: Config, moves: seq<Move>, w: World)
    requires Runs(c, moves, w) && w.e.phase == AtWait && c.batchSize >= 2
    requires Sound(w) && w.queues[w.e.reading] == []
    ensures CanGetStuck(c, w) <==> !Attached(w)
  {
    if Attached(w) {
      forall sends, w' | BrokerOnly(sends) && Leads(c, w, sends, w') ensures !Stuck(w') {
        FedKept(c, w, sends, w');
        Chain(c, Initial(c), moves, w, sends, w');
        ReachableInv(c, moves + sends, w');
      }
    } else if w.live {
      var sends, w' := PermitsRunOut(c, w);
      assert Stuck(w');
    } else {
      assert BrokerOnly([]) && Leads(c, w, [], w) && Stuck(w);
    }
  }

  /** A reconnect that meets a held future: the timer, then a broken connection. */
  const HELD_RECONNECT := [Loop(false, Reopened, FlowOk)] + [Wake(Timer)] + [Loop(true, Reopened, FlowOk)]

  function AfterHeldReconnect(c: Config): World {
    World(Start(c).(session := 1, held := true, phase := AtWait), true, c.batchSize, map[0 := [], 1 := []],
          c.batchSize, c.batchSize, 0, 0, 0)
  }

  lemma HeldReconnect(c: Config)
    ensures Runs(c, HELD_RECONNECT, AfterHeldReconnect(c))
  {
    var w0 := Initial(c);
    var m1, m2, m3 := Loop(false, Reopened, FlowOk), Wake(Timer), Loop(true, Reopened, FlowOk);
    NoRefillNeeded(c, w0);
    var w1 := Apply(c, w0, m1);
    Extend(c, w0, [], w0, m1);
    assert [] + [m1] == [m1];
    CreditIgnores(AccountOf(w1), []);
    var w2 := Apply(c, w1, m2);
    Extend(c, w0, [m1], w1, m2);
    CreditReopen(c, AccountOf(w2), Reopened);
    assert ReopenEffects(c, Reopened) + [] == ReopenEffects(c, Reopened);
    assert w2.queues[1 := []][1 := []] == map[0 := [], 1 := []];
    Extend(c, w0, [m1] + [m2], w2, m3);
  }

  /** Whatever the batch size, a run of the code can end with a stuck engine on a live subscription. */
  lemma HeldReconnectCanStarve(c: Config)
    ensures exists moves, w :: Runs(c, moves, w) && w.live && w.permits <= 0 && Stuck(w)
  {
    HeldReconnect(c);
    var sends, w := PermitsRunOut(c, AfterHeldReconnect(c));
    Chain(c, Initial(c), HELD_RECONNECT, AfterHeldReconnect(c), sends, w);
    assert Runs(c, HELD_RECONNECT + sends, w) && Stuck(w);
  }

  ghost predicate ReadsAbandoned(c: Config, moves: seq<Move>, w: World) {
    Runs(c, moves, w) && w.e.reading < w.e.session && w.stale > 0 && w.live
  }

  /** The abandoned channel is really read: a run takes a message off it while the new one is live. */
  lemma AbandonedChannelIsRead(c: Config)
    requires c.batchSize >= 1
    ensures exists moves, w :: ReadsAbandoned(c, moves, w)
  {
    HeldReconnect(c);
    var w0 := AfterHeldReconnect(c);
    var m1, m2 := StaleArrives(Heavy(1)), Wake(Frame(Heavy(1), LUCKY));
    var w1 := Apply(c, w0, m1);
    Extend(c, Initial(c), HELD_RECONNECT, w0, m1);
    assert [] + [Heavy(1)] == [Heavy(1)];
    HeavyRead(c, w1, 1);
    Extend(c, Initial(c), HELD_RECONNECT + [m1], w1, m2);
    assert ReadsAbandoned(c, HELD_RECONNECT + [m1] + [m2], Apply(c, w1, m2));
  }

  /** The subscription was asked for and made, but its answer never came. */
  const UNANSWERED := Luck([], 0, FailedLate(true), true, true)

  /** A close notice is read and the reconnect that answers it fails late. */
  lemma ReopenFails(c: Config, w: World) returns (moves: seq<Move>, w': World)
    requires Ready(c, w) && w.e.remaining >= 1
    ensures Leads(c, w, moves, w')
    ensures w'.e == w.e.(held := false, remaining := w.e.remaining - 1, session := w.e.session + 1)
    ensures w'.live && w'.permits == 0 && Sound(w') && w'.queues[w'.e.session] == []
  {
    var m1, m2 := Loop(false, Reopened, FlowOk), BrokerSends(ClosedByBroker);
    var m3 := Wake(Frame(ClosedByBroker, UNANSWERED));
    NoRefillNeeded(c, w);
    var w1 := Apply(c, w, m1);
    Extend(c, w, [], w, m1);
    assert [] + [m1] == [m1] && [] + [ClosedByBroker] == [ClosedByBroker];
    var w2 := Apply(c, w1, m2);
    Extend(c, w, [m1], w1, m2);
    CreditReopen(c, AccountOf(w2), FailedLate(true));
    w' := Apply(c, w2, m3);
    Extend(c, w, [m1] + [m2], w2, m3);
    moves := [m1] + [m2] + [m3];
  }

  /** The engine refills; the Flow reaches the broker, which sends a message. */
  lemma DeafRefill(c: Config, w: World) returns (moves: seq<Move>, w': World)
    requires Sound(w) && w.live && w.permits == 0 && w.e.phase == AtTop && w.e.reading < w.e.session
    requires w.e.remaining < c.batchSize / 2 && w.queues[w.e.session] == []
    ensures Leads(c, w, moves, w') && w'.e == w.e.(remaining := c.batchSize, phase := AtWait) && w'.live
    ensures w'.permits == c.batchSize - w.e.remaining - 1 >= 0
    ensures w.e.session in w'.queues && w'.queues[w.e.session] == [OneMessage()]
  {
    var m1, m2 := Loop(false, Reopened, FlowOk), BrokerSends(OneMessage());
    CreditSingle(AccountOf(w), FlowSent(Refill(c, w.e)));
    var w1 := Apply(c, w, m1);
    Extend(c, w, [], w, m1);
    assert [] + [m1] == [m1] && [] + [OneMessage()] == [OneMessage()];
    w' := Apply(c, w1, m2);
    Extend(c, w, [m1], w1, m2);
    moves := [m1] + [m2];
  }

  ghost predicate LosesMessage(c: Config, moves: seq<Move>, w: World) {
    && Runs(c, moves, w) && w.e.phase == AtWait && w.live
    && Lost(w, w.e.session) && OneMessage() in w.queues[w.e.session]
  }

  /**
   After a reconnect whose subscription was made but not answered, the engine's refills reach the
   broker, and the messages that it sends for them land on a channel nobody reads.
   */
  lemma FailedReopenLosesMessages(c: Config)
    requires 2 <= c.batchSize < TWO_32
    ensures exists moves, w :: LosesMessage(c, moves, w)
  {
    var n := c.batchSize - c.batchSize / 2;
    var w1 := HeavyArrives(c, Initial(c), n);
    var a, w2 := ReopenFails(c, w1);
    var b, w3 := DeafRefill(c, w2);
    Chain(c, Initial(c), HeavyRound(n), w1, a, w2);
    Chain(c, Initial(c), HeavyRound(n) + a, w2, b, w3);
    assert LosesMessage(c, HeavyRound(n) + a + b, w3);
  }

  /** With a batch size below two no quiet move sends a Flow. */
  lemma SmallBatchNeverRefills(c: Config, w: World, m: Move, n: nat)
    requires c.batchSize < 2 && QuietMove(m)
    ensures FlowSent(n) !in EngineStep(c, w, m).1
  {
  }

  ghost predicate Starves(c: Config, moves: seq<Move>, w: World) {
    Runs(c, moves, w) && Quiet(moves) && w.e.phase == AtWait && Sound(w) && Outstanding(w) == 0
  }

  /** With a batch size below two an engine starves: after one message, or at once. */
  lemma SmallBatchStarves(c: Config)
    requires c.batchSize < 2
    ensures exists moves, w :: Starves(c, moves, w)
  {
    var top := Loop(false, Reopened, FlowOk);
    if c.batchSize == 0 {
      NoRefillNeeded(c, Initial(c));
      QuietExtend(c, [], Initial(c), top);
      assert Starves(c, [] + [top], Apply(c, Initial(c), top));
    } else {
      var w1 := HeavyArrives(c, Initial(c), 1);
      NoRefillNeeded(c, w1);
      Extend(c, Initial(c), HeavyRound(1), w1, top);
      var moves, w := HeavyRound(1) + [top], Apply(c, w1, top);
      assert Quiet(moves);
      QuietPermitsAreExact(c, moves, w);
      assert Starves(c, moves, w);
    }
  }

  lemma ProcessKeepsCounter(c: Config, e: State, f: Inbound, luck: Luck)
    ensures ProcessSpec(c, e, f, luck).0.remaining == e.remaining
  {
  }

  lemma EmptyStaysEmpty(c: Config, w: World, m: Move)
    requires c.batchSize < 2 && Enabled(w, m) && QuietMove(m) && w.e.remaining == 0
    ensures Apply(c, w, m).e.remaining == 0
  {
    assert Apply(c, w, m).e == EngineStep(c, w, m).0;
    if m.Wake? && m.wakeup.Frame? {
      ProcessKeepsCounter(c, w.e.(held := false), m.wakeup.frame, m.wakeup.luck);
    }
  }

  lemma {:induction false} StaysEmpty(c: Config, w: World, more: seq<Move>, w': World)
    requires c.batchSize < 2 && Leads(c, w, more, w') && Quiet(more) && w.e.remaining == 0
    ensures w'.e.remaining == 0
    decreases |more|
  {
    if more == [] {
    } else {
      var w0 := LastStep(c, w, more, w');
      StaysEmpty(c, w, Front(more), w0);
      assert QuietMove(more[|more| - 1]);
      EmptyStaysEmpty(c, w0, Last(more));
    }
  }

  /** And it starves for good: in no quiet continuation is a permit ever outstanding again. */
  lemma StarvesForGood(c: Config, moves: seq<Move>, w: World, more: seq<Move>, w': World)
    requires c.batchSize < 2 && Starves(c, moves, w)
    requires Leads(c, w, more, w') && Quiet(more) && !w'.e.phase.Ended?
    ensures Sound(w') && Outstanding(w') == 0
  {
    QuietPermitsAreExact(c, moves, w);
    StaysEmpty(c, w, more, w');
    Chain(c, Initial(c), moves, w, more, w');
    QuietPermitsAreExact(c, moves + more, w');
  }
}
