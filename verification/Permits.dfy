/**
 Flow permits, counted against the broker.

 The broker holds `permits` for the subscription that the engine's Flows go to, and has frames in
 flight on that subscription's channel.  Their sum, the permits granted and not yet spent on a
 processed message, is compared with the engine's own counter `remaining` in every interleaving of
 engine and broker.  A broker that closed a subscription, or never made it, ignores Flows for it.
 A connection stands until a pass of the engine finds it broken.
 */
module Permits {
  import opened Prelude
  import opened Wire
  import opened BatchCodec
  import opened Engine

  datatype World = World(
    e: State,
    live: bool,                          // the broker has a subscription on the connection in use
    permits: int,                        // a broker may overspend on a large batch
    queues: map<nat, seq<Inbound>>,      // frames on each connection's channel
    grant: nat,                          // what the last reconnect granted
    counter: nat,                        // `remaining` at that time
    wasted: nat,                         // permits sent since then to a broker without the subscription
    control: nat,                        // control frames read since then
    stale: nat)                          // weight read since then from an abandoned channel

  function Initial(c: Config): World {
    World(Start(c), true, c.batchSize, map[0 := []], c.batchSize, c.batchSize, 0, 0, 0)
  }

  /** Messages in flight: control frames cost no permit. */
  function Load(q: seq<Inbound>): nat {
    if q == [] then 0 else (if q[0].Topic? then Weight(q[0]) else 0) + Load(q[1..])
  }

  lemma {:induction false} LoadAppend(q: seq<Inbound>, f: Inbound)
    ensures Load(q + [f]) == Load(q) + if f.Topic? then Weight(f) else 0
  {
    if q == [] {
      assert q + [f] == [f];
    } else {
      assert (q + [f])[1..] == q[1..] + [f];
      LoadAppend(q[1..], f);
    }
  }

  predicate Sound(w: World) {
    w.e.session in w.queues && w.e.reading in w.queues
  }

  /** Permits granted to the subscription in use and not yet spent on a processed message. */
  function Outstanding(w: World): int
    requires Sound(w)
  {
    w.permits + Load(w.queues[w.e.session])
  }

  datatype Account = Account(permits: int, live: bool, wasted: nat)

  function AccountOf(w: World): Account {
    Account(w.permits, w.live, w.wasted)
  }

  function CreditOne(a: Account, f: Effect): Account {
    match f
    case Subscribed => Account(0, true, 0)
    case Abandoned(live) => Account(0, live, 0)
    case FlowSent(n) => if a.live then a.(permits := a.permits + n) else a.(wasted := a.wasted + n)
    case _ => a
  }

  function Credit(a: Account, effects: seq<Effect>): Account {
    if effects == [] then a else CreditOne(Credit(a, Front(effects)), Last(effects))
  }

  datatype Move =
    | Loop(broken: bool, reopening: Reopening, flow: FlowOutcome)
    | Wake(wakeup: Wakeup)
    | BrokerSends(frame: Inbound)
    | StaleArrives(frame: Inbound)

  predicate Enabled(w: World, m: Move) {
    Sound(w) &&
    match m
    case Loop(_, _, _) => w.e.phase == AtTop
    case Wake(Frame(f, _)) => w.e.phase == AtWait && w.queues[w.e.reading] != [] && w.queues[w.e.reading][0] == f
    case Wake(_) => w.e.phase == AtWait
    case BrokerSends(_) => w.live
    case StaleArrives(_) => w.e.reading != w.e.session
  }

  /**
   The engine stepped to `e`; `grant` and `counter` are those of its last reconnect, if there was
   one.  A pass may reconnect twice.
   */
  function Stepped(w: World, e: State, effects: seq<Effect>, grant: nat, counter: nat): World {
    var a := Credit(AccountOf(w), effects);
    var w1 := w.(e := e, permits := a.permits, live := a.live, wasted := a.wasted);
    if e.session == w.e.session then w1
    else
      w1.(queues := w.queues[w.e.session + 1 := []][e.session := []],
          grant := grant, counter := counter, control := 0, stale := 0)
  }

  /** The frame leaves its channel and is booked. */
  function Popped(w: World): World
    requires Sound(w) && w.queues[w.e.reading] != []
  {
    var q := w.queues[w.e.reading];
    var w := w.(queues := w.queues[w.e.reading := q[1..]]);
    if w.e.reading != w.e.session then w.(stale := w.stale + Weight(q[0]))
    else if q[0].Topic? then w
    else w.(control := w.control + 1)
  }

  /** What the engine does on a move, if it is the engine's. */
  function EngineStep(c: Config, w: World, m: Move): (State, seq<Effect>) {
    match m
    case Loop(broken, r, flow) => TopSpec(c, w.e, broken, r, flow)
    case Wake(u) => WaitSpec(c, w.e, u)
    case _ => (w.e, [])
  }

  function Apply(c: Config, w: World, m: Move): World
    requires Enabled(w, m)
  {
    var (e, effects) := EngineStep(c, w, m);
    match m
    case Loop(_, _, _) => Stepped(w, e, effects, c.batchSize, w.e.remaining)
    case Wake(Frame(f, luck)) =>
      Stepped(Popped(w), e, effects, if luck.reopening.Reopened? then c.batchSize else 0,
              Max(0, w.e.remaining - Weight(f)))
    case Wake(_) => Stepped(w, e, effects, 0, 0)
    case BrokerSends(f) =>
      w.(queues := w.queues[w.e.session := w.queues[w.e.session] + [f]],
         permits := if f.Topic? then w.permits - Weight(f) else w.permits,
         live := !f.ClosedByBroker?)
    case StaleArrives(f) =>
      w.(queues := w.queues[w.e.reading := w.queues[w.e.reading] + [f]])
  }

  /** Every permit is accounted for since the last reconnect. */
  ghost predicate Conserved(w: World)
    requires Sound(w)
  {
    Outstanding(w) + w.wasted + w.counter == w.e.remaining + w.grant + w.control + w.stale
  }

  ghost predicate Bounded(c: Config, w: World) {
    w.e.remaining <= c.batchSize && w.counter <= c.batchSize && w.grant <= c.batchSize
  }

  /** Channels are numbered in the order of their connections; the one read is never newer than the one in use. */
  ghost predicate Numbered(c: Config, w: World) {
    && w.e.reading <= w.e.session
    && (w.e.reading == w.e.session ==> w.grant == c.batchSize)
    && (forall q :: q in w.queues ==> q <= w.e.session)
  }

  ghost predicate Inv(c: Config, w: World) {
    && Sound(w) && Bounded(c, w) && Numbered(c, w)
    && (w.e.phase == AtWait ==> w.e.remaining >= c.batchSize / 2)
    && (w.live ==> w.wasted == 0)
    && (ClosedByBroker in w.queues[w.e.session] ==> !w.live)
    && (!w.e.phase.Ended? ==> Conserved(w))
  }

  lemma CreditSnoc(a: Account, effects: seq<Effect>, f: Effect)
    ensures Credit(a, effects + [f]) == CreditOne(Credit(a, effects), f)
  {
    assert Front(effects + [f]) == effects;
  }

  lemma {:induction false} CreditAppend(a: Account, x: seq<Effect>, y: seq<Effect>)
    ensures Credit(a, x + y) == Credit(Credit(a, x), y)
  {
    if y == [] {
      assert x + y == x;
    } else {
      assert x + y == (x + Front(y)) + [Last(y)];
      CreditAppend(a, x, Front(y));
      CreditSnoc(a, x + Front(y), Last(y));
    }
  }

  lemma CreditSingle(a: Account, f: Effect)
    ensures Credit(a, [f]) == CreditOne(a, f)
  {
    assert [] + [f] == [f];
    CreditSnoc(a, [], f);
  }

  lemma CreditReopen(c: Config, a: Account, r: Reopening)
    ensures Credit(a, ReopenEffects(c, r)) ==
            match r
            case Reopened => Account(c.batchSize, true, 0)
            case FailedEarly => a
            case FailedLate(live) => Account(0, live, 0)
  {
    match r
    case Reopened =>
      assert [Subscribed] + [FlowSent(c.batchSize)] == ReopenEffects(c, r);
      CreditSingle(a, Subscribed);
      CreditSnoc(a, [Subscribed], FlowSent(c.batchSize));
    case FailedEarly => CreditSingle(a, Unreached);
    case FailedLate(live) => CreditSingle(a, Abandoned(live));
  }

  /** Handing over, acking and redelivery requests cost no permit. */
  lemma {:induction false} CreditIgnores(a: Account, effects: seq<Effect>)
    requires forall f :: f in effects ==> f.HandedOver? || f.AckSent? || f.RedeliveryAsked?
    ensures Credit(a, effects) == a
  {
    if effects == [] {
    } else {
      assert forall f :: f in Front(effects) ==> f in effects;
      CreditIgnores(a, Front(effects));
      assert Last(effects) in effects;
    }
  }

  /** A Flow goes out while the engine stays on its connection. */
  lemma FlowKept(c: Config, w: World)
    requires Inv(c, w) && w.e.phase == AtTop && w.e.remaining < c.batchSize / 2
    ensures Inv(c, Stepped(w, w.e.(remaining := c.batchSize, phase := AtWait), [FlowSent(Refill(c, w.e))],
                           c.batchSize, w.e.remaining))
  {
    CreditSingle(AccountOf(w), FlowSent(Refill(c, w.e)));
  }

  /** A reconnect, seen from the broker. */
  lemma ReopenKept(c: Config, w: World, r: Reopening, grant: nat, phase: Phase)
    requires Inv(c, w) && w.e.phase == AtTop && phase != AtWait
    requires grant == if r.Reopened? then c.batchSize else 0
    ensures Inv(c, Stepped(w, Reopen(w.e, r).(phase := phase), ReopenEffects(c, r), grant, w.e.remaining))
  {
    CreditReopen(c, AccountOf(w), r);
  }

  /** A reconnect that ends the engine need not be accounted for. */
  lemma LastReopenKept(c: Config, w: World, r: Reopening, why: Ending)
    requires Inv(c, w) && w.e.phase == AtTop
    ensures Inv(c, Stepped(w, Reopen(w.e, r).(phase := Ended(why)), ReopenEffects(c, r), c.batchSize, w.e.remaining))
  {
    CreditReopen(c, AccountOf(w), r);
  }

  /** Two steps on one connection after the other. */
  lemma SteppedTwice(w: World, e1: State, x: seq<Effect>, e2: State, y: seq<Effect>, grant: nat, counter: nat)
    requires e1.session == w.e.session + 1 && e1.session <= e2.session <= w.e.session + 2
    ensures var w1 := Stepped(w, e1, x, grant, counter);
            Stepped(w, e2, x + y, grant, counter) == Stepped(w1, e2, y, grant, counter)
  {
    CreditAppend(AccountOf(w), x, y);
  }

  lemma RefillKept(c: Config, w: World, flow: FlowOutcome)
    requires Inv(c, w) && w.e.phase == AtTop
    ensures var (e, effects) := RefillSpec(c, w.e, flow);
            Inv(c, Stepped(w, e, effects, c.batchSize, w.e.remaining))
  {
    if w.e.remaining < c.batchSize / 2 {
      match flow
      case FlowOk => FlowKept(c, w);
      case FlowDisconnected(r, again) =>
        if r.Reopened? && again {
          var w1 := Stepped(w, Reopen(w.e, r), ReopenEffects(c, r), c.batchSize, w.e.remaining);
          ReopenKept(c, w, r, c.batchSize, AtTop);
          FlowKept(c, w1);
          SteppedTwice(w, w1.e, ReopenEffects(c, r), w1.e.(remaining := c.batchSize, phase := AtWait),
                       [FlowSent(Refill(c, w.e))], c.batchSize, w.e.remaining);
        } else {
          LastReopenKept(c, w, r, ConnectionFailed);
        }
      case FlowError =>
    }
  }

  lemma RefillSession(c: Config, e: State, flow: FlowOutcome)
    ensures var e1 := RefillSpec(c, e, flow).0;
            && e.session <= e1.session <= e.session + 1 && e1.held == e.held
            && (e1.reading == e.reading || e1.reading == e1.session == e.session + 1)
  {
  }

  lemma LoopKept(c: Config, w: World, broken: bool, r: Reopening, flow: FlowOutcome)
    requires Inv(c, w) && Enabled(w, Loop(broken, r, flow))
    ensures Inv(c, Apply(c, w, Loop(broken, r, flow)))
  {
    if !broken {
      RefillKept(c, w, flow);
    } else if !r.Reopened? {
      LastReopenKept(c, w, r, ConnectionFailed);
    } else {
      var e1 := Reopen(w.e, r);
      var w1 := Stepped(w, e1, ReopenEffects(c, r), c.batchSize, w.e.remaining);
      ReopenKept(c, w, r, c.batchSize, AtTop);
      RefillKept(c, w1, flow);
      RefillSession(c, e1, flow);
      var (e2, effects) := RefillSpec(c, e1, flow);
      SteppedTwice(w, e1, ReopenEffects(c, r), e2, effects, c.batchSize, w.e.remaining);
    }
  }

  /** Booking the frame and lowering the counter go together. */
  lemma PoppedKept(c: Config, w: World)
    requires Inv(c, w) && w.e.phase == AtWait && w.queues[w.e.reading] != []
    requires Weight(w.queues[w.e.reading][0]) <= w.e.remaining
    ensures var f := w.queues[w.e.reading][0];
            Inv(c, Popped(w).(e := w.e.(held := false, remaining := w.e.remaining - Weight(f), phase := AtTop)))
  {
  }

  lemma ProcessedKept(c: Config, w: World, f: Inbound, luck: Luck)
    requires Inv(c, w) && w.e.phase == AtTop && !w.e.held
    ensures var (e, effects) := ProcessSpec(c, w.e, f, luck);
            Inv(c, Stepped(w, e, effects, if luck.reopening.Reopened? then c.batchSize else 0, w.e.remaining))
  {
    var (e, effects) := ProcessSpec(c, w.e, f, luck);
    if WorkFor(c, f).Renew? {
      ReopenKept(c, w, luck.reopening, if luck.reopening.Reopened? then c.batchSize else 0, e.phase);
    } else {
      CreditIgnores(AccountOf(w), effects);
    }
  }

  /** Processing sets the phase whatever it was. */
  lemma ProcessPhase(c: Config, e: State, f: Inbound, luck: Luck)
    ensures ProcessSpec(c, e, f, luck) == ProcessSpec(c, e.(phase := AtTop), f, luck)
  {
  }

  lemma FrameIsPopThenProcess(c: Config, w: World, f: Inbound, luck: Luck)
    requires Enabled(w, Wake(Frame(f, luck))) && Weight(f) <= w.e.remaining
    ensures var w1 := Popped(w).(e := w.e.(held := false, remaining := w.e.remaining - Weight(f), phase := AtTop));
            var (e, effects) := ProcessSpec(c, w1.e, f, luck);
            Apply(c, w, Wake(Frame(f, luck))) ==
            Stepped(w1, e, effects, if luck.reopening.Reopened? then c.batchSize else 0, w1.e.remaining)
  {
    ProcessPhase(c, w.e.(held := false, remaining := w.e.remaining - Weight(f)), f, luck);
  }

  lemma FrameKept(c: Config, w: World, f: Inbound, luck: Luck)
    requires Inv(c, w) && Enabled(w, Wake(Frame(f, luck)))
    ensures Inv(c, Apply(c, w, Wake(Frame(f, luck))))
  {
    if Weight(f) <= w.e.remaining {
      var e1 := w.e.(held := false, remaining := w.e.remaining - Weight(f), phase := AtTop);
      PoppedKept(c, w);
      ProcessedKept(c, Popped(w).(e := e1), f, luck);
      FrameIsPopThenProcess(c, w, f, luck);
    } else {
      CreditIgnores(AccountOf(w), []);
    }
  }

  lemma WakeKept(c: Config, w: World, u: Wakeup)
    requires Inv(c, w) && Enabled(w, Wake(u)) && !u.Frame?
    ensures Inv(c, Apply(c, w, Wake(u)))
  {
    CreditIgnores(AccountOf(w), WaitSpec(c, w.e, u).1);
  }

  lemma InvKept(c: Config, w: World, m: Move)
    requires Inv(c, w) && Enabled(w, m)
    ensures Inv(c, Apply(c, w, m))
  {
    match m
    case Loop(broken, r, flow) => LoopKept(c, w, broken, r, flow);
    case Wake(u) =>
      if u.Frame? {
        FrameKept(c, w, u.frame, u.luck);
      } else {
        WakeKept(c, w, u);
      }
    case BrokerSends(f) => LoadAppend(w.queues[w.e.session], f);
    case StaleArrives(f) =>
  }

  /** The world after a sequence of moves, if each was possible when it came. */
  function From(c: Config, w: World, moves: seq<Move>): Option<World> {
    if moves == [] then Some(w)
    else
      var before := From(c, w, Front(moves));
      if before.Some? && Enabled(before.value, Last(moves)) then Some(Apply(c, before.value, Last(moves))) else None
  }

  ghost predicate Leads(c: Config, w: World, moves: seq<Move>, w': World) {
    From(c, w, moves) == Some(w')
  }

  ghost predicate Runs(c: Config, moves: seq<Move>, w: World) {
    Leads(c, Initial(c), moves, w)
  }

  /** The last step of a run. */
  lemma LastStep(c: Config, w: World, moves: seq<Move>, w': World) returns (w0: World)
    requires Leads(c, w, moves, w') && moves != []
    ensures Leads(c, w, Front(moves), w0) && Enabled(w0, Last(moves)) && w' == Apply(c, w0, Last(moves))
  {
    w0 := From(c, w, Front(moves)).value;
  }

  lemma Extend(c: Config, w: World, moves: seq<Move>, w': World, m: Move)
    requires Leads(c, w, moves, w') && Enabled(w', m)
    ensures Leads(c, w, moves + [m], Apply(c, w', m))
  {
    assert Front(moves + [m]) == moves;
  }

  lemma {:induction false} Chain(c: Config, w: World, a: seq<Move>, w1: World, b: seq<Move>, w2: World)
    requires Leads(c, w, a, w1) && Leads(c, w1, b, w2)
    ensures Leads(c, w, a + b, w2)
  {
    if b == [] {
      assert a + b == a;
    } else {
      var w0 := LastStep(c, w1, b, w2);
      Chain(c, w, a, w1, Front(b), w0);
      Extend(c, w, a + Front(b), w0, Last(b));
      assert a + b == (a + Front(b)) + [Last(b)];
    }
  }

  lemma {:induction false} InvLeads(c: Config, w: World, moves: seq<Move>, w': World)
    requires Inv(c, w) && Leads(c, w, moves, w')
    ensures Inv(c, w')
    decreases |moves|
  {
    if moves == [] {
    } else {
      var w0 := LastStep(c, w, moves, w');
      InvLeads(c, w, Front(moves), w0);
      InvKept(c, w0, Last(moves));
    }
  }

  lemma ReachableInv(c: Config, moves: seq<Move>, w: World)
    requires Runs(c, moves, w)
    ensures Inv(c, w)
  {
    InvLeads(c, Initial(c), moves, w);
  }

  /**
   In every run of a running engine, failed reconnects included: the permits outstanding, those
   wasted and the counter at the last reconnect make up the counter now, what that reconnect granted,
   the control frames and the weight of abandoned frames read since.  So the permits outstanding are
   bounded above, and on a subscription that was granted its batch they cover the counter.
   */
  lemma PermitsAreConserved(c: Config, moves: seq<Move>, w: World)
    requires Runs(c, moves, w) && !w.e.phase.Ended?
    ensures Sound(w)
    ensures Outstanding(w) + w.wasted + w.counter == w.e.remaining + w.grant + w.control + w.stale
    ensures Outstanding(w) <= 2 * c.batchSize + w.control + w.stale
    ensures w.live && w.grant == c.batchSize ==> w.e.remaining <= Outstanding(w)
  {
    ReachableInv(c, moves, w);
  }

  /** A move that leaves the session alone: no reconnect, no control frame read, no close notice sent. */
  predicate QuietMove(m: Move) {
    match m
    case Loop(broken, _, flow) => !broken && !flow.FlowDisconnected?
    case Wake(Frame(f, _)) => f.Topic?
    case BrokerSends(f) => !f.ClosedByBroker?
    case _ => true
  }

  predicate Quiet(moves: seq<Move>) {
    forall i :: 0 <= i < |moves| ==> QuietMove(moves[i])
  }

  ghost predicate Undisturbed(c: Config, w: World) {
    && w.live && w.wasted == w.control == w.stale == 0
    && w.grant == w.counter == c.batchSize && w.e.reading == w.e.session
  }

  lemma QuietKept(c: Config, w: World, m: Move)
    requires Enabled(w, m) && QuietMove(m) && Undisturbed(c, w)
    ensures Undisturbed(c, Apply(c, w, m))
  {
    match m
    case Loop(_, _, _) => CreditSingle(AccountOf(w), FlowSent(Refill(c, w.e)));
    case Wake(u) => CreditIgnores(AccountOf(w), WaitSpec(c, w.e, u).1);
    case _ =>
  }

  lemma {:induction false} QuietRuns(c: Config, moves: seq<Move>, w: World)
    requires Runs(c, moves, w) && Quiet(moves)
    ensures Undisturbed(c, w)
    decreases |moves|
  {
    if moves == [] {
    } else {
      var w0 := LastStep(c, Initial(c), moves, w);
      QuietRuns(c, Front(moves), w0);
      assert QuietMove(moves[|moves| - 1]);
      QuietKept(c, w0, Last(moves));
    }
  }

  /** Inside one undisturbed session the permits are exactly the engine's counter. */
  lemma QuietPermitsAreExact(c: Config, moves: seq<Move>, w: World)
    requires Runs(c, moves, w) && Quiet(moves) && !w.e.phase.Ended?
    ensures Sound(w) && Outstanding(w) == w.e.remaining
  {
    QuietRuns(c, moves, w);
    ReachableInv(c, moves, w);
  }

  lemma QuietExtend(c: Config, moves: seq<Move>, w: World, m: Move)
    requires Runs(c, moves, w) && Quiet(moves) && Enabled(w, m) && QuietMove(m)
    ensures Runs(c, moves + [m], Apply(c, w, m)) && Quiet(moves + [m])
  {
    Extend(c, Initial(c), moves, w, m);
  }

  /** A batch of `n` messages whose payload cannot be read. */
  function Heavy(n: nat): Inbound {
    Topic(MessageId(0, 0, None, None), None, Payload(Metadata(Some(AsI32(n)), [], None, None, 0), []), false)
  }

  lemma HeavyWeighs(n: nat)
    requires n < TWO_32
    ensures Weight(Heavy(n)) == n
  {
  }

  const LUCKY := Luck([], 0, Reopened, true, true)

  /** An engine at the top of its loop, on a live subscription with nothing in flight and no need to refill. */
  predicate Ready(c: Config, w: World) {
    && Sound(w) && w.live && w.e.phase == AtTop && w.e.reading == w.e.session
    && w.queues[w.e.session] == [] && c.batchSize / 2 <= w.e.remaining
  }

  function HeavyRound(n: nat): seq<Move> {
    [Loop(false, Reopened, FlowOk)] + [BrokerSends(Heavy(n))] + [Wake(Frame(Heavy(n), LUCKY))]
  }

  lemma HeavyRead(c: Config, w: World, n: nat)
    requires Sound(w) && w.e.phase == AtWait && w.queues[w.e.reading] == [Heavy(n)] && n < TWO_32
    ensures var m := Wake(Frame(Heavy(n), LUCKY));
            && Enabled(w, m)
            && var w' := Apply(c, w, m);
               if n <= w.e.remaining then
                 w' == w.(e := w.e.(held := false, remaining := w.e.remaining - n, phase := AtTop),
                          queues := w.queues[w.e.reading := []],
                          stale := if w.e.reading == w.e.session then w.stale else w.stale + n)
               else w'.e.phase == Ended(Overflowed)
  {
    HeavyWeighs(n);
    var (e, effects) := FrameSpec(c, w.e, Heavy(n), LUCKY);
    assert effects == [];
    CreditIgnores(AccountOf(w), effects);
  }

  lemma NoRefillNeeded(c: Config, w: World)
    requires Sound(w) && w.e.phase == AtTop && c.batchSize / 2 <= w.e.remaining
    ensures Apply(c, w, Loop(false, Reopened, FlowOk)) == w.(e := w.e.(phase := AtWait))
  {
    CreditIgnores(AccountOf(w), []);
  }

  /** One such batch sent and read. */
  lemma HeavyArrives(c: Config, w: World, n: nat) returns (w': World)
    requires Ready(c, w) && n < TWO_32
    ensures Leads(c, w, HeavyRound(n), w')
    ensures if n <= w.e.remaining then
              w'.e == w.e.(held := false, remaining := w.e.remaining - n, phase := AtTop) &&
              w'.live && w'.queues == w.queues
            else w'.e.phase == Ended(Overflowed)
  {
    var m1, m2, m3 := Loop(false, Reopened, FlowOk), BrokerSends(Heavy(n)), Wake(Frame(Heavy(n), LUCKY));
    NoRefillNeeded(c, w);
    var w1 := Apply(c, w, m1);
    Extend(c, w, [], w, m1);
    assert [] + [m1] == [m1] && [] + [Heavy(n)] == [Heavy(n)];
    var w2 := Apply(c, w1, m2);
    Extend(c, w, [m1], w1, m2);
    assert w2.queues == w.queues[w.e.session := [Heavy(n)]];
    HeavyRead(c, w2, n);
    w' := Apply(c, w2, m3);
    Extend(c, w, [m1] + [m2], w2, m3);
    assert w.queues[w.e.session := [Heavy(n)]][w.e.session := []] == w.queues;
  }

  predicate WeighsAtMost(m: Move, k: nat) {
    m.Wake? && m.wakeup.Frame? ==> Weight(m.wakeup.frame) <= k
  }

  predicate AllWeighAtMost(moves: seq<Move>, k: nat) {
    forall i :: 0 <= i < |moves| ==> WeighsAtMost(moves[i], k)
  }

  lemma HeavyRoundsWeigh(a: nat, b: nat, k: nat)
    requires a < TWO_32 && b < TWO_32 && a <= k && b <= k
    ensures AllWeighAtMost(HeavyRound(a) + HeavyRound(b), k)
  {
    HeavyWeighs(a);
    HeavyWeighs(b);
    assert WeighsAtMost(Wake(Frame(Heavy(a), LUCKY)), k) && WeighsAtMost(Wake(Frame(Heavy(b), LUCKY)), k);
  }

  lemma ProcessNeverOverflows(c: Config, e: State, f: Inbound, luck: Luck)
    ensures ProcessSpec(c, e, f, luck).0.phase != Ended(Overflowed)
  {
  }

  lemma TopNeverOverflows(c: Config, e: State, broken: bool, r: Reopening, flow: FlowOutcome)
    ensures TopSpec(c, e, broken, r, flow).0.phase != Ended(Overflowed)
  {
  }

  lemma WaitOverflows(c: Config, e: State, u: Wakeup)
    requires WaitSpec(c, e, u).0.phase == Ended(Overflowed)
    ensures u.Frame? && Weight(u.frame) > e.remaining
  {
    if u.Frame? && Weight(u.frame) <= e.remaining {
      ProcessNeverOverflows(c, e.(held := false, remaining := e.remaining - Weight(u.frame)), u.frame, u.luck);
    }
  }

  /** Only a frame that weighs more than is left makes the counter underflow. */
  lemma OverflowNeedsHeavyFrame(c: Config, w: World, m: Move)
    requires Enabled(w, m) && w.e.phase != Ended(Overflowed) && Apply(c, w, m).e.phase == Ended(Overflowed)
    ensures m.Wake? && m.wakeup.Frame? && Weight(m.wakeup.frame) > w.e.remaining
  {
    assert Apply(c, w, m).e == EngineStep(c, w, m).0;
    match m
    case Loop(broken, r, flow) => TopNeverOverflows(c, w.e, broken, r, flow);
    case Wake(u) => WaitOverflows(c, w.e, u);
    case _ =>
  }

  /** The counter never underflows as long as no frame weighs more than half a batch. */
  lemma {:induction false} LightFramesNeverUnderflow(c: Config, moves: seq<Move>, w: World)
    requires Runs(c, moves, w) && AllWeighAtMost(moves, c.batchSize / 2)
    ensures w.e.phase != Ended(Overflowed)
    decreases |moves|
  {
    if moves == [] {
    } else {
      var w0 := LastStep(c, Initial(c), moves, w);
      LightFramesNeverUnderflow(c, Front(moves), w0);
      ReachableInv(c, Front(moves), w0);
      assert WeighsAtMost(moves[|moves| - 1], c.batchSize / 2);
      if w.e.phase == Ended(Overflowed) {
        OverflowNeedsHeavyFrame(c, w0, Last(moves));
      }
    }
  }

  ghost predicate Underflows(c: Config, moves: seq<Move>, k: nat) {
    AllWeighAtMost(moves, k) && exists w :: Runs(c, moves, w) && w.e.phase == Ended(Overflowed)
  }

  lemma HeavyRounds(c: Config, a: nat, b: nat) returns (w: World)
    requires a < TWO_32 && b < TWO_32 && a <= c.batchSize && c.batchSize / 2 <= c.batchSize - a < b
    ensures Runs(c, HeavyRound(a) + HeavyRound(b), w) && w.e.phase == Ended(Overflowed)
  {
    var w1 := HeavyArrives(c, Initial(c), a);
    assert Ready(c, w1);
    w := HeavyArrives(c, w1, b);
    Chain(c, Initial(c), HeavyRound(a), w1, HeavyRound(b), w);
  }

  /** Two batches, the second one message more than half a batch, are enough for it. */
  lemma HeavyFramesUnderflow(c: Config, k: nat)
    requires c.batchSize < TWO_32 && k > c.batchSize / 2
    ensures exists moves :: Underflows(c, moves, k)
  {
    var a, b := c.batchSize - c.batchSize / 2, c.batchSize / 2 + 1;
    var moves := HeavyRound(a) + HeavyRound(b);
    HeavyRoundsWeigh(a, b, k);
    var w := HeavyRounds(c, a, b);
    assert Underflows(c, moves, k);
  }

  /**
   The subtraction from `remaining_messages` is safe for frames of up to `k` messages exactly when
   `k` is at most half the batch size.
   */
  lemma SafeExactlyUpToHalfABatch(c: Config, k: nat)
    requires c.batchSize < TWO_32
    ensures (exists moves :: Underflows(c, moves, k)) <==> k > c.batchSize / 2
  {
    if k > c.batchSize / 2 {
      HeavyFramesUnderflow(c, k);
    } else {
      forall moves | Underflows(c, moves, k) ensures false {
        var w :| Runs(c, moves, w) && w.e.phase == Ended(Overflowed);
        forall i | 0 <= i < |moves| ensures WeighsAtMost(moves[i], c.batchSize / 2) {
          assert WeighsAtMost(moves[i], k);
        }
        LightFramesNeverUnderflow(c, moves, w);
      }
    }
  }

  /** A broker that never sends more messages than it has permits for. */
  predicate ThriftyMove(w: World, m: Move) {
    m.BrokerSends? && m.frame.Topic? ==> Weight(m.frame) <= w.permits
  }

  ghost predicate Thrifty(c: Config, moves: seq<Move>) {
    forall i :: 0 <= i < |moves| && From(c, Initial(c), moves[..i]).Some? ==>
                  ThriftyMove(From(c, Initial(c), moves[..i]).value, moves[i])
  }

  lemma ThriftyFront(c: Config, moves: seq<Move>)
    requires moves != [] && Thrifty(c, moves)
    ensures Thrifty(c, Front(moves))
    ensures From(c, Initial(c), Front(moves)).Some? ==> ThriftyMove(From(c, Initial(c), Front(moves)).value, Last(moves))
  {
    var front := Front(moves);
    assert moves[..|moves| - 1] == front;
    forall i | 0 <= i < |front| && From(c, Initial(c), front[..i]).Some?
      ensures ThriftyMove(From(c, Initial(c), front[..i]).value, front[i])
    {
      assert front[..i] == moves[..i];
    }
  }

  lemma ThriftyStep(c: Config, w: World, m: Move)
    requires Enabled(w, m) && QuietMove(m) && Undisturbed(c, w) && ThriftyMove(w, m) && w.permits >= 0
    ensures Apply(c, w, m).permits >= 0
  {
    match m
    case Loop(_, _, _) => CreditSingle(AccountOf(w), FlowSent(Refill(c, w.e)));
    case Wake(u) => CreditIgnores(AccountOf(w), WaitSpec(c, w.e, u).1);
    case _ =>
  }

  lemma {:induction false} ThriftyPermitsStayPositive(c: Config, moves: seq<Move>, w: World)
    requires Runs(c, moves, w) && Quiet(moves) && Thrifty(c, moves)
    ensures w.permits >= 0
    decreases |moves|
  {
    if moves == [] {
    } else {
      var w0 := LastStep(c, Initial(c), moves, w);
      ThriftyFront(c, moves);
      ThriftyPermitsStayPositive(c, Front(moves), w0);
      QuietRuns(c, Front(moves), w0);
      assert QuietMove(moves[|moves| - 1]);
      ThriftyStep(c, w0, Last(moves));
    }
  }

  /** Nor does the counter underflow when the broker keeps to its permits and the session is undisturbed. */
  lemma {:induction false} ThriftyBrokerNeverUnderflows(c: Config, moves: seq<Move>, w: World)
    requires Runs(c, moves, w) && Quiet(moves) && Thrifty(c, moves)
    ensures w.e.phase != Ended(Overflowed)
    decreases |moves|
  {
    if moves == [] {
    } else {
      var w0 := LastStep(c, Initial(c), moves, w);
      var m := Last(moves);
      ThriftyFront(c, moves);
      ThriftyBrokerNeverUnderflows(c, Front(moves), w0);
      if m.Wake? && m.wakeup.Frame? {
        assert QuietMove(moves[|moves| - 1]);
        ThriftyPermitsStayPositive(c, Front(moves), w0);
        QuietRuns(c, Front(moves), w0);
        QuietPermitsAreExact(c, Front(moves), w0);
        assert Weight(m.wakeup.frame) <= Load(w0.queues[w0.e.session]) <= w0.e.remaining;
      }
      if w.e.phase == Ended(Overflowed) {
        OverflowNeedsHeavyFrame(c, w0, m);
      }
    }
  }
}
