/**
 The shared table of broker connections.

 Any number of tasks ask for connections to any brokers.  The first to ask for a broker dials; the
 others may queue on its entry as waiters.  The class `ConnectionManager` is the table with its
 critical sections; the transition system below interleaves the tasks between those sections.
 Calls run to completion and the executor accepts the heartbeat task, as both executors do.
 */
module ConnectionManagement {
  import opened Prelude

  /** The key of the table: a broker address, by name; addresses are only ever compared. */
  type BrokerAddress = nat

  type Conn = nat

  /** One call of `get_connection` or `connect`; it owns at most one oneshot channel. */
  type Task = nat

  datatype Status = Connected(conn: Conn) | Connecting(waiters: seq<Task>)

  type Table = map<BrokerAddress, Status>

  datatype Looked = Found(conn: Conn) | MustConnect | MustWait

  /** The critical section of `get_connection`. */
  function LookUpSpec(t: Table, b: BrokerAddress, valid: bool, me: Task): (Table, Looked) {
    if b !in t then (t, MustConnect)
    else match t[b]
      case Connected(c) => (t, if valid then Found(c) else MustConnect)
      case Connecting(v) => (t[b := Connecting(v + [me])], MustWait)
  }

  /** The critical section of `connect_inner`: the result says whether the caller must wait. */
  function EnterSpec(t: Table, b: BrokerAddress, me: Task): (Table, bool) {
    if b !in t then (t[b := Connecting([])], false)
    else match t[b]
      case Connected(_) => (t, false)
      case Connecting(v) => if v == [] then (t, false) else (t[b := Connecting(v + [me])], true)
  }

  function WaitersOf(t: Table, b: BrokerAddress): seq<Task> {
    if b in t && t[b].Connecting? then t[b].waiters else []
  }

  /** `check_connections` keeps entries being dialed and connections that are valid and in use. */
  function CleanSpec(t: Table, keep: set<Conn>): Table {
    map b | b in t && (t[b].Connecting? || t[b].conn in keep) :: t[b]
  }

  class ConnectionManager {
    var connections: Table

    constructor ()
      ensures connections == map[]
    {
      connections := map[];
    }

    method LookUp(broker: BrokerAddress, isValid: bool, tx: Task) returns (r: Looked)
      modifies this
      ensures (connections, r) == LookUpSpec(old(connections), broker, isValid, tx)
    {
      if broker !in connections {
        return MustConnect;
      }
      match connections[broker]
      case Connected(c) =>
        if isValid {
          return Found(c);
        }
        return MustConnect;
      case Connecting(v) =>
        connections := connections[broker := Connecting(v + [tx])];
        return MustWait;
    }

    method Enter(broker: BrokerAddress, tx: Task) returns (wait: bool)
      modifies this
      ensures (connections, wait) == EnterSpec(old(connections), broker, tx)
    {
      if broker !in connections {
        connections := connections[broker := Connecting([])];
      }
      match connections[broker]
      case Connecting(v) =>
        if v == [] {
          return false;
        }
        connections := connections[broker := Connecting(v + [tx])];
        return true;
      case Connected(_) =>
        return false;
    }

    /** The waiters returned are told that the connection was cancelled. */
    method RemoveFailed(broker: BrokerAddress) returns (cancelled: seq<Task>)
      modifies this
      ensures connections == old(connections) - {broker}
      ensures cancelled == WaitersOf(old(connections), broker)
    {
      cancelled := [];
      if broker in connections && connections[broker].Connecting? {
        cancelled := connections[broker].waiters;
      }
      connections := connections - {broker};
    }

    /** The waiters returned are given the new connection. */
    method Insert(broker: BrokerAddress, conn: Conn) returns (served: seq<Task>)
      modifies this
      ensures connections == old(connections)[broker := Connected(conn)]
      ensures served == WaitersOf(old(connections), broker)
    {
      served := [];
      if broker in connections && connections[broker].Connecting? {
        served := connections[broker].waiters;
      }
      connections := connections[broker := Connected(conn)];
    }

    method CheckConnections(keep: set<Conn>)
      modifies this
      ensures connections == CleanSpec(old(connections), keep)
    {
      connections := map b | b in connections && (connections[b].Connecting? || connections[b].conn in keep)
        :: connections[b];
    }
  }

  /** Where a call is between two critical sections. */
  datatype Phase =
    | Looking
    | Entering
    | Dialing
    | Storing(conn: Conn)
    | Clearing
    | AwaitingLookup
    | AwaitingConnect
    | Returned(result: Option<Conn>)

  predicate Running(p: Phase) {
    p.Dialing? || p.Storing? || p.Clearing?
  }

  predicate Waiting(p: Phase) {
    p.AwaitingLookup? || p.AwaitingConnect?
  }

  datatype Call = Call(broker: BrokerAddress, phase: Phase)

  datatype State = State(
    table: Table,
    calls: map<Task, Call>,
    answers: map<Task, Option<Conn>>,      // None: cancelled
    creator: map<BrokerAddress, Task>,     // who made the current Connecting entry
    made: map<Conn, BrokerAddress>)        // what each connection was dialed for

  const INITIAL := State(map[], map[], map[], map[], map[])

  datatype Move =
    | GetConnection(task: Task, broker: BrokerAddress)
    | Connect(task: Task, broker: BrokerAddress)
    | DoLookUp(task: Task, valid: bool)
    | DoEnter(task: Task)
    | DialSucceeds(task: Task, conn: Conn)
    | DialFails(task: Task)
    | DoStore(task: Task)
    | DoClear(task: Task)
    | Resume(task: Task)
    | Clean(keep: set<Conn>)

  predicate InPhase(s: State, t: Task, p: Phase) {
    t in s.calls && s.calls[t].phase == p
  }

  predicate Enabled(s: State, m: Move) {
    match m
    case GetConnection(t, _) => t !in s.calls
    case Connect(t, _) => t !in s.calls
    case DoLookUp(t, _) => InPhase(s, t, Looking)
    case DoEnter(t) => InPhase(s, t, Entering)
    case DialSucceeds(t, c) => InPhase(s, t, Dialing) && c !in s.made
    case DialFails(t) => InPhase(s, t, Dialing)
    case DoStore(t) => t in s.calls && s.calls[t].phase.Storing?
    case DoClear(t) => InPhase(s, t, Clearing)
    case Resume(t) => t in s.calls && Waiting(s.calls[t].phase) && t in s.answers
    case Clean(_) => true
  }

  function Go(s: State, t: Task, p: Phase): State
    requires t in s.calls
  {
    s.(calls := s.calls[t := s.calls[t].(phase := p)])
  }

  function AnswerAll(answers: map<Task, Option<Conn>>, waiters: seq<Task>, a: Option<Conn>): map<Task, Option<Conn>> {
    answers + map w | w in waiters :: a
  }

  function Apply(s: State, m: Move): State
    requires Enabled(s, m)
  {
    match m
    case GetConnection(t, b) => s.(calls := s.calls[t := Call(b, Looking)])
    case Connect(t, b) => s.(calls := s.calls[t := Call(b, Entering)])
    case DoLookUp(t, valid) =>
      var (table, r) := LookUpSpec(s.table, s.calls[t].broker, valid, t);
      Go(s, t, match r
               case Found(c) => Returned(Some(c))
               case MustConnect => Entering
               case MustWait => AwaitingLookup).(table := table)
    case DoEnter(t) =>
      var b := s.calls[t].broker;
      var (table, wait) := EnterSpec(s.table, b, t);
      Go(s, t, if wait then AwaitingConnect else Dialing)
      .(table := table, creator := if b !in s.table then s.creator[b := t] else s.creator)
    case DialSucceeds(t, c) => Go(s, t, Storing(c)).(made := s.made[c := s.calls[t].broker])
    case DialFails(t) => Go(s, t, Clearing)
    case DoStore(t) =>
      var b, c := s.calls[t].broker, s.calls[t].phase.conn;
      Go(s, t, Returned(Some(c)))
      .(table := s.table[b := Connected(c)], answers := AnswerAll(s.answers, WaitersOf(s.table, b), Some(c)))
    case DoClear(t) =>
      var b := s.calls[t].broker;
      Go(s, t, Returned(None))
      .(table := s.table - {b}, answers := AnswerAll(s.answers, WaitersOf(s.table, b), None))
    case Resume(t) =>
      var a := s.answers[t];
      Go(s, t, if s.calls[t].phase.AwaitingLookup? then Returned(a)
               else if a.Some? then Storing(a.value) else Clearing)
    case Clean(keep) => s.(table := CleanSpec(s.table, keep))
  }

  /** A call that waits for an answer it has not been given. */
  predicate Unanswered(s: State, t: Task) {
    t in s.calls && Waiting(s.calls[t].phase) && t !in s.answers
  }

  predicate NoDuplicates(v: seq<Task>) {
    forall i, j :: 0 <= i < j < |v| ==> v[i] != v[j]
  }

  predicate MadeFor(s: State, c: Conn, b: BrokerAddress) {
    c in s.made && s.made[c] == b
  }

  /**
   An unanswered call is queued on the entry of its broker; a call is answered only after it began
   to wait; and every connection it holds was dialed for its own broker.
   */
  ghost predicate CallOk(s: State, t: Task)
    requires t in s.calls
  {
    var Call(b, p) := s.calls[t];
    && (Unanswered(s, t) ==> t in WaitersOf(s.table, b))
    && (t in s.answers ==> p != Looking && p != Entering)
    && (t in s.answers && s.answers[t].Some? ==> MadeFor(s, s.answers[t].value, b))
    && (p.Storing? ==> MadeFor(s, p.conn, b))
    && (p.Returned? && p.result.Some? ==> MadeFor(s, p.result.value, b))
  }

  /** The call that made the entry of `b` is still at work on it. */
  predicate CreatorRuns(s: State, b: BrokerAddress) {
    b in s.creator && s.creator[b] in s.calls &&
    s.calls[s.creator[b]].broker == b && Running(s.calls[s.creator[b]].phase)
  }

  predicate Queued(s: State, w: Task, b: BrokerAddress) {
    Unanswered(s, w) && s.calls[w].broker == b
  }

  ghost predicate EntryOk(s: State, b: BrokerAddress)
    requires b in s.table
  {
    match s.table[b]
    case Connected(c) => MadeFor(s, c, b)
    case Connecting(v) => NoDuplicates(v) && CreatorRuns(s, b) && forall w :: w in v ==> Queued(s, w, b)
  }

  ghost predicate Inv(s: State) {
    && s.answers.Keys <= s.calls.Keys
    && (forall t :: t in s.calls ==> CallOk(s, t))
    && (forall b :: b in s.table ==> EntryOk(s, b))
  }

  lemma QueueOne(v: seq<Task>, t: Task)
    requires NoDuplicates(v) && t !in v
    ensures NoDuplicates(v + [t])
  {
  }

  predicate BeingDialed(s: State, b: BrokerAddress) {
    b in s.table && s.table[b].Connecting?
  }

  /** A new call. */
  lemma StartKept(s: State, t: Task, b: BrokerAddress, p: Phase)
    requires Inv(s) && t !in s.calls && (p == Looking || p == Entering)
    ensures Inv(s.(calls := s.calls[t := Call(b, p)]))
  {
  }

  /** A call that moves on without waiting and without touching the table. */
  lemma GoKept(s: State, t: Task, p: Phase)
    requires Inv(s) && t in s.calls && !Unanswered(s, t) && !Waiting(p) && p != Looking
    requires p == Entering ==> s.calls[t].phase == Looking
    requires Running(s.calls[t].phase) ==> Running(p) || !BeingDialed(s, s.calls[t].broker)
    requires p.Storing? ==> MadeFor(s, p.conn, s.calls[t].broker)
    requires p.Returned? && p.result.Some? ==> MadeFor(s, p.result.value, s.calls[t].broker)
    ensures Inv(Go(s, t, p))
  {
  }

  function Enqueued(s: State, t: Task, p: Phase): State
    requires t in s.calls
  {
    var b := s.calls[t].broker;
    Go(s, t, p).(table := s.table[b := Connecting(WaitersOf(s.table, b) + [t])])
  }

  lemma EnqueuedCalls(s: State, t: Task, p: Phase, u: Task)
    requires Inv(s) && t in s.calls && (s.calls[t].phase == Looking || s.calls[t].phase == Entering)
    requires BeingDialed(s, s.calls[t].broker) && Waiting(p) && u in s.calls
    ensures CallOk(Enqueued(s, t, p), u)
  {
  }

  lemma EnqueuedEntries(s: State, t: Task, p: Phase, b: BrokerAddress)
    requires Inv(s) && t in s.calls && (s.calls[t].phase == Looking || s.calls[t].phase == Entering)
    requires BeingDialed(s, s.calls[t].broker) && Waiting(p) && b in s.table
    ensures EntryOk(Enqueued(s, t, p), b)
  {
    var s', mine := Enqueued(s, t, p), s.calls[t].broker;
    assert EntryOk(s, b) && CallOk(s, t);
    assert forall w :: Queued(s, w, b) ==> Queued(s', w, b);
    assert CreatorRuns(s, b) ==> CreatorRuns(s', b);
    if b == mine {
      assert Queued(s', t, b) && !Queued(s, t, b);
      QueueOne(s.table[b].waiters, t);
    }
  }

  /** A call that queues on an entry being dialed. */
  lemma EnqueuedKept(s: State, t: Task, p: Phase)
    requires Inv(s) && t in s.calls && (s.calls[t].phase == Looking || s.calls[t].phase == Entering)
    requires BeingDialed(s, s.calls[t].broker) && Waiting(p)
    ensures Inv(Enqueued(s, t, p))
  {
    var s' := Enqueued(s, t, p);
    forall u | u in s'.calls ensures CallOk(s', u) {
      EnqueuedCalls(s, t, p, u);
    }
    forall b | b in s'.table ensures EntryOk(s', b) {
      EnqueuedEntries(s, t, p, b);
    }
  }

  function Created(s: State, t: Task): State
    requires t in s.calls
  {
    var b := s.calls[t].broker;
    Go(s, t, Dialing).(table := s.table[b := Connecting([])], creator := s.creator[b := t])
  }

  /** A call that makes the entry it will dial for. */
  lemma CreatedKept(s: State, t: Task)
    requires Inv(s) && InPhase(s, t, Entering) && s.calls[t].broker !in s.table
    ensures Inv(Created(s, t))
  {
    var s', mine := Created(s, t), s.calls[t].broker;
    forall u | u in s'.calls ensures CallOk(s', u) {
      assert CallOk(s, u);
    }
    forall b | b in s'.table ensures EntryOk(s', b) {
      if b != mine {
        assert EntryOk(s, b);
        assert forall w :: Queued(s, w, b) ==> Queued(s', w, b);
        assert CreatorRuns(s, b) ==> CreatorRuns(s', b);
      }
    }
  }

  /** The entry is replaced or removed and its waiters are answered. */
  function Settled(s: State, b: BrokerAddress, outcome: Option<Conn>): State {
    s.(table := if outcome.Some? then s.table[b := Connected(outcome.value)] else s.table - {b},
       answers := AnswerAll(s.answers, WaitersOf(s.table, b), outcome))
  }

  lemma SettledCalls(s: State, b: BrokerAddress, outcome: Option<Conn>, u: Task)
    requires Inv(s) && (outcome.Some? ==> MadeFor(s, outcome.value, b)) && u in s.calls
    ensures CallOk(Settled(s, b, outcome), u)
  {
    var s' := Settled(s, b, outcome);
    var v := WaitersOf(s.table, b);
    assert CallOk(s, u) && (b in s.table ==> EntryOk(s, b));
    if u in v {
      assert Queued(s, u, b) && s'.answers[u] == outcome;
    } else {
      assert Unanswered(s', u) ==> Unanswered(s, u) && s.calls[u].broker != b;
    }
  }

  lemma SettledEntries(s: State, b: BrokerAddress, outcome: Option<Conn>, b': BrokerAddress)
    requires Inv(s) && (outcome.Some? ==> MadeFor(s, outcome.value, b))
    requires b' in Settled(s, b, outcome).table
    ensures EntryOk(Settled(s, b, outcome), b')
  {
    var s' := Settled(s, b, outcome);
    if b' != b {
      assert EntryOk(s, b') && (b in s.table ==> EntryOk(s, b));
      assert forall w :: w in WaitersOf(s.table, b) ==> Queued(s, w, b);
      assert forall w :: Queued(s, w, b') ==> Queued(s', w, b');
    }
  }

  lemma SettledKept(s: State, b: BrokerAddress, outcome: Option<Conn>)
    requires Inv(s) && (outcome.Some? ==> MadeFor(s, outcome.value, b))
    ensures Inv(Settled(s, b, outcome)) && !BeingDialed(Settled(s, b, outcome), b)
  {
    var s' := Settled(s, b, outcome);
    forall u | u in s'.calls ensures CallOk(s', u) {
      SettledCalls(s, b, outcome, u);
    }
    forall b' | b' in s'.table ensures EntryOk(s', b') {
      SettledEntries(s, b, outcome, b');
    }
    assert b in s.table ==> EntryOk(s, b);
    assert forall w :: w in WaitersOf(s.table, b) ==> Queued(s, w, b);
  }

  lemma CleanKept(s: State, keep: set<Conn>)
    requires Inv(s)
    ensures Inv(s.(table := CleanSpec(s.table, keep)))
  {
  }

  lemma MadeKept(s: State, c: Conn, b: BrokerAddress)
    requires Inv(s) && c !in s.made
    ensures Inv(s.(made := s.made[c := b]))
  {
  }

  lemma LookUpKept(s: State, t: Task, valid: bool)
    requires Inv(s) && InPhase(s, t, Looking)
    ensures Inv(Apply(s, DoLookUp(t, valid)))
  {
    var b := s.calls[t].broker;
    assert CallOk(s, t) && (b in s.table ==> EntryOk(s, b));
    if BeingDialed(s, b) {
      EnqueuedKept(s, t, AwaitingLookup);
      assert Apply(s, DoLookUp(t, valid)) == Enqueued(s, t, AwaitingLookup);
    } else {
      var p := if b in s.table && valid then Returned(Some(s.table[b].conn)) else Entering;
      GoKept(s, t, p);
      assert Apply(s, DoLookUp(t, valid)) == Go(s, t, p);
    }
  }

  lemma ResumeKept(s: State, t: Task)
    requires Inv(s) && Enabled(s, Resume(t))
    ensures Inv(Apply(s, Resume(t)))
  {
  }

  lemma EnterKept(s: State, t: Task)
    requires Inv(s) && InPhase(s, t, Entering)
    ensures Inv(Apply(s, DoEnter(t)))
  {
    var b := s.calls[t].broker;
    if b !in s.table {
      CreatedKept(s, t);
    } else if s.table[b].Connecting? && s.table[b].waiters != [] {
      EnqueuedKept(s, t, AwaitingConnect);
    } else {
      GoKept(s, t, Dialing);
    }
  }

  lemma {:induction false} InvKept(s: State, m: Move)
    requires Inv(s) && Enabled(s, m)
    ensures Inv(Apply(s, m))
  {
    match m
    case GetConnection(t, b) => StartKept(s, t, b, Looking);
    case Connect(t, b) => StartKept(s, t, b, Entering);
    case DoLookUp(t, valid) => LookUpKept(s, t, valid);
    case DoEnter(t) => EnterKept(s, t);
    case DialSucceeds(t, c) =>
      MadeKept(s, c, s.calls[t].broker);
      GoKept(s.(made := s.made[c := s.calls[t].broker]), t, Storing(c));
    case DialFails(t) => GoKept(s, t, Clearing);
    case DoStore(t) =>
      var b, c := s.calls[t].broker, s.calls[t].phase.conn;
      assert CallOk(s, t);
      SettledKept(s, b, Some(c));
      GoKept(Settled(s, b, Some(c)), t, Returned(Some(c)));
    case DoClear(t) =>
      var b := s.calls[t].broker;
      SettledKept(s, b, None);
      GoKept(Settled(s, b, None), t, Returned(None));
    case Resume(t) => ResumeKept(s, t);
    case Clean(keep) => CleanKept(s, keep);
  }

  /** A finite run of any number of calls. */
  ghost predicate Runs(moves: seq<Move>, s: State)
    decreases |moves|
  {
    if moves == [] then s == INITIAL
    else exists s0 :: Runs(Front(moves), s0) && Enabled(s0, Last(moves)) && s == Apply(s0, Last(moves))
  }

  lemma {:induction false} ReachableInv(moves: seq<Move>, s: State)
    requires Runs(moves, s)
    ensures Inv(s)
    decreases |moves|
  {
    if moves == [] {
    } else {
      var s0 :| Runs(Front(moves), s0) && Enabled(s0, Last(moves)) && s == Apply(s0, Last(moves));
      ReachableInv(Front(moves), s0);
      InvKept(s0, Last(moves));
    }
  }

  lemma {:induction false} OccursOnce(v: seq<Task>, t: Task)
    requires NoDuplicates(v) && t in v
    ensures multiset(v)[t] == 1
  {
    if Last(v) == t {
      assert t !in Front(v);
      assert v == Front(v) + [t];
    } else {
      assert t in Front(v);
      OccursOnce(Front(v), t);
      assert v == Front(v) + [Last(v)];
    }
  }

  /**
   No waiter is lost: in every reachable state an unanswered waiter sits exactly once in the queue of
   its own broker and in no other queue, and the call that made the entry is still at work on that
   broker, not waiting itself.
   */
  lemma WaitersAreNeverLost(moves: seq<Move>, s: State, t: Task)
    requires Runs(moves, s) && Unanswered(s, t)
    ensures var b := s.calls[t].broker;
            && BeingDialed(s, b) && multiset(s.table[b].waiters)[t] == 1
            && (forall b' :: b' != b && BeingDialed(s, b') ==> t !in s.table[b'].waiters)
            && b in s.creator && s.creator[b] in s.calls
            && s.calls[s.creator[b]].broker == b
            && Running(s.calls[s.creator[b]].phase) && !Waiting(s.calls[s.creator[b]].phase)
  {
    ReachableInv(moves, s);
    var b := s.calls[t].broker;
    assert CallOk(s, t) && EntryOk(s, b);
    OccursOnce(s.table[b].waiters, t);
    forall b' | b' != b && BeingDialed(s, b') ensures t !in s.table[b'].waiters {
      assert EntryOk(s, b') && !Queued(s, t, b');
    }
  }

  /** Every connection a call returns was dialed for the very address it asked for. */
  lemma ReturnedConnectionFitsKey(moves: seq<Move>, s: State, t: Task)
    requires Runs(moves, s) && t in s.calls && s.calls[t].phase.Returned? && s.calls[t].phase.result.Some?
    ensures MadeFor(s, s.calls[t].phase.result.value, s.calls[t].broker)
  {
    ReachableInv(moves, s);
    assert CallOk(s, t);
  }

  /** How many more steps a call can take. */
  function Rank(p: Phase): nat {
    match p
    case Looking => 4
    case Entering => 3
    case Dialing => 2
    case AwaitingLookup => 2
    case AwaitingConnect => 2
    case Storing(_) => 1
    case Clearing => 1
    case Returned(_) => 0
  }

  predicate IsStepOf(m: Move, t: Task) {
    match m
    case GetConnection(_, _) => false
    case Connect(_, _) => false
    case Clean(_) => false
    case _ => m.task == t
  }

  /** A call steps at most four times: each of its steps lowers its rank and leaves the others alone. */
  lemma StepsAreBounded(s: State, m: Move, t: Task)
    requires Enabled(s, m) && t in s.calls
    ensures t in Apply(s, m).calls
    ensures IsStepOf(m, t) ==> Rank(Apply(s, m).calls[t].phase) < Rank(s.calls[t].phase) <= 4
    ensures !IsStepOf(m, t) ==> Apply(s, m).calls[t] == s.calls[t]
  {
  }

  /** The next step of a call that is not waiting for an answer. */
  function NextMove(s: State, t: Task): Move
    requires t in s.calls && !Unanswered(s, t) && !s.calls[t].phase.Returned?
  {
    match s.calls[t].phase
    case Looking => DoLookUp(t, true)
    case Entering => DoEnter(t)
    case Dialing => DialFails(t)
    case Storing(_) => DoStore(t)
    case Clearing => DoClear(t)
    case _ => Resume(t)
  }

  /** There is no deadlock: as long as some call has not returned, some call can take a step. */
  lemma NoDeadlock(moves: seq<Move>, s: State, t: Task)
    requires Runs(moves, s) && t in s.calls && !s.calls[t].phase.Returned?
    ensures exists u, m :: u in s.calls && IsStepOf(m, u) && Enabled(s, m)
  {
    var u := t;
    if Unanswered(s, t) {
      WaitersAreNeverLost(moves, s, t);
      u := s.creator[s.calls[t].broker];
    }
    var m := NextMove(s, u);
    assert IsStepOf(m, u) && Enabled(s, m);
  }

  predicate Begins(m: Move) {
    m.GetConnection? || m.Connect?
  }

  predicate Steps(m: Move) {
    !Begins(m) && !m.Clean?
  }

  /** How many calls a run began, and how many steps they took. */
  function Begun(moves: seq<Move>): nat {
    if moves == [] then 0 else Begun(Front(moves)) + if Begins(Last(moves)) then 1 else 0
  }

  function StepsTaken(moves: seq<Move>): nat {
    if moves == [] then 0 else StepsTaken(Front(moves)) + if Steps(Last(moves)) then 1 else 0
  }

  function Ranks(s: State): map<Task, nat> {
    map t | t in s.calls :: Rank(s.calls[t].phase)
  }

  /** The steps that all calls together can still take. */
  ghost function Work(s: State): nat {
    SumOf(Ranks(s))
  }

  /** A move touches at most the call it belongs to. */
  lemma OnlyOneCallMoves(s: State, m: Move)
    requires Enabled(s, m) && !m.Clean?
    ensures var calls := Apply(s, m).calls;
            && m.task in calls && calls == s.calls[m.task := calls[m.task]]
            && (Begins(m) ==> m.task !in s.calls && Rank(calls[m.task].phase) <= 4)
            && (Steps(m) ==> m.task in s.calls)
  {
  }

  lemma RanksUpdate(s: State, s': State, t: Task)
    requires t in s'.calls && s'.calls == s.calls[t := s'.calls[t]]
    ensures Work(s') == SumOf(Ranks(s)[t := Rank(s'.calls[t].phase)])
  {
    assert Ranks(s') == Ranks(s)[t := Rank(s'.calls[t].phase)];
  }

  lemma WorkShrinks(s: State, m: Move)
    requires Enabled(s, m)
    ensures Steps(m) ==> Work(Apply(s, m)) < Work(s)
    ensures Begins(m) ==> Work(Apply(s, m)) <= Work(s) + 4
    ensures m.Clean? ==> Work(Apply(s, m)) == Work(s)
  {
    var s' := Apply(s, m);
    if !m.Clean? {
      var t := m.task;
      OnlyOneCallMoves(s, m);
      RanksUpdate(s, s', t);
      SumUpdate(Ranks(s), t, Rank(s'.calls[t].phase));
      if Steps(m) {
        StepsAreBounded(s, m, t);
      }
    }
  }

  lemma {:induction false} WorkIsBounded(moves: seq<Move>, s: State)
    requires Runs(moves, s)
    ensures StepsTaken(moves) + Work(s) <= 4 * Begun(moves)
    decreases |moves|
  {
    if moves == [] {
    } else {
      var s0 :| Runs(Front(moves), s0) && Enabled(s0, Last(moves)) && s == Apply(s0, Last(moves));
      WorkIsBounded(Front(moves), s0);
      WorkShrinks(s0, Last(moves));
    }
  }

  /**
   Every call returns: no run takes more than four steps for each call begun, and a run that no call
   can extend by a step has no call left that is waiting or at work.
   */
  lemma EveryCallReturns(moves: seq<Move>, s: State)
    requires Runs(moves, s)
    ensures StepsTaken(moves) <= 4 * Begun(moves)
    ensures (forall m :: Steps(m) ==> !Enabled(s, m)) ==> forall t :: t in s.calls ==> s.calls[t].phase.Returned?
  {
    WorkIsBounded(moves, s);
    forall t | t in s.calls && !s.calls[t].phase.Returned?
      ensures exists m :: Steps(m) && Enabled(s, m)
    {
      NoDeadlock(moves, s, t);
    }
  }

  /**
   A look-up returns a stored connection exactly when there is one and it is valid at that moment; it
   waits exactly when the broker is being dialed, as the last of its waiters; otherwise it connects.
   */
  lemma LookUpExactly(s: State, t: Task, valid: bool)
    requires InPhase(s, t, Looking)
    ensures var b := s.calls[t].broker;
            var s' := Apply(s, DoLookUp(t, valid));
            var phase := s'.calls[t].phase;
            && (forall c :: phase == Returned(Some(c)) <==> b in s.table && s.table[b] == Connected(c) && valid)
            && (phase == AwaitingLookup <==> BeingDialed(s, b))
            && (phase == Entering <==> !BeingDialed(s, b) && (b in s.table ==> !valid))
            && (s'.table == if BeingDialed(s, b) then s.table[b := Connecting(s.table[b].waiters + [t])] else s.table)
  {
  }

  /** `connect` waits exactly behind other waiters; otherwise it dials, making the entry if there is none. */
  lemma EnterExactly(s: State, t: Task)
    requires InPhase(s, t, Entering)
    ensures var b := s.calls[t].broker;
            var s' := Apply(s, DoEnter(t));
            var behind := BeingDialed(s, b) && s.table[b].waiters != [];
            && s'.calls[t].phase == (if behind then AwaitingConnect else Dialing)
            && s'.table == (if behind then s.table[b := Connecting(s.table[b].waiters + [t])]
                            else if b in s.table then s.table
                            else s.table[b := Connecting([])])
  {
  }

  /** What a call does with the answer it waited for. */
  lemma ResumeExactly(s: State, t: Task)
    requires Enabled(s, Resume(t))
    ensures var s' := Apply(s, Resume(t));
            && (s.calls[t].phase == AwaitingLookup ==> s'.calls[t].phase == Returned(s.answers[t]))
            && (s.calls[t].phase == AwaitingConnect && s.answers[t].Some? ==>
                  s'.calls[t].phase == Storing(s.answers[t].value))
            && (s.calls[t].phase == AwaitingConnect && s.answers[t].None? ==> s'.calls[t].phase == Clearing)
  {
  }

  /** Settling gives the same outcome to the caller and to every waiter of its broker, and to nobody else. */
  lemma SettleExactly(s: State, m: Move, w: Task)
    requires Enabled(s, m) && (m.DoStore? || m.DoClear?)
    ensures var b := s.calls[m.task].broker;
            var s' := Apply(s, m);
            var outcome := if m.DoStore? then Some(s.calls[m.task].phase.conn) else None;
            && s'.calls[m.task].phase == Returned(outcome)
            && (w in WaitersOf(s.table, b) ==> w in s'.answers && s'.answers[w] == outcome)
            && (w !in WaitersOf(s.table, b) ==> (w in s'.answers <==> w in s.answers))
            && (w !in WaitersOf(s.table, b) && w in s.answers ==> s'.answers[w] == s.answers[w])
            && s'.table == (if outcome.Some? then s.table[b := Connected(outcome.value)] else s.table - {b})
  {
  }

  /** Cleaning removes exactly the stored connections that are invalid or unused. */
  lemma CleanExactly(t: Table, keep: set<Conn>, b: BrokerAddress)
    ensures b in CleanSpec(t, keep) <==> b in t && (t[b].Connected? ==> t[b].conn in keep)
    ensures b in CleanSpec(t, keep) ==> CleanSpec(t, keep)[b] == t[b]
  {
  }

  /** A dial to the broker failed during the run. */
  ghost predicate DialFailed(moves: seq<Move>, s: State, b: BrokerAddress) {
    exists i: nat, u :: i < |moves| && moves[i] == DialFails(u) && u in s.calls && s.calls[u].broker == b
  }

  /** The call was told, or found out, that there is no connection. */
  predicate Unlucky(s: State, t: Task)
    requires t in s.calls
  {
    s.calls[t].phase == Clearing || s.calls[t].phase == Returned(None) || (t in s.answers && s.answers[t] == None)
  }

  ghost predicate Blamed(moves: seq<Move>, s: State) {
    forall t :: t in s.calls && Unlucky(s, t) ==> DialFailed(moves, s, s.calls[t].broker)
  }

  lemma BrokersStay(s: State, m: Move, t: Task)
    requires Enabled(s, m) && t in s.calls
    ensures t in Apply(s, m).calls && Apply(s, m).calls[t].broker == s.calls[t].broker
  {
  }

  lemma BlameStays(moves: seq<Move>, s: State, m: Move, b: BrokerAddress)
    requires Enabled(s, m) && DialFailed(moves, s, b)
    ensures DialFailed(moves + [m], Apply(s, m), b)
  {
    var i: nat, u :| i < |moves| && moves[i] == DialFails(u) && u in s.calls && s.calls[u].broker == b;
    BrokersStay(s, m, u);
    assert (moves + [m])[i] == DialFails(u);
  }

  /** A call turns unlucky by its own failed dial, or through a call to the same broker that was unlucky before. */
  lemma UnluckBeginsWithADial(s: State, m: Move, t: Task)
    requires Inv(s) && Enabled(s, m) && t in Apply(s, m).calls && Unlucky(Apply(s, m), t)
    ensures m == DialFails(t) ||
            exists u :: u in s.calls && Unlucky(s, u) && s.calls[u].broker == Apply(s, m).calls[t].broker
  {
    var s' := Apply(s, m);
    if m != DialFails(t) {
      if t in s.calls && Unlucky(s, t) {
        BrokersStay(s, m, t);
      } else {
        if m.DoClear? {
          var b := s.calls[m.task].broker;
          assert Unlucky(s, m.task);
          if t != m.task {
            SettleExactly(s, m, t);
            assert t in WaitersOf(s.table, b);
            assert EntryOk(s, b) && Queued(s, t, b);
          }
        } else if m.DoStore? {
          SettleExactly(s, m, t);
        }
      }
    }
  }

  lemma BlamedKept(moves: seq<Move>, s: State, m: Move)
    requires Inv(s) && Blamed(moves, s) && Enabled(s, m)
    ensures Blamed(moves + [m], Apply(s, m))
  {
    var s' := Apply(s, m);
    forall t | t in s'.calls && Unlucky(s', t) ensures DialFailed(moves + [m], s', s'.calls[t].broker) {
      UnluckBeginsWithADial(s, m, t);
      if m == DialFails(t) {
        assert (moves + [m])[|moves|] == DialFails(t);
      } else {
        var u :| u in s.calls && Unlucky(s, u) && s.calls[u].broker == s'.calls[t].broker;
        BlameStays(moves, s, m, s'.calls[t].broker);
      }
    }
  }

  lemma {:induction false} RunsBlamed(moves: seq<Move>, s: State)
    requires Runs(moves, s)
    ensures Blamed(moves, s)
    decreases |moves|
  {
    if moves == [] {
    } else {
      var s0 :| Runs(Front(moves), s0) && Enabled(s0, Last(moves)) && s == Apply(s0, Last(moves));
      RunsBlamed(Front(moves), s0);
      ReachableInv(Front(moves), s0);
      BlamedKept(Front(moves), s0, Last(moves));
      assert moves == Front(moves) + [Last(moves)];
    }
  }

  /** In every run a call comes back without a connection only if a dial to its own broker failed. */
  lemma FailuresHaveACause(moves: seq<Move>, s: State, t: Task)
    requires Runs(moves, s) && InPhase(s, t, Returned(None))
    ensures DialFailed(moves, s, s.calls[t].broker)
  {
    RunsBlamed(moves, s);
  }
}
