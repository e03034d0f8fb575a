/**
 Request ids drawn from the connection's shared counter (`SerialId`).

 Any number of tasks draw ids, with an atomic increment, and register a request under the id they
 drew; between the two, everything else may happen on the connection.  One kind of request is
 registered again under its old id: a producer waiting for exclusive access.
 */
module RequestIds {
  import opened Prelude
  import opened Multiplexer
  import opened Matching

  /** `drawn` holds the ids that a task has drawn and not yet registered. */
  datatype Client = Client(next: nat, drawn: set<nat>, trace: seq<Input>)

  datatype Move =
    | Draw
    | Register(id: nat, resolver: Resolver)
    | WaitExclusive(id: nat, resolver: Resolver)
    | Other(input: Input)

  predicate AsksById(i: Input) {
    i.Registered? && i.reg.Request? && i.reg.key.RequestId?
  }

  predicate Enabled(s: Client, m: Move) {
    match m
    case Draw => true
    case Register(id, _) => id in s.drawn
    case WaitExclusive(id, _) => id < s.next && id !in s.drawn
    case Other(i) => !AsksById(i)
  }

  function Ask(id: nat, r: Resolver): Input {
    Registered(Request(RequestId(id), r))
  }

  function Apply(s: Client, m: Move): Client {
    match m
    case Draw => s.(next := s.next + 1, drawn := s.drawn + {s.next})
    case Register(id, r) => s.(drawn := s.drawn - {id}, trace := s.trace + [Ask(id, r)])
    case WaitExclusive(id, r) => s.(trace := s.trace + [Ask(id, r)])
    case Other(i) => s.(trace := s.trace + [i])
  }

  function After(moves: seq<Move>): Option<Client> {
    if moves == [] then Some(Client(0, {}, []))
    else
      var before := After(Front(moves));
      if before.Some? && Enabled(before.value, Last(moves)) then Some(Apply(before.value, Last(moves))) else None
  }

  /** How often a producer came back to wait under an id. */
  function Waits(moves: seq<Move>, id: nat): nat {
    if moves == [] then 0
    else Waits(Front(moves), id) + if Last(moves).WaitExclusive? && Last(moves).id == id then 1 else 0
  }

  lemma AskersSnoc(trace: seq<Input>, i: Input, k: RequestKey)
    ensures Askers(trace + [i], k) == Askers(trace, k) + Asker(i, k)
  {
    assert Front(trace + [i]) == trace;
  }

  /** An id not drawn yet, or drawn and not yet used, has no request; any other has one and its waits. */
  ghost predicate Counted(s: Client, moves: seq<Move>, id: nat) {
    |Askers(s.trace, RequestId(id))| == if id < s.next && id !in s.drawn then 1 + Waits(moves, id) else 0
  }

  /** No producer comes back under an id that was not used yet. */
  ghost predicate Patient(s: Client, moves: seq<Move>, id: nat) {
    id >= s.next || id in s.drawn ==> Waits(moves, id) == 0
  }

  ghost predicate Drawn(s: Client) {
    forall id :: id in s.drawn ==> id < s.next
  }

  lemma StepCounted(s: Client, moves: seq<Move>, m: Move, id: nat)
    requires Enabled(s, m) && Counted(s, moves, id) && Patient(s, moves, id) && Drawn(s)
    ensures Counted(Apply(s, m), moves + [m], id) && Patient(Apply(s, m), moves + [m], id)
  {
    assert Front(moves + [m]) == moves;
    if !m.Draw? {
      AskersSnoc(s.trace, if m.Other? then m.input else Ask(m.id, m.resolver), RequestId(id));
    }
  }

  lemma {:induction false} ReachableCounted(moves: seq<Move>, id: nat)
    requires After(moves).Some?
    ensures var s := After(moves).value; Counted(s, moves, id) && Patient(s, moves, id) && Drawn(s)
  {
    if moves == [] {
    } else {
      ReachableCounted(Front(moves), id);
      StepCounted(After(Front(moves)).value, Front(moves), Last(moves), id);
      assert moves == Front(moves) + [Last(moves)];
    }
  }

  /** In every interleaving an id is asked for at most once, apart from the waits for exclusive access. */
  lemma IdsAreFresh(moves: seq<Move>, id: nat)
    requires After(moves).Some?
    ensures |Askers(After(moves).value.trace, RequestId(id))| <= 1 + Waits(moves, id)
  {
    ReachableCounted(moves, id);
  }

  /**
   So in every interleaving a request that was registered, and answered once, got that answer, and
   nothing stays behind in the tables.
   */
  lemma DrawnRequestGetsItsReply(moves: seq<Move>, id: nat)
    requires After(moves).Some? && id < After(moves).value.next && id !in After(moves).value.drawn
    requires Waits(moves, id) == 0
    requires var trace := After(moves).value.trace;
             Unstolen(trace, RequestId(id)) && |Replies(trace, RequestId(id))| == 1
    ensures var trace, k := After(moves).value.trace, RequestId(id);
            && |Askers(trace, k)| == 1
            && Answers(EffectsOf(trace), k) == [(Askers(trace, k)[0], Replies(trace, k)[0])]
            && k !in TablesAfter(trace).pending && k !in TablesAfter(trace).received
  {
    ReachableCounted(moves, id);
    FreshRequestGetsItsReply(After(moves).value.trace, RequestId(id));
  }
}
