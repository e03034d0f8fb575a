/**
 Requests and their answers meet in the receiver whichever comes first.

 For one key, a trace is seen as two subsequences: the resolvers registered and the answers that
 arrived.  As long as neither runs more than one ahead of the other, the i-th resolver gets the
 i-th answer; and that bound is exactly what keeps the tables from overwriting an entry.
 */
module Matching {
  import opened Prelude
  import opened Multiplexer

  function Asker(i: Input, k: RequestKey): seq<Resolver> {
    if i.Registered? && i.reg.Request? && i.reg.key == k then [i.reg.resolver] else []
  }

  function Reply(i: Input, k: RequestKey): seq<Message> {
    if i.Arrived? && KeyOf(i.msg) == Some(k) then [i.msg] else []
  }

  /** The resolvers registered for `k`, in order. */
  function Askers(trace: seq<Input>, k: RequestKey): seq<Resolver> {
    if trace == [] then [] else Askers(Front(trace), k) + Asker(Last(trace), k)
  }

  /** The frames that answer `k`, in order. */
  function Replies(trace: seq<Input>, k: RequestKey): seq<Message> {
    if trace == [] then [] else Replies(Front(trace), k) + Reply(Last(trace), k)
  }

  /** The answers handed out for `k`, in order, with the resolver that got them. */
  function Answers(effects: seq<Effect>, k: RequestKey): seq<(Resolver, Message)> {
    if effects == [] then []
    else
      Answers(Front(effects), k) +
      match Last(effects)
      case Resolved(r, m) => if KeyOf(m) == Some(k) then [(r, m)] else []
      case _ => []
  }

  /** The requests under `k` that were answered by a broker's CloseConsumer notice instead. */
  function Thefts(effects: seq<Effect>, k: RequestKey): seq<Resolver> {
    if effects == [] then []
    else
      Thefts(Front(effects), k) +
      match Last(effects)
      case Resolved(r, Message(CloseConsumer(_, id), _)) => if RequestId(id) == k then [r] else []
      case _ => []
  }

  function Paired(askers: seq<Resolver>, replies: seq<Message>): (pairs: seq<(Resolver, Message)>)
    ensures |pairs| == Min(|askers|, |replies|)
    ensures forall i :: 0 <= i < |pairs| ==> pairs[i] == (askers[i], replies[i])
  {
    seq(Min(|askers|, |replies|), i requires 0 <= i < Min(|askers|, |replies|) => (askers[i], replies[i]))
  }

  function Lead(trace: seq<Input>, k: RequestKey): int {
    |Askers(trace, k)| - |Replies(trace, k)|
  }

  /** Registrations and answers for `k` never differ by more than one. */
  ghost predicate Balanced(trace: seq<Input>, k: RequestKey) {
    forall p :: 0 <= p <= |trace| ==> -1 <= Lead(trace[..p], k) <= 1
  }

  predicate IsNoticeFor(i: Input, k: RequestKey) {
    i.Arrived? && i.msg.command.CloseConsumer? && RequestId(i.msg.command.closeRequestId) == k
  }

  /** No CloseConsumer notice arrives under the request id `k` while a request is out under it. */
  ghost predicate Unstolen(trace: seq<Input>, k: RequestKey) {
    forall p :: 0 <= p < |trace| && IsNoticeFor(trace[p], k) ==> Lead(trace[..p], k) <= 0
  }

  /** Processing `i` would replace an entry of one of the two tables under `k`. */
  predicate Overwrites(t: Tables, i: Input, k: RequestKey) {
    match i
    case Registered(Request(key, _)) => key == k && k !in t.received && k in t.pending
    case Arrived(m) => Answerable(k) && KeyOf(m) == Some(k) && k !in t.pending && k in t.received
    case _ => false
  }

  ghost predicate NothingOverwritten(trace: seq<Input>, k: RequestKey) {
    forall p :: 0 <= p < |trace| ==> !Overwrites(TablesAfter(trace[..p]), trace[p], k)
  }

  /** The entries of the two tables under one key. */
  datatype Slot = Slot(pending: Option<Resolver>, received: Option<Message>)

  function SlotOf(t: Tables, k: RequestKey): Slot {
    Slot(if k in t.pending then Some(t.pending[k]) else None,
         if k in t.received then Some(t.received[k]) else None)
  }

  /** Everything about one key after a trace. */
  datatype Ledger = Ledger(
    askers: seq<Resolver>,
    replies: seq<Message>,
    slot: Slot,
    answers: seq<(Resolver, Message)>,
    thefts: seq<Resolver>)

  function LedgerOf(trace: seq<Input>, k: RequestKey): Ledger {
    Ledger(Askers(trace, k), Replies(trace, k), SlotOf(TablesAfter(trace), k),
           Answers(EffectsOf(trace), k), Thefts(EffectsOf(trace), k))
  }

  /** The entries and the answers given so far, as a function of the two subsequences alone. */
  ghost predicate Settled(l: Ledger) {
    && -1 <= |l.askers| - |l.replies| <= 1
    && l.answers == Paired(l.askers, l.replies)
    && l.thefts == []
    && l.slot == Slot(if |l.askers| == |l.replies| + 1 then Some(Last(l.askers)) else None,
                      if |l.replies| == |l.askers| + 1 then Some(Last(l.replies)) else None)
  }

  ghost predicate Matched(trace: seq<Input>, k: RequestKey) {
    Settled(LedgerOf(trace, k))
  }

  lemma {:induction false} AnswersAppend(a: seq<Effect>, b: seq<Effect>, k: RequestKey)
    ensures Answers(a + b, k) == Answers(a, k) + Answers(b, k)
    ensures Thefts(a + b, k) == Thefts(a, k) + Thefts(b, k)
  {
    if b == [] {
      assert a + b == a;
    } else {
      assert Front(a + b) == a + Front(b);
      AnswersAppend(a, Front(b), k);
    }
  }

  lemma PrefixFacts(trace: seq<Input>, k: RequestKey)
    requires trace != []
    ensures Balanced(trace, k) ==> Balanced(Front(trace), k) && -1 <= Lead(trace, k) <= 1
    ensures Unstolen(trace, k) ==>
              Unstolen(Front(trace), k) && (IsNoticeFor(Last(trace), k) ==> Lead(Front(trace), k) <= 0)
    ensures NothingOverwritten(trace, k) ==>
              NothingOverwritten(Front(trace), k) && !Overwrites(TablesAfter(Front(trace)), Last(trace), k)
  {
    var front := Front(trace);
    assert forall p :: 0 <= p <= |front| ==> front[..p] == trace[..p];
    assert trace[..|trace|] == trace;
    assert trace[..|trace| - 1] == front;
  }

  /** What one more input does to the two subsequences and to the answers. */
  lemma StepFacts(trace: seq<Input>, k: RequestKey)
    requires trace != []
    ensures var t := TablesAfter(Front(trace));
            && TablesAfter(trace) == Step(t, Last(trace)).0
            && Answers(EffectsOf(trace), k) == Answers(EffectsOf(Front(trace)), k) + Answers(Step(t, Last(trace)).1, k)
            && Thefts(EffectsOf(trace), k) == Thefts(EffectsOf(Front(trace)), k) + Thefts(Step(t, Last(trace)).1, k)
  {
    AnswersAppend(EffectsOf(Front(trace)), Step(TablesAfter(Front(trace)), Last(trace)).1, k);
  }

  /** Effects come one at a time. */
  lemma SingleEffect(e: Effect, k: RequestKey)
    ensures Answers([], k) == [] && Thefts([], k) == []
    ensures Answers([e], k) == if e.Resolved? && KeyOf(e.answer) == Some(k) then [(e.resolver, e.answer)] else []
    ensures Thefts([e], k) ==
            if e.Resolved? && e.answer.command.CloseConsumer? && RequestId(e.answer.command.closeRequestId) == k
            then [e.resolver] else []
  {
  }

  /** What an answer handed out was asked for: every stored frame and every key fit together. */
  lemma {:induction false} StoredUnderOwnKey(trace: seq<Input>)
    ensures forall k :: k in TablesAfter(trace).received ==>
              Answerable(k) && KeyOf(TablesAfter(trace).received[k]) == Some(k)
  {
    if trace == [] {
    } else {
      StoredUnderOwnKey(Front(trace));
    }
  }

  predicate Concerns(i: Input, k: RequestKey) {
    match i
    case Registered(Request(key, _)) => key == k
    case Arrived(m) => KeyOf(m) == Some(k) || IsNoticeFor(i, k)
    case _ => false
  }

  lemma SlotElsewhere(t: Tables, i: Input, k: RequestKey)
    requires Answerable(k) && !Concerns(i, k)
    ensures SlotOf(Step(t, i).0, k) == SlotOf(t, k)
  {
  }

  lemma ElsewhereEffect(t: Tables, i: Input, k: RequestKey)
    requires Answerable(k) && !Concerns(i, k)
    requires forall key :: key in t.received ==> Answerable(key) && KeyOf(t.received[key]) == Some(key)
    requires Step(t, i).1 != [] && Step(t, i).1[0].Resolved?
    ensures var m := Step(t, i).1[0].answer; KeyOf(m) != Some(k) && !IsNoticeFor(Arrived(m), k)
  {
  }

  lemma StepElsewhere(t: Tables, i: Input, k: RequestKey)
    requires Answerable(k) && !Concerns(i, k)
    requires forall key :: key in t.received ==> Answerable(key) && KeyOf(t.received[key]) == Some(key)
    ensures Answers(Step(t, i).1, k) == [] && Thefts(Step(t, i).1, k) == []
  {
    var effects := Step(t, i).1;
    if effects != [] {
      SingleEffect(effects[0], k);
      assert effects == [effects[0]];
      if effects[0].Resolved? {
        ElsewhereEffect(t, i, k);
      }
    }
  }

  lemma StepAsk(t: Tables, k: RequestKey, r: Resolver)
    requires Answerable(k)
    requires k in t.received ==> KeyOf(t.received[k]) == Some(k)
    ensures var (t', e) := Step(t, Registered(Request(k, r)));
            if k in t.received then
              SlotOf(t', k) == Slot(SlotOf(t, k).pending, None) && Answers(e, k) == [(r, t.received[k])] && Thefts(e, k) == []
            else
              SlotOf(t', k) == Slot(Some(r), None) && Answers(e, k) == [] && Thefts(e, k) == []
  {
  }

  lemma StepReply(t: Tables, k: RequestKey, m: Message)
    requires Answerable(k) && KeyOf(m) == Some(k)
    ensures var (t', e) := Step(t, Arrived(m));
            if k in t.pending then
              SlotOf(t', k) == Slot(None, SlotOf(t, k).received) && Answers(e, k) == [(t.pending[k], m)] && Thefts(e, k) == []
            else
              SlotOf(t', k) == Slot(None, Some(m)) && Answers(e, k) == [] && Thefts(e, k) == []
  {
  }

  lemma StepNotice(t: Tables, k: RequestKey, i: Input)
    requires IsNoticeFor(i, k)
    ensures var (t', e) := Step(t, i);
            && Answers(e, k) == []
            && SlotOf(t', k) == Slot(None, SlotOf(t, k).received)
            && Thefts(e, k) == if k in t.pending then [t.pending[k]] else []
  {
  }

  /** What one more input does to the ledger of a key. */
  function LedgerNext(l: Ledger, i: Input, k: RequestKey): Ledger {
    if i.Registered? && i.reg.Request? && i.reg.key == k then
      if l.slot.received.Some? then
        l.(askers := l.askers + [i.reg.resolver], slot := l.slot.(received := None),
           answers := l.answers + [(i.reg.resolver, l.slot.received.value)])
      else
        l.(askers := l.askers + [i.reg.resolver], slot := Slot(Some(i.reg.resolver), None))
    else if i.Arrived? && KeyOf(i.msg) == Some(k) then
      if l.slot.pending.Some? then
        l.(replies := l.replies + [i.msg], slot := l.slot.(pending := None),
           answers := l.answers + [(l.slot.pending.value, i.msg)])
      else
        l.(replies := l.replies + [i.msg], slot := Slot(None, Some(i.msg)))
    else if IsNoticeFor(i, k) && l.slot.pending.Some? then
      l.(slot := l.slot.(pending := None), thefts := l.thefts + [l.slot.pending.value])
    else l
  }

  /** The part of the ledger kept by the tables, step by step. */
  lemma SlotNext(t: Tables, i: Input, k: RequestKey, l: Ledger)
    requires Answerable(k) && l.slot == SlotOf(t, k)
    requires forall key :: key in t.received ==> Answerable(key) && KeyOf(t.received[key]) == Some(key)
    ensures var (t', e) := Step(t, i);
            var l' := LedgerNext(l, i, k);
            && l'.slot == SlotOf(t', k)
            && l'.answers == l.answers + Answers(e, k)
            && l'.thefts == l.thefts + Thefts(e, k)
  {
    if i.Registered? && i.reg.Request? && i.reg.key == k {
      StepAsk(t, k, i.reg.resolver);
    } else if i.Arrived? && KeyOf(i.msg) == Some(k) {
      StepReply(t, k, i.msg);
    } else if IsNoticeFor(i, k) {
      StepNotice(t, k, i);
    } else {
      SlotElsewhere(t, i, k);
      StepElsewhere(t, i, k);
    }
  }

  lemma LedgerStep(trace: seq<Input>, k: RequestKey)
    requires Answerable(k) && trace != []
    ensures LedgerOf(trace, k) == LedgerNext(LedgerOf(Front(trace), k), Last(trace), k)
  {
    StepFacts(trace, k);
    StoredUnderOwnKey(Front(trace));
    SlotNext(TablesAfter(Front(trace)), Last(trace), k, LedgerOf(Front(trace), k));
  }

  lemma SettledAsk(l: Ledger, r: Resolver)
    requires Settled(l) && l.slot.pending.None?
    ensures l.slot.received.Some? ==>
              Settled(l.(askers := l.askers + [r], slot := l.slot.(received := None),
                         answers := l.answers + [(r, l.slot.received.value)]))
    ensures l.slot.received.None? ==> Settled(l.(askers := l.askers + [r], slot := Slot(Some(r), None)))
  {
  }

  lemma SettledReply(l: Ledger, m: Message)
    requires Settled(l) && l.slot.received.None?
    ensures l.slot.pending.Some? ==>
              Settled(l.(replies := l.replies + [m], slot := l.slot.(pending := None),
                         answers := l.answers + [(l.slot.pending.value, m)]))
    ensures l.slot.pending.None? ==> Settled(l.(replies := l.replies + [m], slot := Slot(None, Some(m))))
  {
  }

  lemma OverwritesInLedger(trace: seq<Input>, k: RequestKey, i: Input)
    requires Answerable(k)
    ensures Overwrites(TablesAfter(trace), i, k) <==>
            var slot := LedgerOf(trace, k).slot;
            || (i.Registered? && i.reg.Request? && i.reg.key == k && slot.pending.Some? && slot.received.None?)
            || (i.Arrived? && KeyOf(i.msg) == Some(k) && slot.received.Some? && slot.pending.None?)
  {
  }

  lemma MatchedStep(trace: seq<Input>, k: RequestKey)
    requires Answerable(k) && trace != [] && Matched(Front(trace), k)
    requires !Overwrites(TablesAfter(Front(trace)), Last(trace), k)
    requires IsNoticeFor(Last(trace), k) ==> Lead(Front(trace), k) <= 0
    ensures Matched(trace, k)
  {
    LedgerStep(trace, k);
    OverwritesInLedger(Front(trace), k, Last(trace));
    var l, i := LedgerOf(Front(trace), k), Last(trace);
    if i.Registered? && i.reg.Request? && i.reg.key == k {
      SettledAsk(l, i.reg.resolver);
    } else if i.Arrived? && KeyOf(i.msg) == Some(k) {
      SettledReply(l, i.msg);
    }
  }

  /** One more input on a settled ledger overwrites exactly when it pushes the lead past one. */
  lemma OverwriteMeansUnbalanced(trace: seq<Input>, k: RequestKey)
    requires Answerable(k) && trace != [] && Matched(Front(trace), k)
    requires -1 <= Lead(trace, k) <= 1
    ensures !Overwrites(TablesAfter(Front(trace)), Last(trace), k)
  {
    OverwritesInLedger(Front(trace), k, Last(trace));
    LedgerStep(trace, k);
  }

  lemma NothingOverwrittenSnoc(trace: seq<Input>, k: RequestKey)
    requires trace != [] && NothingOverwritten(Front(trace), k)
    requires !Overwrites(TablesAfter(Front(trace)), Last(trace), k)
    ensures NothingOverwritten(trace, k)
  {
    assert trace[..|trace| - 1] == Front(trace);
    forall p | 0 <= p < |trace| - 1 ensures !Overwrites(TablesAfter(trace[..p]), trace[p], k) {
      assert trace[..p] == Front(trace)[..p] && trace[p] == Front(trace)[p];
    }
  }

  lemma BalancedSnoc(trace: seq<Input>, k: RequestKey)
    requires trace != [] && Balanced(Front(trace), k) && -1 <= Lead(trace, k) <= 1
    ensures Balanced(trace, k)
  {
    forall p | 0 <= p <= |trace| ensures -1 <= Lead(trace[..p], k) <= 1 {
      if p < |trace| {
        assert trace[..p] == Front(trace)[..p];
      } else {
        assert trace[..p] == trace;
      }
    }
  }

  lemma {:induction false} BalancedMatches(trace: seq<Input>, k: RequestKey)
    requires Answerable(k) && Balanced(trace, k) && Unstolen(trace, k)
    ensures Matched(trace, k) && NothingOverwritten(trace, k)
  {
    if trace == [] {
    } else {
      PrefixFacts(trace, k);
      BalancedMatches(Front(trace), k);
      OverwriteMeansUnbalanced(trace, k);
      MatchedStep(trace, k);
      NothingOverwrittenSnoc(trace, k);
    }
  }

  lemma {:induction false} UnoverwrittenMatches(trace: seq<Input>, k: RequestKey)
    requires Answerable(k) && NothingOverwritten(trace, k) && Unstolen(trace, k)
    ensures Matched(trace, k) && Balanced(trace, k)
  {
    if trace == [] {
    } else {
      PrefixFacts(trace, k);
      UnoverwrittenMatches(Front(trace), k);
      MatchedStep(trace, k);
      BalancedSnoc(trace, k);
    }
  }

  /** Registrations and answers staying within one of each other is exactly what avoids overwriting. */
  lemma OverwritingExactlyWhenUnbalanced(trace: seq<Input>, k: RequestKey)
    requires Answerable(k) && Unstolen(trace, k)
    ensures NothingOverwritten(trace, k) <==> Balanced(trace, k)
  {
    if Balanced(trace, k) {
      BalancedMatches(trace, k);
    } else if NothingOverwritten(trace, k) {
      UnoverwrittenMatches(trace, k);
    }
  }

  /** The i-th registration of a key gets exactly the i-th answer of that key. */
  lemma EachAskerGetsItsOwnReply(trace: seq<Input>, k: RequestKey, i: nat)
    requires Answerable(k) && Balanced(trace, k) && Unstolen(trace, k)
    ensures |Answers(EffectsOf(trace), k)| == Min(|Askers(trace, k)|, |Replies(trace, k)|)
    ensures i < |Answers(EffectsOf(trace), k)| ==>
              Answers(EffectsOf(trace), k)[i] == (Askers(trace, k)[i], Replies(trace, k)[i])
  {
    BalancedMatches(trace, k);
  }

  lemma {:induction false} CountsGrow(trace: seq<Input>, k: RequestKey, p: nat)
    requires p <= |trace|
    ensures |Askers(trace[..p], k)| <= |Askers(trace, k)| && |Replies(trace[..p], k)| <= |Replies(trace, k)|
  {
    if p < |trace| {
      CountsGrow(Front(trace), k, p);
      assert Front(trace)[..p] == trace[..p];
    } else {
      assert trace[..p] == trace;
    }
  }

  /** A key used for one request, as `SerialId` makes them, needs no further discipline. */
  lemma FreshRequestGetsItsReply(trace: seq<Input>, k: RequestKey)
    requires Answerable(k) && Unstolen(trace, k)
    requires |Askers(trace, k)| == 1 == |Replies(trace, k)|
    ensures Answers(EffectsOf(trace), k) == [(Askers(trace, k)[0], Replies(trace, k)[0])]
    ensures k !in TablesAfter(trace).pending && k !in TablesAfter(trace).received
  {
    forall p | 0 <= p <= |trace| ensures -1 <= Lead(trace[..p], k) <= 1 {
      CountsGrow(trace, k, p);
    }
    BalancedMatches(trace, k);
    assert SlotOf(TablesAfter(trace), k) == Slot(None, None);
  }

  /** Two interleavings of the same per-key subsequences end with the same answers and entries. */
  lemma OrderIndependent(a: seq<Input>, b: seq<Input>, k: RequestKey)
    requires Answerable(k)
    requires Balanced(a, k) && Unstolen(a, k) && Balanced(b, k) && Unstolen(b, k)
    requires Askers(a, k) == Askers(b, k) && Replies(a, k) == Replies(b, k)
    ensures Answers(EffectsOf(a), k) == Answers(EffectsOf(b), k)
    ensures SlotOf(TablesAfter(a), k) == SlotOf(TablesAfter(b), k)
  {
    BalancedMatches(a, k);
    BalancedMatches(b, k);
  }

  lemma UnstolenSnoc(trace: seq<Input>, k: RequestKey)
    requires trace != [] && Unstolen(Front(trace), k)
    requires IsNoticeFor(Last(trace), k) ==> Lead(Front(trace), k) <= 0
    ensures Unstolen(trace, k)
  {
    var front := Front(trace);
    forall p | 0 <= p < |trace| && IsNoticeFor(trace[p], k) ensures Lead(trace[..p], k) <= 0 {
      if p < |front| {
        assert front[..p] == trace[..p] && front[p] == trace[p];
      } else {
        assert trace[..p] == front;
      }
    }
  }

  lemma FirstTheft(trace: seq<Input>, k: RequestKey)
    requires Answerable(k) && trace != [] && Matched(Front(trace), k)
    requires IsNoticeFor(Last(trace), k) && Lead(Front(trace), k) > 0
    ensures Thefts(EffectsOf(trace), k) != []
  {
    LedgerStep(trace, k);
  }

  /**
   A request is answered by a CloseConsumer notice exactly when one arrives under its id while the
   request is outstanding.
   */
  lemma {:induction false} StolenExactlyWhenNoticeMeetsRequest(trace: seq<Input>, k: RequestKey)
    requires Answerable(k) && Balanced(trace, k)
    ensures Thefts(EffectsOf(trace), k) == [] <==> Unstolen(trace, k)
  {
    if Unstolen(trace, k) {
      BalancedMatches(trace, k);
    } else {
      PrefixFacts(trace, k);
      if Unstolen(Front(trace), k) {
        BalancedMatches(Front(trace), k);
        if !IsNoticeFor(Last(trace), k) || Lead(Front(trace), k) <= 0 {
          UnstolenSnoc(trace, k);
          assert false;
        }
        FirstTheft(trace, k);
      } else {
        StolenExactlyWhenNoticeMeetsRequest(Front(trace), k);
        StepFacts(trace, k);
      }
    }
  }

  /** A notice that reuses a live request id takes the answer's place and strands the answer. */
  lemma NoticeCanStealAnAnswer()
    ensures var notice, reply := Message(CloseConsumer(1, 7), 0), Message(Keyed(Success, 7), 0);
            var trace := [Registered(Request(RequestId(7), 3)), Arrived(notice), Arrived(reply)];
            && EffectsOf(trace) == [Resolved(3, notice)]
            && TablesAfter(trace).received == map[RequestId(7) := reply]
  {
    var notice, reply := Message(CloseConsumer(1, 7), 0), Message(Keyed(Success, 7), 0);
    var i0, i1, i2 := Registered(Request(RequestId(7), 3)), Arrived(notice), Arrived(reply);
    RunSnoc(EMPTY, [], i0);
    RunSnoc(EMPTY, [i0], i1);
    RunSnoc(EMPTY, [i0, i1], i2);
    assert [] + [i0] == [i0] && [i0] + [i1] == [i0, i1] && [i0, i1] + [i2] == [i0, i1, i2];
  }

  predicate Asked(i: Input, r: Resolver, m: Message) {
    i.Registered? && i.reg.Request? && i.reg.resolver == r &&
    (KeyOf(m) == Some(i.reg.key) || IsNoticeFor(Arrived(m), i.reg.key))
  }

  /**
   Whatever the trace, an answer given to a resolver is a frame carrying the key it registered
   under, or a CloseConsumer notice carrying its request id.
   */
  ghost predicate AskedFor(trace: seq<Input>, r: Resolver, m: Message) {
    exists i :: 0 <= i < |trace| && Asked(trace[i], r, m)
  }

  ghost predicate PendingAsked(trace: seq<Input>) {
    var t := TablesAfter(trace);
    forall k :: k in t.pending ==> Registered(Request(k, t.pending[k])) in trace
  }

  lemma {:induction false} PendingWasAsked(trace: seq<Input>)
    ensures PendingAsked(trace)
  {
    if trace == [] {
    } else {
      PendingWasAsked(Front(trace));
      var t, t' := TablesAfter(Front(trace)), TablesAfter(trace);
      forall k | k in t'.pending ensures Registered(Request(k, t'.pending[k])) in trace {
        if k in t.pending && t.pending[k] == t'.pending[k] {
          assert Registered(Request(k, t.pending[k])) in Front(trace);
        } else {
          assert Last(trace) == Registered(Request(k, t'.pending[k]));
        }
      }
    }
  }

  lemma {:induction false} OnlyAskedForAnswers(trace: seq<Input>, r: Resolver, m: Message)
    requires Resolved(r, m) in EffectsOf(trace)
    ensures AskedFor(trace, r, m)
  {
    var front, i := Front(trace), Last(trace);
    if Resolved(r, m) in EffectsOf(front) {
      OnlyAskedForAnswers(front, r, m);
      var j :| 0 <= j < |front| && Asked(front[j], r, m);
      assert Asked(trace[j], r, m);
    } else {
      var t := TablesAfter(front);
      assert Resolved(r, m) in Step(t, i).1;
      if i.Registered? {
        StoredUnderOwnKey(front);
        assert Asked(trace[|trace| - 1], r, m);
      } else {
        PendingWasAsked(front);
        var k := if i.msg.command.CloseConsumer? then RequestId(i.msg.command.closeRequestId) else KeyOf(m).value;
        assert k in t.pending && t.pending[k] == r;
        var j :| 0 <= j < |front| && front[j] == Registered(Request(k, r));
        assert Asked(trace[j], r, m);
      }
    }
  }
}
