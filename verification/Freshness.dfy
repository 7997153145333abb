/** What processing an entity leaves in the store: the queue with the fetches and writes of its
    batches. Values are counted by events: version n of an entity is what it was fetched as after
    n of its events. */
module Freshness {
  import opened EntityMaps
  import opened Queue

  /** What a batch has fetched, and which of it is written. */
  datatype Work = Work(got: map<Qid, nat>, wrote: set<Qid>)

  /** The queue, the number of events of each entity, the version in the store, and the work of
      each batch in flight. */
  datatype Whole = Whole(q: State, events: map<Qid, nat>, stored: map<Qid, nat>, work: seq<Work>)

  const BEGINNING := Whole(EMPTY_QUEUE, map[], map[], [])

  function At(m: map<Qid, nat>, q: Qid): nat { if q in m then m[q] else 0 }

  datatype Action = Works(move: Move) | Fetches(at: nat, q: Qid) | Writes(at: nat, q: Qid)

  function Count(events: map<Qid, nat>, qids: set<Qid>): map<Qid, nat> {
    map q | q in events.Keys + qids :: if q in qids then At(events, q) + 1 else At(events, q)
  }

  /** ProcessEntities succeeds only when everything but the errors is written. */
  predicate Allowed(s: Whole, mv: Move) {
    mv.Finish? && mv.at < |s.q.held| && mv.at < |s.work| ==> s.q.held[mv.at].qids - mv.errors <= s.work[mv.at].wrote
  }

  function Leave<T>(all: seq<T>, at: nat): seq<T> {
    if at < |all| then all[..at] + all[at + 1..] else all
  }

  /** The work of the batches that are in flight after a move. */
  function WorkAfter(s: Whole, mv: Move): seq<Work> {
    var before, after := |s.q.held|, |Queue.Step(s.q, mv).held|;
    if after > before then s.work + [Work(map[], {})]
    else if after == before then s.work
    else if mv.Crash? then []
    else if mv.Fail? || mv.Exec? || mv.Break? then Leave(s.work, mv.at)
    else s.work
  }

  function Act(s: Whole, a: Action): Whole {
    match a
    case Works(mv) =>
      if !Allowed(s, mv) then s
      else
        Whole(Queue.Step(s.q, mv), if mv.Arrive? then Count(s.events, mv.qids) else s.events, s.stored,
              WorkAfter(s, mv))
    case Fetches(at, q) =>
      if at < |s.q.held| && at < |s.work| && s.q.held[at].Fetching? && q in s.q.held[at].qids then
        var w := s.work[at];
        s.(work := s.work[at := Work(w.got[q := At(s.events, q)], w.wrote - {q})])
      else s
    case Writes(at, q) =>
      if at < |s.q.held| && at < |s.work| && s.q.held[at].Fetching? && q in s.work[at].got then
        var w := s.work[at];
        s.(stored := s.stored[q := w.got[q]], work := s.work[at := w.(wrote := w.wrote + {q})])
      else s
  }

  function ActAll(s: Whole, actions: seq<Action>): Whole {
    if actions == [] then s else Act(ActAll(s, actions[..|actions| - 1]), actions[|actions| - 1])
  }

  // --------------------------------------------------------------- invariant

  /** A batch at work: entities without unprocessed events have none since they were taken, what
      is fetched of those is up to date, and what is written is stored. */
  predicate WorkOk(s: Whole, b: Batch, w: Work) {
    b.Fetching? ==>
      && (forall q :: q in b.qids && q !in s.q.owed ==> q in b.seen)
      && (forall q :: q in w.got ==> q in b.qids && (q in b.seen ==> w.got[q] == At(s.events, q)))
      && (forall q :: q in w.wrote ==> q in w.got && At(s.stored, q) == w.got[q])
  }

  ghost predicate FreshOk(s: Whole) {
    && DisjointOk(s.q) && |s.work| == |s.q.held|
    && (forall q :: q !in s.q.owed ==> At(s.stored, q) == At(s.events, q))
    && (forall i :: 0 <= i < |s.work| ==> WorkOk(s, s.q.held[i], s.work[i]))
  }

  /** Nobody takes an entity that is in somebody's batch. */
  predicate ActsFree(s: Whole, a: Action) { a.Works? ==> TakesFree(s.q, a.move) }

  predicate NeverOverlap(actions: seq<Action>) {
    actions == [] ||
    (var n := |actions| - 1;
     NeverOverlap(actions[..n]) && ActsFree(ActAll(BEGINNING, actions[..n]), actions[n]))
  }

  lemma FetchOk(s: Whole, at: nat, q: Qid)
    requires FreshOk(s)
    ensures FreshOk(Act(s, Fetches(at, q)))
  {
    var t := Act(s, Fetches(at, q));
    forall i | 0 <= i < |t.work| ensures WorkOk(t, t.q.held[i], t.work[i]) {
      assert WorkOk(s, s.q.held[i], s.work[i]);
    }
  }

  lemma WriteOk(s: Whole, at: nat, q: Qid)
    requires FreshOk(s)
    ensures FreshOk(Act(s, Writes(at, q)))
  {
    var t := Act(s, Writes(at, q));
    if t != s {
      assert WorkOk(s, s.q.held[at], s.work[at]);
      forall i | 0 <= i < |t.work| ensures WorkOk(t, t.q.held[i], t.work[i]) {
        assert WorkOk(s, s.q.held[i], s.work[i]);
        if i < at { assert s.q.held[i].qids !! s.q.held[at].qids; }
        if i > at { assert s.q.held[at].qids !! s.q.held[i].qids; }
      }
    }
  }

  lemma ArrivalOk(s: Whole, qids: set<Qid>)
    requires FreshOk(s)
    ensures FreshOk(Act(s, Works(Arrive(qids))))
  {
    var t := Act(s, Works(Arrive(qids)));
    StepConserves(s.q, Arrive(qids));
    forall i | 0 <= i < |t.work| ensures WorkOk(t, t.q.held[i], t.work[i]) {
      assert WorkOk(s, s.q.held[i], s.work[i]);
    }
  }

  lemma FinishedOk(s: Whole, at: nat, order: seq<Qid>, errors: set<Qid>)
    requires FreshOk(s)
    ensures FreshOk(Act(s, Works(Finish(at, order, errors))))
  {
    var mv := Finish(at, order, errors);
    var t := Act(s, Works(mv));
    StepConserves(s.q, mv);
    if t.q != s.q {
      assert WorkOk(s, s.q.held[at], s.work[at]) && Safe(s.q.pending, s.q.failed, s.q.owed, s.q.held[at]);
      forall i | 0 <= i < |t.work| ensures WorkOk(t, t.q.held[i], t.work[i]) {
        assert WorkOk(s, s.q.held[i], s.work[i]);
        if i < at { assert s.q.held[i].qids !! s.q.held[at].qids; }
        if i > at { assert s.q.held[at].qids !! s.q.held[i].qids; }
      }
    }
  }

  /** Batches come and go, or go on with what they had. */
  predicate Continues(s: Whole, t: Whole, mv: Move) {
    && t.q.owed == s.q.owed && t.events == s.events && t.stored == s.stored
    && |t.work| == |t.q.held|
    && forall i :: 0 <= i < |t.work| ==>
         (t.q.held[i].Fetching? ==> (t.q.held[i].seen == t.q.held[i].qids && t.work[i] == Work(map[], {})) ||
                                    ExistsIn(s, t.q.held[i], t.work[i]))
  }

  predicate ExistsIn(s: Whole, b: Batch, w: Work) {
    exists j :: 0 <= j < |s.work| && j < |s.q.held| && s.q.held[j] == b && s.work[j] == w
  }

  lemma ContinuesOk(s: Whole, t: Whole, mv: Move)
    requires FreshOk(s) && Continues(s, t, mv) && DisjointOk(t.q)
    ensures FreshOk(t)
  {
    forall i | 0 <= i < |t.work| ensures WorkOk(t, t.q.held[i], t.work[i]) {
      if t.q.held[i].Fetching? && ExistsIn(s, t.q.held[i], t.work[i]) {
        var j :| 0 <= j < |s.work| && j < |s.q.held| && s.q.held[j] == t.q.held[i] && s.work[j] == t.work[i];
        assert WorkOk(s, s.q.held[j], s.work[j]);
      }
    }
  }

  lemma TakenContinues(s: Whole, mv: Move)
    requires FreshOk(s) && (mv.Claim? || mv.Retry?)
    ensures Continues(s, Act(s, Works(mv)), mv)
  {
    var t := Act(s, Works(mv));
    forall i | 0 <= i < |t.work| && i < |s.work| ensures ExistsIn(s, t.q.held[i], t.work[i]) {
      assert s.q.held[i] == t.q.held[i] && s.work[i] == t.work[i];
    }
  }

  lemma LeftContinues(s: Whole, mv: Move, at: nat)
    requires FreshOk(s) && at < |s.q.held| && (mv.Fail? || mv.Exec? || mv.Break?) && mv.at == at
    ensures Continues(s, Act(s, Works(mv)), mv)
  {
    var t := Act(s, Works(mv));
    forall i | 0 <= i < |t.work| && t.q.held[i].Fetching? ensures ExistsIn(s, t.q.held[i], t.work[i]) {
      var j := if |t.q.held| == |s.q.held| || i < at then i else i + 1;
      assert s.q.held[j] == t.q.held[i] && s.work[j] == t.work[i];
    }
  }

  lemma StillContinues(s: Whole, mv: Move)
    requires FreshOk(s) && Act(s, Works(mv)).q.held == s.q.held && !mv.Arrive? && !mv.Finish?
    ensures Continues(s, Act(s, Works(mv)), mv)
  {
    var t := Act(s, Works(mv));
    forall i | 0 <= i < |t.work| ensures ExistsIn(s, t.q.held[i], t.work[i]) {
      assert s.q.held[i] == t.q.held[i] && s.work[i] == t.work[i];
    }
  }

  lemma MoveContinues(s: Whole, mv: Move)
    requires FreshOk(s) && !mv.Arrive? && !mv.Finish?
    ensures Continues(s, Act(s, Works(mv)), mv)
  {
    if mv.Claim? || mv.Retry? {
      TakenContinues(s, mv);
    } else if (mv.Fail? || mv.Exec? || mv.Break?) && mv.at < |s.q.held| {
      LeftContinues(s, mv, mv.at);
    } else if !mv.Crash? {
      StillContinues(s, mv);
    }
  }

  lemma ActOk(s: Whole, a: Action)
    requires FreshOk(s) && ActsFree(s, a)
    ensures FreshOk(Act(s, a))
  {
    match a
    case Fetches(at, q) => FetchOk(s, at, q);
    case Writes(at, q) => WriteOk(s, at, q);
    case Works(mv) =>
      if mv.Arrive? {
        ArrivalOk(s, mv.qids);
      } else if mv.Finish? {
        FinishedOk(s, mv.at, mv.order, mv.errors);
      } else {
        MoveContinues(s, mv);
        StepConserves(s.q, mv);
        ContinuesOk(s, Act(s, a), mv);
      }
  }

  lemma {:induction false} ActAllOk(actions: seq<Action>)
    requires NeverOverlap(actions)
    ensures FreshOk(ActAll(BEGINNING, actions))
  {
    if actions != [] {
      var n := |actions| - 1;
      ActAllOk(actions[..n]);
      ActOk(ActAll(BEGINNING, actions[..n]), actions[n]);
    }
  }

  /** As long as batches do not overlap, after every run of events, claims, retries, fetches,
      writes, failures, broken pipelines and crashes: the store holds of an entity what was
      fetched after its last event, unless the entity is in pending, processing or failed. */
  lemma FreshOutside(actions: seq<Action>, s: Whole, q: Qid)
    requires NeverOverlap(actions) && s == ActAll(BEGINNING, actions)
    requires q !in s.q.pending + s.q.processing + s.q.failed
    ensures At(s.stored, q) == At(s.events, q)
  {
    ActAllOk(actions);
  }

  // ------------------------------------------------------------- overlapping

  lemma ActNext(actions: seq<Action>, n: nat, before: Whole, after: Whole)
    requires n < |actions| && ActAll(BEGINNING, actions[..n]) == before && Act(before, actions[n]) == after
    ensures ActAll(BEGINNING, actions[..n + 1]) == after
  {
    assert actions[..n + 1][..n] == actions[..n];
  }

  /** Twice the same entity: event, batch, fetch, event, batch, fetch; then the younger fetch is
      written before the older one, and both batches are acked in order. */
  function StaleActions(q: Qid): seq<Action> {
    [Works(Arrive({q})), Works(Claim({q})), Fetches(0, q), Works(Arrive({q})), Works(Claim({q})), Fetches(1, q),
     Writes(1, q), Writes(0, q), Works(Finish(0, [q], {})), Works(Exec(0)), Works(Finish(0, [q], {})), Works(Exec(0))]
  }

  function OnceFetched(q: Qid): Whole { Whole(Claimed(q), map[q := 1], map[], [Work(map[q := 1], {})]) }

  function TwiceFetched(q: Qid): Whole {
    Whole(Overlapped(q), map[q := 2], map[], [Work(map[q := 1], {}), Work(map[q := 2], {})])
  }

  function TwiceWritten(q: Qid): Whole {
    Whole(Overlapped(q), map[q := 2], map[q := 1], [Work(map[q := 1], {q}), Work(map[q := 2], {q})])
  }

  function OnceAcked(q: Qid): Whole { Whole(Unheld(q), map[q := 2], map[q := 1], [Work(map[q := 2], {q})]) }

  function Stale(q: Qid): Whole { Whole(EMPTY_QUEUE, map[q := 2], map[q := 1], []) }

  lemma CountOne(events: map<Qid, nat>, q: Qid, n: nat)
    requires events == (if n == 0 then map[] else map[q := n])
    ensures Count(events, {q}) == map[q := n + 1]
  {
    assert events.Keys + {q} == {q};
  }

  lemma FetchOne(s: Whole, at: nat, q: Qid, n: nat, work: seq<Work>)
    requires at < |s.q.held| == |s.work| && s.q.held[at].Fetching? && q in s.q.held[at].qids
    requires s.work[at] == Work(map[], {}) && s.events == map[q := n]
    requires work == s.work[at := Work(map[q := n], {})]
    ensures Act(s, Fetches(at, q)) == s.(work := work)
  {
    var empty: map<Qid, nat> := map[];
    var nothing: set<Qid> := {};
    assert empty[q := n] == map[q := n] && nothing - {q} == nothing;
  }

  lemma WriteOne(s: Whole, at: nat, q: Qid, n: nat, work: seq<Work>)
    requires at < |s.q.held| == |s.work| && s.q.held[at].Fetching?
    requires s.work[at] == Work(map[q := n], {}) && s.stored.Keys <= {q}
    requires work == s.work[at := Work(map[q := n], {q})]
    ensures Act(s, Writes(at, q)) == s.(stored := map[q := n], work := work)
  {
    assert s.stored[q := n] == map[q := n] && {} + {q} == {q};
  }

  lemma FirstFetch(q: Qid, m: seq<Action>)
    requires m == StaleActions(q)
    ensures ActAll(BEGINNING, m[..3]) == OnceFetched(q)
  {
    assert ActAll(BEGINNING, m[..0]) == BEGINNING;
    ClaimedSteps(q);
    CountOne(map[], q, 0);
    var arrived := Whole(Queue.Step(EMPTY_QUEUE, Arrive({q})), map[q := 1], map[], []);
    ActNext(m, 0, BEGINNING, arrived);
    var claimed := Whole(Claimed(q), map[q := 1], map[], [Work(map[], {})]);
    ActNext(m, 1, arrived, claimed);
    FetchOne(claimed, 0, q, 1, [Work(map[q := 1], {})]);
    ActNext(m, 2, claimed, OnceFetched(q));
  }

  function Reclaimed(q: Qid): Whole {
    Whole(Overlapped(q), map[q := 2], map[], [Work(map[q := 1], {}), Work(map[], {})])
  }

  function Rearrived(q: Qid): Whole {
    Whole(State({q}, {q}, {}, {q}, [Fetching({q}, false, {})], {}, {}), map[q := 2], map[], [Work(map[q := 1], {})])
  }

  lemma ArrivedAgain(q: Qid, m: seq<Action>)
    requires m == StaleActions(q) && ActAll(BEGINNING, m[..3]) == OnceFetched(q)
    ensures ActAll(BEGINNING, m[..4]) == Rearrived(q)
  {
    OutdateOne(q, false);
    CountOne(map[q := 1], q, 1);
    assert Queue.Step(Claimed(q), Arrive({q})) == Rearrived(q).q;
    ActNext(m, 3, OnceFetched(q), Rearrived(q));
  }

  lemma ClaimedAgain(q: Qid, m: seq<Action>)
    requires m == StaleActions(q) && ActAll(BEGINNING, m[..4]) == Rearrived(q)
    ensures ActAll(BEGINNING, m[..5]) == Reclaimed(q)
  {
    assert [Work(map[q := 1], {})] + [Work(map[], {})] == Reclaimed(q).work;
    assert Queue.Step(Rearrived(q).q, Claim({q})) == Overlapped(q);
    ActNext(m, 4, Rearrived(q), Reclaimed(q));
  }

  lemma SecondFetch(q: Qid, m: seq<Action>)
    requires m == StaleActions(q) && ActAll(BEGINNING, m[..5]) == Reclaimed(q)
    ensures ActAll(BEGINNING, m[..6]) == TwiceFetched(q)
  {
    FetchOne(Reclaimed(q), 1, q, 2, TwiceFetched(q).work);
    ActNext(m, 5, Reclaimed(q), TwiceFetched(q));
  }

  function YoungerWritten(q: Qid): Whole {
    Whole(Overlapped(q), map[q := 2], map[q := 2], [Work(map[q := 1], {}), Work(map[q := 2], {q})])
  }

  lemma BothWritten(q: Qid, m: seq<Action>)
    requires m == StaleActions(q) && ActAll(BEGINNING, m[..6]) == TwiceFetched(q)
    ensures ActAll(BEGINNING, m[..8]) == TwiceWritten(q)
  {
    hide Act;
    WriteOne(TwiceFetched(q), 1, q, 2, YoungerWritten(q).work);
    ActNext(m, 6, TwiceFetched(q), YoungerWritten(q));
    WriteOne(YoungerWritten(q), 0, q, 1, TwiceWritten(q).work);
    ActNext(m, 7, YoungerWritten(q), TwiceWritten(q));
  }

  lemma FinishStep(s: Whole, q: Qid, w: Work, after: State)
    requires s.q.held != [] && |s.work| == |s.q.held| && s.work[0] == w && q in w.wrote && s.q.held[0].qids == {q}
    requires after == Queue.Step(s.q, Finish(0, [q], {})) && |after.held| == |s.q.held|
    ensures Act(s, Works(Finish(0, [q], {}))) == s.(q := after)
  {
  }

  lemma LastCommand(s: Whole, after: State)
    requires s.q.held != [] && |s.work| == |s.q.held|
    requires after == Queue.Step(s.q, Exec(0)) && |after.held| < |s.q.held|
    ensures Act(s, Works(Exec(0))) == s.(q := after, work := s.work[1..])
  {
    assert s.work[..0] + s.work[1..] == s.work[1..];
  }

  lemma FirstAcked(q: Qid, m: seq<Action>)
    requires m == StaleActions(q) && ActAll(BEGINNING, m[..8]) == TwiceWritten(q)
    ensures ActAll(BEGINNING, m[..10]) == OnceAcked(q)
  {
    hide Act, Queue.Step;
    AckDueSteps(q);
    var due := TwiceWritten(q).(q := AckDue(q));
    FinishStep(TwiceWritten(q), q, Work(map[q := 1], {q}), AckDue(q));
    ActNext(m, 8, TwiceWritten(q), due);
    AckedSteps(q);
    LastCommand(due, Unheld(q));
    ActNext(m, 9, due, OnceAcked(q));
  }

  lemma AckLast(q: Qid)
    ensures Queue.Step(Unheld(q), Finish(0, [q], {})) == AckAlone(q) && Queue.Step(AckAlone(q), Exec(0)) == EMPTY_QUEUE
  {
    FinishOne(Unheld(q), 0, q, {});
  }

  function AckAlone(q: Qid): State { State({}, {}, {}, {}, [Settling({q}, false, [Ack({q})])], {}, {}) }

  lemma LastAcked(q: Qid, m: seq<Action>)
    requires m == StaleActions(q) && ActAll(BEGINNING, m[..10]) == OnceAcked(q)
    ensures ActAll(BEGINNING, m) == Stale(q)
  {
    hide Act, Queue.Step;
    AckLast(q);
    var due := OnceAcked(q).(q := AckAlone(q));
    FinishStep(OnceAcked(q), q, Work(map[q := 2], {q}), AckAlone(q));
    ActNext(m, 10, OnceAcked(q), due);
    LastCommand(due, EMPTY_QUEUE);
    ActNext(m, 11, due, Stale(q));
    assert m[..12] == m;
  }

  /** Two batches of the drain loop may hold the same entity. Then nothing breaks, the entity ends
      in none of the sets, and the store keeps the value from before its last event for good. */
  lemma OverlapStale(q: Qid, s: Whole)
    requires s == ActAll(BEGINNING, StaleActions(q))
    ensures s.q == EMPTY_QUEUE && At(s.stored, q) == 1 && At(s.events, q) == 2
  {
    FirstFetch(q, StaleActions(q));
    ArrivedAgain(q, StaleActions(q));
    ClaimedAgain(q, StaleActions(q));
    SecondFetch(q, StaleActions(q));
    BothWritten(q, StaleActions(q));
    FirstAcked(q, StaleActions(q));
    LastAcked(q, StaleActions(q));
  }
}
