/** The ingestion queue: the pending, processing and failed sets, the batches in flight
    between them, and what keeps every unprocessed event in one of the sets. */
module Queue {
  import opened Text
  import opened EntityMaps

  // ------------------------------------------------------------------- state

  /** One command of a queue pipeline: SADD pending, SREM processing, the failure script,
      ZREM and DEL of a failure record. */
  datatype Cmd = AddPending(qids: set<Qid>) | Ack(qids: set<Qid>) | Record(qid: Qid) | Forget(qid: Qid)

  /** A batch somebody is working on. While it is being fetched and written, `seen` are its
      entities without a new event since it was taken; afterwards `todo` is what is left of
      its pipeline. A retry batch comes from the failed set and never was in processing. */
  datatype Batch =
    | Fetching(qids: set<Qid>, retry: bool, seen: set<Qid>)
    | Settling(qids: set<Qid>, retry: bool, todo: seq<Cmd>)

  /** The three sets in the store and, beside them: the entities with an unprocessed event,
      the batches in flight, the entities of drain batches that were let go unfinished, and
      those whose failure record a retry removed although they had an unprocessed event. */
  datatype State = State(
    pending: set<Qid>, processing: set<Qid>, failed: set<Qid>,
    owed: set<Qid>, held: seq<Batch>, loose: set<Qid>, forgotten: set<Qid>)

  const EMPTY_QUEUE := State({}, {}, {}, {}, [], {}, {})

  // ------------------------------------------------------------------- steps

  datatype Move =
    | Arrive(qids: set<Qid>)
    | Claim(qids: set<Qid>)
    | Retry(qids: set<Qid>)
    | Finish(at: nat, order: seq<Qid>, errors: set<Qid>)
    | Fail(at: nat)
    | Exec(at: nat)
    | Break(at: nat)
    | Crash
    | Recover(commands: nat)

  /** A new event makes what a batch fetched before it outdated. */
  function Outdate(b: Batch, qids: set<Qid>): Batch {
    if b.Fetching? then b.(seen := b.seen - qids) else b
  }

  function OutdateAll(held: seq<Batch>, qids: set<Qid>): seq<Batch> {
    seq(|held|, i requires 0 <= i < |held| => Outdate(held[i], qids))
  }

  /** The failure records of a drain batch, in the order of its ids. */
  function Records(order: seq<Qid>, errors: set<Qid>): seq<Cmd> {
    if order == [] then []
    else
      var n := |order| - 1;
      Records(order[..n], errors) + if order[n] in errors then [Record(order[n])] else []
  }

  /** The records a retry updates: kept for the entities that failed again. */
  function Updates(order: seq<Qid>, errors: set<Qid>): seq<Cmd> {
    if order == [] then []
    else
      var n := |order| - 1;
      Updates(order[..n], errors) + [if order[n] in errors then Record(order[n]) else Forget(order[n])]
  }

  predicate Lists(order: seq<Qid>, qids: set<Qid>) { (set q | q in order) == qids }

  function Without(held: seq<Batch>, at: nat): seq<Batch>
    requires at < |held|
  {
    held[..at] + held[at + 1..]
  }

  function ApplyCmd(s: State, c: Cmd): State {
    match c
    case AddPending(qids) => s.(pending := s.pending + qids)
    case Ack(qids) => s.(processing := s.processing - qids)
    case Record(q) => s.(failed := s.failed + {q})
    case Forget(q) => s.(failed := s.failed - {q}, forgotten := s.forgotten + ({q} * s.owed))
  }

  /** ProcessEntities succeeded: what it saw is processed, except for the errors. */
  function Finished(b: Batch, order: seq<Qid>, errors: set<Qid>): Batch {
    Settling(b.qids, b.retry, if b.retry then Updates(order, errors) else Records(order, errors) + [Ack(b.qids)])
  }

  /** Back to pending first, then out of processing. */
  function Requeued(b: Batch): Batch {
    Settling(b.qids, false, [AddPending(b.qids), Ack(b.qids)])
  }

  /** The batch's next command; a batch without commands left is done. */
  function ExecAt(s: State, at: nat): State
    requires at < |s.held| && s.held[at].Settling? && s.held[at].todo != []
  {
    var b := s.held[at];
    var rest := b.todo[1..];
    ApplyCmd(s, b.todo[0]).(held := if rest == [] then Without(s.held, at) else s.held[at := b.(todo := rest)])
  }

  /** A drain batch whose pipeline breaks is let go; a retry goes on with its next record. */
  function BreakAt(s: State, at: nat): State
    requires at < |s.held|
  {
    var b := s.held[at];
    if b.retry && b.Settling? && |b.todo| > 1 then s.(held := s.held[at := b.(todo := b.todo[1..])])
    else s.(held := Without(s.held, at), loose := s.loose + if b.retry then {} else b.qids)
  }

  function HeldQids(held: seq<Batch>): set<Qid> {
    if held == [] then {} else HeldQids(held[..|held| - 1]) + held[|held| - 1].qids
  }

  /** One step of anyone. A step that is not possible changes nothing. */
  function Step(s: State, mv: Move): State {
    match mv
    case Arrive(qids) => s.(pending := s.pending + qids, owed := s.owed + qids, held := OutdateAll(s.held, qids))
    case Claim(qids) =>
      if qids <= s.pending && qids != {} then
        s.(pending := s.pending - qids, processing := s.processing + qids,
           held := s.held + [Fetching(qids, false, qids)])
      else s
    case Retry(qids) =>
      if qids <= s.failed && qids != {} then s.(held := s.held + [Fetching(qids, true, qids)]) else s
    case Finish(at, order, errors) =>
      if at < |s.held| && s.held[at].Fetching? && Lists(order, s.held[at].qids) then
        var b := s.held[at];
        s.(owed := s.owed - (b.seen - errors), held := s.held[at := Finished(b, order, errors)])
      else s
    case Fail(at) =>
      if at < |s.held| && s.held[at].Fetching? then
        if s.held[at].retry then s.(held := Without(s.held, at)) else s.(held := s.held[at := Requeued(s.held[at])])
      else s
    case Exec(at) => if at < |s.held| && s.held[at].Settling? && s.held[at].todo != [] then ExecAt(s, at) else s
    case Break(at) => if at < |s.held| then BreakAt(s, at) else s
    case Crash => s.(held := [], loose := s.loose + HeldQids(s.held))
    case Recover(n) =>
      if s.held == [] && n > 0
      then s.(pending := s.pending + s.processing, processing := if n > 1 then {} else s.processing)
      else s
  }

  function Run(s: State, moves: seq<Move>): State {
    if moves == [] then s else Step(Run(s, moves[..|moves| - 1]), moves[|moves| - 1])
  }

  /** Every unprocessed event's entity is in one of the sets. */
  predicate Conserved(s: State) { s.owed <= s.pending + s.processing + s.failed }

  // ------------------------------------------- disjoint batches: crash safety

  predicate Disjoint(held: seq<Batch>) {
    forall i, j :: 0 <= i < j < |held| ==> held[i].qids !! held[j].qids
  }

  predicate Own(b: Batch, c: Cmd) {
    match c
    case AddPending(qids) => !b.retry && qids == b.qids
    case Ack(qids) => !b.retry && qids == b.qids
    case Record(q) => q in b.qids
    case Forget(q) => b.retry && q in b.qids
  }

  /** The commands are the batch's own, and a drain batch acks last. */
  predicate Orderly(b: Batch)
    requires b.Settling?
  {
    && b.todo != []
    && (forall i :: 0 <= i < |b.todo| ==> Own(b, b.todo[i]))
    && (forall i :: 0 <= i < |b.todo| - 1 ==> !b.todo[i].Ack?)
  }

  /** Whatever the batch still removes from a set is safe somewhere else by then. */
  predicate Safe(pending: set<Qid>, failed: set<Qid>, owed: set<Qid>, b: Batch) {
    b.qids != {} &&
    match b
    case Fetching(qids, _, seen) =>
      seen <= qids && forall q :: q in qids && q in owed && q !in seen ==> q in pending
    case Settling(qids, retry, todo) =>
      && Orderly(b)
      && (forall q :: q in qids && q in owed && !retry ==>
            q in pending || q in failed || Record(q) in todo || AddPending(qids) in todo)
      && (forall q :: q in owed && Forget(q) in todo ==> q in pending)
  }

  predicate DisjointOk(s: State) {
    && Conserved(s) && Disjoint(s.held)
    && forall i :: 0 <= i < |s.held| ==> Safe(s.pending, s.failed, s.owed, s.held[i])
  }

  /** The hypothesis: nobody takes an entity that is in somebody's batch. */
  predicate TakesFree(s: State, mv: Move) {
    (mv.Claim? || mv.Retry?) ==> mv.qids !! HeldQids(s.held)
  }

  lemma HeldQidsAt(held: seq<Batch>, i: nat)
    requires i < |held|
    ensures held[i].qids <= HeldQids(held)
  {
    if i < |held| - 1 { HeldQidsAt(held[..|held| - 1], i); }
  }

  lemma {:induction false} RecordsHas(order: seq<Qid>, errors: set<Qid>)
    ensures forall q :: Record(q) in Records(order, errors) <==> q in order && q in errors
    ensures forall c :: c in Records(order, errors) ==> c.Record?
  {
    if order != [] {
      var n := |order| - 1;
      RecordsHas(order[..n], errors);
      assert order == order[..n] + [order[n]];
    }
  }

  lemma {:induction false} UpdatesHas(order: seq<Qid>, errors: set<Qid>)
    ensures forall q :: Forget(q) in Updates(order, errors) <==> q in order && q !in errors
    ensures forall c :: c in Updates(order, errors) ==> (c.Record? || c.Forget?) && c.qid in order
    ensures |Updates(order, errors)| == |order|
  {
    if order != [] {
      var n := |order| - 1;
      UpdatesHas(order[..n], errors);
      assert order == order[..n] + [order[n]];
    }
  }

  lemma ArriveOk(s: State, qids: set<Qid>)
    requires DisjointOk(s)
    ensures DisjointOk(Step(s, Arrive(qids)))
  {
    var t := Step(s, Arrive(qids));
    forall i | 0 <= i < |t.held| ensures Safe(t.pending, t.failed, t.owed, t.held[i]) {
      assert Safe(s.pending, s.failed, s.owed, s.held[i]);
    }
  }

  lemma TakeOk(s: State, qids: set<Qid>, retry: bool, t: State)
    requires DisjointOk(s) && qids !! HeldQids(s.held) && qids != {}
    requires t.held == s.held + [Fetching(qids, retry, qids)] && t.failed == s.failed && t.owed == s.owed
    requires s.pending - qids <= t.pending && Conserved(t)
    ensures DisjointOk(t)
  {
    forall i | 0 <= i < |s.held| ensures s.held[i].qids !! qids && Safe(t.pending, t.failed, t.owed, s.held[i]) {
      HeldQidsAt(s.held, i);
      assert Safe(s.pending, s.failed, s.owed, s.held[i]);
    }
  }

  lemma FinishedSafe(s: State, b: Batch, order: seq<Qid>, errors: set<Qid>)
    requires b.Fetching? && Lists(order, b.qids) && Safe(s.pending, s.failed, s.owed, b)
    ensures Safe(s.pending, s.failed, s.owed - (b.seen - errors), Finished(b, order, errors))
  {
    var done := Finished(b, order, errors);
    assert forall q :: q in order <==> q in b.qids by {
      assert forall q :: q in order <==> q in (set p | p in order);
    }
    if b.retry {
      UpdatesHas(order, errors);
      assert order != [];
      assert forall i :: 0 <= i < |done.todo| ==> done.todo[i] in Updates(order, errors);
    } else {
      RecordsHas(order, errors);
      var rs := Records(order, errors);
      assert forall i :: 0 <= i < |rs| ==> rs[i] in rs;
      forall q | q in b.qids && q in s.owed - (b.seen - errors) && q !in s.pending ensures Record(q) in done.todo {
        assert Record(q) in rs;
      }
    }
  }

  lemma FinishOk(s: State, at: nat, order: seq<Qid>, errors: set<Qid>)
    requires DisjointOk(s) && at < |s.held| && s.held[at].Fetching? && Lists(order, s.held[at].qids)
    ensures DisjointOk(Step(s, Finish(at, order, errors)))
  {
    var t := Step(s, Finish(at, order, errors));
    assert Safe(s.pending, s.failed, s.owed, s.held[at]);
    FinishedSafe(s, s.held[at], order, errors);
    forall i | 0 <= i < |t.held| ensures Safe(t.pending, t.failed, t.owed, t.held[i]) {
      assert Safe(s.pending, s.failed, s.owed, s.held[i]);
    }
  }

  lemma WithoutOk(s: State, at: nat)
    requires DisjointOk(s) && at < |s.held|
    ensures DisjointOk(s.(held := Without(s.held, at)))
  {
    var left := Without(s.held, at);
    assert forall i :: 0 <= i < |left| ==> left[i] == s.held[if i < at then i else i + 1];
  }

  lemma RequeuedOk(s: State, at: nat)
    requires DisjointOk(s) && at < |s.held| && s.held[at].Fetching? && !s.held[at].retry
    ensures DisjointOk(s.(held := s.held[at := Requeued(s.held[at])]))
  {
    var held := s.held[at := Requeued(s.held[at])];
    assert Safe(s.pending, s.failed, s.owed, s.held[at]);
    assert AddPending(held[at].qids) in held[at].todo;
    forall i | 0 <= i < |held| ensures Safe(s.pending, s.failed, s.owed, held[i]) {
      assert Safe(s.pending, s.failed, s.owed, s.held[i]);
    }
  }

  /** A command of one batch leaves every batch disjoint from it safe. */
  lemma CmdKeepsOther(s: State, b: Batch, c: Cmd, other: Batch)
    requires Own(b, c) && b.qids !! other.qids && Safe(s.pending, s.failed, s.owed, other)
    ensures Safe(ApplyCmd(s, c).pending, ApplyCmd(s, c).failed, s.owed, other)
  {
  }

  /** A batch's own command keeps everything conserved, and the rest of the batch safe. */
  lemma CmdKeepsOwn(s: State, b: Batch)
    requires b.Settling? && Conserved(s) && Safe(s.pending, s.failed, s.owed, b)
    ensures var t := ApplyCmd(s, b.todo[0]);
            Conserved(t) && (|b.todo| > 1 ==> Safe(t.pending, t.failed, t.owed, b.(todo := b.todo[1..])))
  {
    var c, rest := b.todo[0], b.todo[1..];
    assert b.todo == [c] + rest;
    assert Own(b, c);
    if c.Ack? { assert |b.todo| == 1; }
    assert forall i :: 0 <= i < |rest| ==> rest[i] == b.todo[i + 1];
  }

  lemma ExecKeeps(s: State, at: nat)
    requires DisjointOk(s) && at < |s.held| && s.held[at].Settling? && s.held[at].todo != []
    ensures DisjointOk(ExecAt(s, at))
  {
    var b := s.held[at];
    var c, rest := b.todo[0], b.todo[1..];
    var mid := ApplyCmd(s, c).(held := if rest == [] then s.held else s.held[at := b.(todo := rest)]);
    assert Safe(s.pending, s.failed, s.owed, b);
    assert Own(b, c);
    CmdKeepsOwn(s, b);
    forall i | 0 <= i < |s.held| && i != at ensures Safe(mid.pending, mid.failed, mid.owed, s.held[i]) {
      assert b.qids !! s.held[i].qids;
      CmdKeepsOther(s, b, c, s.held[i]);
    }
    DropOrKeep(s, mid, ExecAt(s, at), at);
  }

  lemma DropOrKeep(s: State, mid: State, t: State, at: nat)
    requires Disjoint(s.held) && at < |s.held| && Conserved(t)
    requires t.held == Without(s.held, at) ||
             (|t.held| == |s.held| && t.held == s.held[at := t.held[at]] && t.held[at].qids == s.held[at].qids)
    requires |t.held| == |s.held| ==> Safe(t.pending, t.failed, t.owed, t.held[at])
    requires forall i :: 0 <= i < |s.held| && i != at ==> Safe(t.pending, t.failed, t.owed, s.held[i])
    ensures DisjointOk(t)
  {
    if |t.held| < |s.held| {
      assert forall i :: 0 <= i < |t.held| ==> t.held[i] == s.held[if i < at then i else i + 1];
    }
  }

  lemma BreakKeeps(s: State, at: nat)
    requires DisjointOk(s) && at < |s.held|
    ensures DisjointOk(BreakAt(s, at))
  {
    var b := s.held[at];
    if b.retry && b.Settling? && |b.todo| > 1 {
      assert Safe(s.pending, s.failed, s.owed, b);
      var rest := b.(todo := b.todo[1..]);
      assert forall i :: 0 <= i < |rest.todo| ==> rest.todo[i] == b.todo[i + 1];
      assert Safe(s.pending, s.failed, s.owed, rest);
      forall i | 0 <= i < |s.held| && i != at ensures Safe(s.pending, s.failed, s.owed, s.held[i]) {}
      DropOrKeep(s, s, BreakAt(s, at), at);
    } else {
      WithoutOk(s, at);
    }
  }

  lemma StepConserves(s: State, mv: Move)
    requires DisjointOk(s) && TakesFree(s, mv)
    ensures DisjointOk(Step(s, mv))
  {
    match mv
    case Arrive(qids) => ArriveOk(s, qids);
    case Claim(qids) => if Step(s, mv) != s { TakeOk(s, qids, false, Step(s, mv)); }
    case Retry(qids) => if Step(s, mv) != s { TakeOk(s, qids, true, Step(s, mv)); }
    case Finish(at, order, errors) => if Step(s, mv) != s { FinishOk(s, at, order, errors); }
    case Fail(at) =>
      if at < |s.held| && s.held[at].Fetching? {
        if s.held[at].retry { WithoutOk(s, at); } else { RequeuedOk(s, at); }
      }
    case Exec(at) => if at < |s.held| && s.held[at].Settling? && s.held[at].todo != [] { ExecKeeps(s, at); }
    case Break(at) => if at < |s.held| { BreakKeeps(s, at); }
    case Crash =>
    case Recover(n) =>
  }

  /** Batches never overlap in this run. */
  predicate NeverOverlaps(s: State, moves: seq<Move>) {
    forall k :: 0 <= k < |moves| ==> TakesFree(Run(s, moves[..k]), moves[k])
  }

  lemma {:induction false} RunConserves(s: State, moves: seq<Move>)
    requires DisjointOk(s) && NeverOverlaps(s, moves)
    ensures DisjointOk(Run(s, moves))
  {
    if moves != [] {
      var n := |moves| - 1;
      assert forall k :: 0 <= k < n ==> moves[..n][..k] == moves[..k];
      RunConserves(s, moves[..n]);
      StepConserves(Run(s, moves[..n]), moves[n]);
    }
  }

  function Restarted(s: State, recovery: nat): State { Step(Step(s, Crash), Recover(recovery)) }

  lemma RestartedHas(s: State, recovery: nat)
    requires Conserved(s) && recovery >= 2
    ensures Restarted(s, recovery).owed <= Restarted(s, recovery).pending + Restarted(s, recovery).failed
    ensures Restarted(s, recovery).processing == {}
  {
  }

  /** Crash-safe conservation: as long as batches do not overlap, after every step of every
      run (arrivals, claims, failures, pipelines broken after any command, crashes, broken
      recoveries, retries) each entity with an unprocessed event is in one of the sets,
      also when it was enqueued again while claimed. After a completed recovery it is in
      pending or among the recorded failures. */
  lemma CrashSafe(moves: seq<Move>, recovery: nat, s: State)
    requires NeverOverlaps(EMPTY_QUEUE, moves) && s == Run(EMPTY_QUEUE, moves)
    ensures Conserved(s)
    ensures recovery >= 2 ==>
              Restarted(s, recovery).owed <= Restarted(s, recovery).pending + Restarted(s, recovery).failed &&
              Restarted(s, recovery).processing == {}
  {
    RunConserves(EMPTY_QUEUE, moves);
    if recovery >= 2 { RestartedHas(s, recovery); }
  }

  // -------------------------------------------- overlapping batches and retries

  /** The drain batch will put q somewhere safe, or has just fetched it. */
  predicate Keeps(b: Batch, q: Qid) {
    !b.retry && q in b.qids &&
    match b
    case Fetching(_, _, seen) => q in seen
    case Settling(qids, _, todo) => Record(q) in todo || AddPending(qids) in todo
  }

  predicate KeptBySomeone(held: seq<Batch>, q: Qid) { exists i :: 0 <= i < |held| && Keeps(held[i], q) }

  predicate Unclaimed(held: seq<Batch>, q: Qid) {
    forall i :: 0 <= i < |held| && !held[i].retry ==> q !in held[i].qids
  }

  /** Where an unprocessed entity can be, when batches may overlap. */
  predicate Tracked(s: State, q: Qid) {
    || q in s.pending || q in s.failed || q in s.loose || q in s.forgotten
    || KeptBySomeone(s.held, q)
    || (q in s.processing && Unclaimed(s.held, q))
  }

  predicate Proper(b: Batch) { b.qids != {} && (b.Settling? ==> Orderly(b)) }

  predicate TrackOk(s: State) {
    && (forall q :: q in s.owed ==> Tracked(s, q))
    && (forall i :: 0 <= i < |s.held| ==> Proper(s.held[i]))
  }

  lemma KeptAt(held: seq<Batch>, i: nat, q: Qid)
    requires i < |held| && Keeps(held[i], q)
    ensures KeptBySomeone(held, q)
  {
  }

  lemma ArriveTracks(s: State, qids: set<Qid>)
    requires TrackOk(s)
    ensures TrackOk(Step(s, Arrive(qids)))
  {
    var t := Step(s, Arrive(qids));
    forall q | q in t.owed ensures Tracked(t, q) {
      if q !in qids && KeptBySomeone(s.held, q) {
        var i :| 0 <= i < |s.held| && Keeps(s.held[i], q);
        assert Keeps(t.held[i], q);
      }
    }
    forall i | 0 <= i < |t.held| ensures Proper(t.held[i]) { assert Proper(s.held[i]); }
  }

  /** A batch is taken, from pending or from the failed set. */
  lemma TakeTracks(s: State, qids: set<Qid>, t: State)
    requires TrackOk(s) && qids != {}
    requires t == Step(s, Claim(qids)) || t == Step(s, Retry(qids))
    ensures TrackOk(t)
  {
    if |t.held| > |s.held| {
      forall q | q in t.owed ensures Tracked(t, q) {
        if KeptBySomeone(s.held, q) {
          var i :| 0 <= i < |s.held| && Keeps(s.held[i], q);
          KeptAt(t.held, i, q);
        } else if q in qids && !t.held[|s.held|].retry {
          KeptAt(t.held, |s.held|, q);
        }
      }
    }
  }

  /** Replacing one batch by a later stage of itself that keeps what it kept. */
  lemma ReplaceTracks(s: State, t: State, at: nat, b: Batch)
    requires TrackOk(s) && at < |s.held| && t == s.(owed := t.owed, held := s.held[at := b]) && t.owed <= s.owed
    requires b.qids == s.held[at].qids && b.retry == s.held[at].retry && Proper(b)
    requires forall q :: q in t.owed && Keeps(s.held[at], q) ==> Keeps(b, q)
    ensures TrackOk(t)
  {
    forall q | q in t.owed ensures Tracked(t, q) {
      if KeptBySomeone(s.held, q) {
        var i :| 0 <= i < |s.held| && Keeps(s.held[i], q);
        KeptAt(t.held, i, q);
      } else if Unclaimed(s.held, q) {
        assert Unclaimed(t.held, q);
      }
    }
  }

  lemma ListsIn(order: seq<Qid>, qids: set<Qid>)
    requires Lists(order, qids)
    ensures forall q :: q in order <==> q in qids
  {
    assert forall q :: q in order <==> q in (set p | p in order);
  }

  lemma FinishedProper(b: Batch, order: seq<Qid>, errors: set<Qid>)
    requires b.Fetching? && b.qids != {} && Lists(order, b.qids)
    ensures Proper(Finished(b, order, errors))
    ensures forall q :: q in b.qids && q in errors && !b.retry ==> Record(q) in Finished(b, order, errors).todo
  {
    ListsIn(order, b.qids);
    var todo := Finished(b, order, errors).todo;
    if b.retry {
      UpdatesHas(order, errors);
      assert order != [];
      assert forall i :: 0 <= i < |todo| ==> todo[i] in todo;
    } else {
      RecordsHas(order, errors);
      var rs := Records(order, errors);
      assert forall i :: 0 <= i < |rs| ==> rs[i] in rs;
    }
  }

  lemma FinishTracks(s: State, at: nat, order: seq<Qid>, errors: set<Qid>)
    requires TrackOk(s) && at < |s.held| && s.held[at].Fetching? && Lists(order, s.held[at].qids)
    ensures TrackOk(Step(s, Finish(at, order, errors)))
  {
    var b := s.held[at];
    assert Proper(b);
    FinishedProper(b, order, errors);
    ReplaceTracks(s, Step(s, Finish(at, order, errors)), at, Finished(b, order, errors));
  }

  lemma DropRetryTracks(s: State, at: nat)
    requires TrackOk(s) && at < |s.held| && s.held[at].retry
    ensures TrackOk(s.(held := Without(s.held, at)))
  {
    var t := s.(held := Without(s.held, at));
    assert forall i :: 0 <= i < |t.held| ==> t.held[i] == s.held[if i < at then i else i + 1];
    forall q | q in t.owed ensures Tracked(t, q) { StillTracked(s, t, at, q); }
  }

  lemma FailTracks(s: State, at: nat)
    requires TrackOk(s) && at < |s.held| && s.held[at].Fetching?
    ensures TrackOk(Step(s, Fail(at)))
  {
    assert Proper(s.held[at]);
    if s.held[at].retry {
      DropRetryTracks(s, at);
    } else {
      var b := Requeued(s.held[at]);
      assert AddPending(b.qids) in b.todo;
      ReplaceTracks(s, Step(s, Fail(at)), at, b);
    }
  }

  lemma BreakTracks(s: State, at: nat)
    requires TrackOk(s) && at < |s.held|
    ensures TrackOk(BreakAt(s, at))
  {
    var b, t := s.held[at], BreakAt(s, at);
    assert Proper(b);
    if b.retry && b.Settling? && |b.todo| > 1 {
      var rest := b.(todo := b.todo[1..]);
      assert forall i :: 0 <= i < |rest.todo| ==> rest.todo[i] == b.todo[i + 1];
      ReplaceTracks(s, t, at, rest);
    } else {
      assert forall i :: 0 <= i < |t.held| ==> t.held[i] == s.held[if i < at then i else i + 1];
      forall q | q in t.owed ensures Tracked(t, q) { StillTracked(s, t, at, q); }
    }
  }

  /** Without a batch whose entities are let go, or were never claimed by it. */
  lemma StillTracked(s: State, t: State, at: nat, q: Qid)
    requires at < |s.held| && Tracked(s, q) && t == s.(held := Without(s.held, at), loose := t.loose)
    requires s.loose <= t.loose && (s.held[at].retry || s.held[at].qids <= t.loose)
    ensures Tracked(t, q)
  {
    if KeptBySomeone(s.held, q) {
      var i :| 0 <= i < |s.held| && Keeps(s.held[i], q);
      if i < at { assert t.held[i] == s.held[i]; } else if i > at { assert t.held[i - 1] == s.held[i]; }
    } else if Unclaimed(s.held, q) {
      assert forall i :: 0 <= i < |t.held| ==> t.held[i] == s.held[if i < at then i else i + 1];
    }
  }

  /** A batch's next command: what it stops keeping is in pending, failed or forgotten. */
  lemma ExecTracks(s: State, at: nat)
    requires TrackOk(s) && at < |s.held| && s.held[at].Settling?
    requires s.held[at].todo != []
    ensures TrackOk(ExecAt(s, at))
  {
    var b, t := s.held[at], ExecAt(s, at);
    var c, rest := b.todo[0], b.todo[1..];
    assert Proper(b) && b.todo == [c] + rest;
    if rest == [] {
      assert forall i :: 0 <= i < |t.held| ==> t.held[i] == s.held[if i < at then i else i + 1];
    } else {
      assert forall i :: 0 <= i < |rest| ==> rest[i] == b.todo[i + 1];
      assert Proper(b.(todo := rest));
    }
    forall q | q in t.owed ensures Tracked(t, q) {
      ExecTracksOne(s, at, q);
    }
  }

  lemma ExecTracksOne(s: State, at: nat, q: Qid)
    requires TrackOk(s) && at < |s.held| && s.held[at].Settling? && Tracked(s, q) && q in s.owed
    requires s.held[at].todo != []
    ensures Tracked(ExecAt(s, at), q)
  {
    var b, t := s.held[at], ExecAt(s, at);
    var c, rest := b.todo[0], b.todo[1..];
    assert Proper(b) && b.todo == [c] + rest;
    assert Own(b, c);
    if KeptBySomeone(s.held, q) {
      var i :| 0 <= i < |s.held| && Keeps(s.held[i], q);
      if i == at {
        if rest != [] && Keeps(b.(todo := rest), q) { KeptAt(t.held, at, q); }
      } else if rest == [] {
        KeptAt(t.held, if i < at then i else i - 1, q);
      } else {
        KeptAt(t.held, i, q);
      }
    } else if Unclaimed(s.held, q) {
      assert b.retry || q !in b.qids;
      assert forall i :: 0 <= i < |t.held| && |t.held| < |s.held| ==> t.held[i] == s.held[if i < at then i else i + 1];
    }
  }

  lemma ClaimedIsHeld(held: seq<Batch>, q: Qid)
    ensures !Unclaimed(held, q) || KeptBySomeone(held, q) ==> q in HeldQids(held)
  {
    if i :| 0 <= i < |held| && q in held[i].qids { HeldQidsAt(held, i); }
  }

  lemma CrashTracks(s: State)
    requires TrackOk(s)
    ensures TrackOk(Step(s, Crash))
  {
    var t := Step(s, Crash);
    forall q | q in t.owed ensures Tracked(t, q) {
      ClaimedIsHeld(s.held, q);
    }
  }

  lemma StepTracks(s: State, mv: Move)
    requires TrackOk(s)
    ensures TrackOk(Step(s, mv))
  {
    match mv
    case Arrive(qids) => ArriveTracks(s, qids);
    case Claim(qids) => if qids != {} { TakeTracks(s, qids, Step(s, mv)); }
    case Retry(qids) => if qids != {} { TakeTracks(s, qids, Step(s, mv)); }
    case Finish(at, order, errors) =>
      if at < |s.held| && s.held[at].Fetching? && Lists(order, s.held[at].qids) { FinishTracks(s, at, order, errors); }
    case Fail(at) => if at < |s.held| && s.held[at].Fetching? { FailTracks(s, at); }
    case Exec(at) => if at < |s.held| && s.held[at].Settling? && s.held[at].todo != [] { ExecTracks(s, at); }
    case Break(at) => if at < |s.held| { BreakTracks(s, at); }
    case Crash => CrashTracks(s);
    case Recover(n) =>
  }

  lemma {:induction false} RunTracks(s: State, moves: seq<Move>)
    requires TrackOk(s)
    ensures TrackOk(Run(s, moves))
  {
    if moves != [] {
      var n := |moves| - 1;
      RunTracks(s, moves[..n]);
      StepTracks(Run(s, moves[..n]), moves[n]);
    }
  }

  predicate NeverLetsGo(moves: seq<Move>) { forall k :: 0 <= k < |moves| ==> !moves[k].Break? && !moves[k].Crash? }

  lemma {:induction false} NothingLetGo(s: State, moves: seq<Move>)
    requires NeverLetsGo(moves)
    ensures Run(s, moves).loose == s.loose
  {
    if moves != [] { NothingLetGo(s, moves[..|moves| - 1]); }
  }

  predicate NeverRetries(moves: seq<Move>) { forall k :: 0 <= k < |moves| ==> !moves[k].Retry? }

  predicate NoRetries(s: State) { s.forgotten == {} && forall i :: 0 <= i < |s.held| ==> !s.held[i].retry }

  lemma StepWithoutRetry(s: State, mv: Move)
    requires TrackOk(s) && NoRetries(s) && !mv.Retry?
    ensures NoRetries(Step(s, mv))
  {
    if mv.Exec? && Step(s, mv) != s {
      var b := s.held[mv.at];
      assert Proper(b) && Own(b, b.todo[0]);
    }
  }

  lemma {:induction false} NothingForgotten(s: State, moves: seq<Move>)
    requires TrackOk(s) && NoRetries(s) && NeverRetries(moves)
    ensures NoRetries(Run(s, moves))
  {
    if moves != [] {
      var n := |moves| - 1;
      NothingForgotten(s, moves[..n]);
      RunTracks(s, moves[..n]);
      StepWithoutRetry(Run(s, moves[..n]), moves[n]);
    }
  }

  /** Conservation however batches overlap: after every run an entity with an unprocessed event
      is in one of the sets or in a batch in flight. The only exceptions are drain batches that
      were let go, of which there are none without breaks and crashes, and failure records that
      a retry removed too late, of which there are none without retries. */
  lemma DrainConserves(moves: seq<Move>, s: State)
    requires s == Run(EMPTY_QUEUE, moves)
    ensures s.owed <= s.pending + s.processing + s.failed + HeldQids(s.held) + s.loose + s.forgotten
    ensures NeverLetsGo(moves) ==> s.loose == {}
    ensures NeverRetries(moves) ==> s.forgotten == {}
  {
    RunTracks(EMPTY_QUEUE, moves);
    if NeverLetsGo(moves) { NothingLetGo(EMPTY_QUEUE, moves); }
    if NeverRetries(moves) { NothingForgotten(EMPTY_QUEUE, moves); }
    forall q | q in s.owed
      ensures q in s.pending + s.processing + s.failed + HeldQids(s.held) + s.loose + s.forgotten {
      ClaimedIsHeld(s.held, q);
    }
  }

  // ---------------------------------------------------- overlaps lose events

  /** The entity is in the hands of someone else only, or already lost there. */
  predicate Elsewhere(s: State, q: Qid) { KeptBySomeone(s.held, q) || q in s.loose || q in s.forgotten }

  /** Acking keeps everything conserved exactly when every entity of the batch with an
      unprocessed event that another batch holds, or held, is in pending or failed as well.
      Retries may be in flight. */
  lemma AckConservesIff(s: State, at: nat)
    requires TrackOk(s) && Conserved(s) && at < |s.held|
    requires s.held[at].Settling? && s.held[at].todo == [Ack(s.held[at].qids)]
    ensures Conserved(ExecAt(s, at)) <==>
            forall q :: q in s.held[at].qids && q in s.owed && Elsewhere(s, q) ==> q in s.pending || q in s.failed
  {
    var b, t := s.held[at], ExecAt(s, at);
    assert Proper(b) && Own(b, b.todo[0]);
    assert t.owed == s.owed && t.pending == s.pending && t.failed == s.failed && t.processing == s.processing - b.qids;
    if forall q :: q in b.qids && q in s.owed && Elsewhere(s, q) ==> q in s.pending || q in s.failed {
      forall q | q in t.owed ensures q in t.pending + t.processing + t.failed {
        assert Tracked(s, q);
        if q in b.qids { assert !Unclaimed(s.held, q); }
      }
    }
  }

  /** Removing a failure record keeps everything conserved exactly when the entity has no
      unprocessed event, or is back in pending, or claimed and not acked yet. */
  lemma ForgetConservesIff(s: State, at: nat, q: Qid)
    requires Conserved(s) && at < |s.held|
    requires s.held[at].Settling? && s.held[at].todo != [] && s.held[at].todo[0] == Forget(q)
    ensures Conserved(ExecAt(s, at)) <==> q !in s.owed || q in s.pending || q in s.processing
    ensures !Conserved(ExecAt(s, at)) ==> q in ExecAt(s, at).forgotten
  {
    var t := ExecAt(s, at);
    assert t.failed == s.failed - {q} && t.pending == s.pending && t.processing == s.processing && t.owed == s.owed;
  }

  /** An event, its batch, another event during that batch, a second batch: the end of the first
      removes the entity from processing under the second. */
  function OverlapRun(q: Qid): seq<Move> {
    [Arrive({q}), Claim({q}), Arrive({q}), Claim({q}), Finish(0, [q], {}), Exec(0)]
  }

  /** A recorded failure, its retry, another event during the retry, a batch that fails again:
      the end of the retry removes the new failure record. */
  function RetryRun(q: Qid): seq<Move> {
    [Arrive({q}), Claim({q}), Finish(0, [q], {q}), Exec(0), Exec(0), Retry({q}), Arrive({q}), Claim({q}),
     Finish(1, [q], {q}), Exec(1), Exec(1), Finish(0, [q], {}), Exec(0)]
  }

  lemma RunNext(moves: seq<Move>, k: nat, s: State, t: State)
    requires k < |moves| && Run(EMPTY_QUEUE, moves[..k]) == s && Step(s, moves[k]) == t
    ensures Run(EMPTY_QUEUE, moves[..k + 1]) == t
  {
    assert moves[..k + 1][..k] == moves[..k];
  }

  lemma RunNothing(moves: seq<Move>)
    ensures Run(EMPTY_QUEUE, moves[..0]) == EMPTY_QUEUE
  {
  }

  lemma OneFailure(q: Qid)
    ensures Records([q], {q}) == [Record(q)] && Records([q], {}) == []
    ensures Updates([q], {}) == [Forget(q)] && Lists([q], {q})
  {
    assert [q][..0] == [];
  }

  function OneTodo(q: Qid, retry: bool, failed: bool): seq<Cmd> {
    if retry then if failed then [Record(q)] else [Forget(q)]
    else if failed then [Record(q), Ack({q})] else [Ack({q})]
  }

  lemma FinishOne(s: State, at: nat, q: Qid, errors: set<Qid>)
    requires at < |s.held| && s.held[at].Fetching? && s.held[at].qids == {q} && (errors == {} || errors == {q})
    ensures Step(s, Finish(at, [q], errors)) ==
            s.(owed := s.owed - (s.held[at].seen - errors),
               held := s.held[at := Settling({q}, s.held[at].retry, OneTodo(q, s.held[at].retry, errors == {q}))])
  {
    OneFailure(q);
    assert [q][..0] == [] && Updates([q], {q}) == [Record(q)];
    assert [Record(q)] + [Ack({q})] == [Record(q), Ack({q})] && [] + [Ack({q})] == [Ack({q})];
  }

  /** The states of the overlap, one after the other. */
  function Claimed(q: Qid): State { State({}, {q}, {}, {q}, [Fetching({q}, false, {q})], {}, {}) }

  function Overlapped(q: Qid): State {
    State({}, {q}, {}, {q}, [Fetching({q}, false, {}), Fetching({q}, false, {q})], {}, {})
  }

  function AckDue(q: Qid): State {
    State({}, {q}, {}, {q}, [Settling({q}, false, [Ack({q})]), Fetching({q}, false, {q})], {}, {})
  }

  lemma ClaimedSteps(q: Qid)
    ensures Step(Step(EMPTY_QUEUE, Arrive({q})), Claim({q})) == Claimed(q)
  {
  }

  lemma OutdateOne(q: Qid, retry: bool)
    ensures OutdateAll([Fetching({q}, retry, {q})], {q}) == [Fetching({q}, retry, {})]
  {
    assert {q} - {q} == {};
    assert Outdate(Fetching({q}, retry, {q}), {q}) == Fetching({q}, retry, {});
  }

  lemma OverlappedSteps(q: Qid)
    ensures Step(Step(Claimed(q), Arrive({q})), Claim({q})) == Overlapped(q)
  {
    OutdateOne(q, false);
    assert {} + {q} == {q} && {q} + {q} == {q};
    assert Step(Claimed(q), Arrive({q})) == State({q}, {q}, {}, {q}, [Fetching({q}, false, {})], {}, {});
  }

  lemma AckDueSteps(q: Qid)
    ensures Step(Overlapped(q), Finish(0, [q], {})) == AckDue(q)
  {
    FinishOne(Overlapped(q), 0, q, {});
  }

  lemma AckedSteps(q: Qid)
    ensures Step(AckDue(q), Exec(0)) == Unheld(q)
  {
  }

  function Unheld(q: Qid): State { State({}, {}, {}, {q}, [Fetching({q}, false, {q})], {}, {}) }

  lemma UnheldLost(q: Qid, recovery: nat)
    ensures var t := Restarted(Unheld(q), recovery);
            q in t.owed && q !in t.pending + t.processing + t.failed && t.held == []
  {
  }

  lemma OverlapFirst(q: Qid, m: seq<Move>)
    requires |m| >= 4 && m[0] == m[2] == Arrive({q}) && m[1] == m[3] == Claim({q})
    ensures Run(EMPTY_QUEUE, m[..4]) == Overlapped(q)
  {
    RunNothing(m);
    ClaimedSteps(q);
    RunNext(m, 0, EMPTY_QUEUE, Step(EMPTY_QUEUE, m[0]));
    RunNext(m, 1, Step(EMPTY_QUEUE, m[0]), Claimed(q));
    OverlappedSteps(q);
    RunNext(m, 2, Claimed(q), Step(Claimed(q), m[2]));
    RunNext(m, 3, Step(Claimed(q), m[2]), Overlapped(q));
  }

  lemma OverlapLast(q: Qid, m: seq<Move>)
    requires |m| == 6 && Run(EMPTY_QUEUE, m[..4]) == Overlapped(q)
    requires m[4] == Finish(0, [q], {}) && m[5] == Exec(0)
    ensures Run(EMPTY_QUEUE, m) == Unheld(q)
  {
    AckDueSteps(q);
    RunNext(m, 4, Overlapped(q), AckDue(q));
    AckedSteps(q);
    RunNext(m, 5, AckDue(q), Unheld(q));
    assert m[..6] == m;
  }

  /** The processing set alone is not crash safe: from the empty queue, this run leaves an
      unprocessed entity in none of the sets. A crash now loses the event for good. */
  lemma OverlapLoses(q: Qid, recovery: nat)
    ensures Run(EMPTY_QUEUE, OverlapRun(q)) == Unheld(q) && !Conserved(Unheld(q))
    ensures var t := Restarted(Unheld(q), recovery);
            q in t.owed && q !in t.pending + t.processing + t.failed && t.held == []
  {
    OverlapFirst(q, OverlapRun(q));
    OverlapLast(q, OverlapRun(q));
    UnheldLost(q, recovery);
    assert q in Unheld(q).owed;
  }

  /** The states of the retry. */
  function FailedOnce(q: Qid): State { State({}, {}, {q}, {q}, [], {}, {}) }

  function RetryOutdated(q: Qid): State {
    State({}, {q}, {q}, {q}, [Fetching({q}, true, {}), Fetching({q}, false, {q})], {}, {})
  }

  function RetryAlone(q: Qid): State { State({}, {}, {q}, {q}, [Fetching({q}, true, {})], {}, {}) }

  /** A drain batch that fails for its only entity, at any place: its record and its ack. */
  function AllFailed(s: State, at: nat, q: Qid): State { Step(Step(Step(s, Finish(at, [q], {q})), Exec(at)), Exec(at)) }

  lemma FailedOnceSteps(q: Qid)
    ensures AllFailed(Claimed(q), 0, q) == FailedOnce(q)
  {
    FinishOne(Claimed(q), 0, q, {q});
    assert [Record(q), Ack({q})][1..] == [Ack({q})];
    assert Step(Step(Claimed(q), Finish(0, [q], {q})), Exec(0)) ==
           State({}, {q}, {q}, {q}, [Settling({q}, false, [Ack({q})])], {}, {});
  }

  lemma RetryOutdatedSteps(q: Qid)
    ensures Step(Step(Step(FailedOnce(q), Retry({q})), Arrive({q})), Claim({q})) == RetryOutdated(q)
  {
    OutdateOne(q, true);
    assert {} + {q} == {q} && {q} + {q} == {q};
    assert Step(FailedOnce(q), Retry({q})) == State({}, {}, {q}, {q}, [Fetching({q}, true, {q})], {}, {});
    assert Step(Step(FailedOnce(q), Retry({q})), Arrive({q})) ==
           State({q}, {}, {q}, {q}, [Fetching({q}, true, {})], {}, {});
  }

  lemma RetryAloneSteps(q: Qid)
    ensures AllFailed(RetryOutdated(q), 1, q) == RetryAlone(q)
  {
    FinishOne(RetryOutdated(q), 1, q, {q});
    assert [Record(q), Ack({q})][1..] == [Ack({q})];
    assert Step(Step(RetryOutdated(q), Finish(1, [q], {q})), Exec(1)) ==
           State({}, {q}, {q}, {q}, [Fetching({q}, true, {}), Settling({q}, false, [Ack({q})])], {}, {});
  }

  lemma ForgottenSteps(q: Qid)
    ensures Step(Step(RetryAlone(q), Finish(0, [q], {})), Exec(0)) == ForgottenOnly(q)
  {
    FinishOne(RetryAlone(q), 0, q, {});
  }

  lemma RunAllFailed(moves: seq<Move>, k: nat, s: State, at: nat, q: Qid)
    requires k + 2 < |moves| && Run(EMPTY_QUEUE, moves[..k]) == s
    requires moves[k] == Finish(at, [q], {q}) && moves[k + 1] == Exec(at) && moves[k + 2] == Exec(at)
    ensures Run(EMPTY_QUEUE, moves[..k + 3]) == AllFailed(s, at, q)
  {
    RunNext(moves, k, s, Step(s, moves[k]));
    RunNext(moves, k + 1, Step(s, moves[k]), Step(Step(s, moves[k]), moves[k + 1]));
    RunNext(moves, k + 2, Step(Step(s, moves[k]), moves[k + 1]), AllFailed(s, at, q));
  }

  function ForgottenOnly(q: Qid): State { State({}, {}, {}, {q}, [], {}, {q}) }

  lemma RetryFirst(q: Qid, m: seq<Move>)
    requires |m| >= 5 && m[0] == Arrive({q}) && m[1] == Claim({q})
    requires m[2] == Finish(0, [q], {q}) && m[3] == m[4] == Exec(0)
    ensures Run(EMPTY_QUEUE, m[..5]) == FailedOnce(q)
  {
    RunNothing(m);
    ClaimedSteps(q);
    RunNext(m, 0, EMPTY_QUEUE, Step(EMPTY_QUEUE, m[0]));
    RunNext(m, 1, Step(EMPTY_QUEUE, m[0]), Claimed(q));
    FailedOnceSteps(q);
    RunAllFailed(m, 2, Claimed(q), 0, q);
  }

  lemma RetryMiddle(q: Qid, m: seq<Move>)
    requires |m| >= 11 && Run(EMPTY_QUEUE, m[..5]) == FailedOnce(q)
    requires m[5] == Retry({q}) && m[6] == Arrive({q}) && m[7] == Claim({q})
    requires m[8] == Finish(1, [q], {q}) && m[9] == m[10] == Exec(1)
    ensures Run(EMPTY_QUEUE, m[..11]) == RetryAlone(q)
  {
    var s6 := Step(FailedOnce(q), m[5]);
    RetryOutdatedSteps(q);
    RunNext(m, 5, FailedOnce(q), s6);
    RunNext(m, 6, s6, Step(s6, m[6]));
    RunNext(m, 7, Step(s6, m[6]), RetryOutdated(q));
    RetryAloneSteps(q);
    RunAllFailed(m, 8, RetryOutdated(q), 1, q);
  }

  lemma RetryLast(q: Qid, m: seq<Move>)
    requires |m| == 13 && Run(EMPTY_QUEUE, m[..11]) == RetryAlone(q)
    requires m[11] == Finish(0, [q], {}) && m[12] == Exec(0)
    ensures Run(EMPTY_QUEUE, m) == ForgottenOnly(q)
  {
    ForgottenSteps(q);
    RunNext(m, 11, RetryAlone(q), Step(RetryAlone(q), m[11]));
    RunNext(m, 12, Step(RetryAlone(q), m[11]), ForgottenOnly(q));
    assert m[..13] == m;
  }

  /** A retry can lose an event without any crash: from the empty queue, this run leaves an
      unprocessed entity in none of the sets and in no batch. */
  lemma RetryOverlapLoses(q: Qid)
    ensures Run(EMPTY_QUEUE, RetryRun(q)) == ForgottenOnly(q) && !Conserved(ForgottenOnly(q))
  {
    RetryFirst(q, RetryRun(q));
    RetryMiddle(q, RetryRun(q));
    RetryLast(q, RetryRun(q));
    assert q in ForgottenOnly(q).owed;
  }

  // ---------------------------------------------------- a retry to its end

  function Repeat(mv: Move, n: nat): seq<Move> { if n == 0 then [] else Repeat(mv, n - 1) + [mv] }

  /** The failure records after some commands of a retry. */
  function RecordsAfter(failed: set<Qid>, todo: seq<Cmd>): set<Qid> {
    if todo == [] then failed
    else
      match todo[|todo| - 1]
      case Record(q) => RecordsAfter(failed, todo[..|todo| - 1]) + {q}
      case Forget(q) => RecordsAfter(failed, todo[..|todo| - 1]) - {q}
      case _ => RecordsAfter(failed, todo[..|todo| - 1])
  }

  predicate UpdatesOnly(todo: seq<Cmd>) { forall i :: 0 <= i < |todo| ==> todo[i].Record? || todo[i].Forget? }

  /** After k commands of batch `at`. */
  ghost predicate RanTo(s: State, t: State, at: nat, b: Batch, k: nat)
    requires b.Settling? && k <= |b.todo|
  {
    && t.failed == RecordsAfter(s.failed, b.todo[..k])
    && t.pending == s.pending && t.processing == s.processing && t.owed == s.owed && t.loose == s.loose
    && at < |s.held|
    && t.held == if k == |b.todo| then Without(s.held, at) else s.held[at := b.(todo := b.todo[k..])]
  }

  lemma RecordsNext(failed: set<Qid>, todo: seq<Cmd>, k: nat, t: State)
    requires k < |todo| && (todo[k].Record? || todo[k].Forget?) && t.failed == RecordsAfter(failed, todo[..k])
    ensures RecordsAfter(failed, todo[..k + 1]) == ApplyCmd(t, todo[k]).failed
  {
    assert todo[..k + 1][..k] == todo[..k];
  }

  lemma ExecOnce(s: State, t: State, at: nat, b: Batch, k: nat)
    requires b.Settling? && k < |b.todo| && UpdatesOnly(b.todo) && RanTo(s, t, at, b, k)
    ensures RanTo(s, Step(t, Exec(at)), at, b, k + 1)
  {
    assert b.todo[k..][1..] == b.todo[k + 1..] && (b.todo[k].Record? || b.todo[k].Forget?);
    RecordsNext(s.failed, b.todo, k, t);
    hide RecordsAfter;
    assert Without(t.held, at) == Without(s.held, at);
  }

  lemma RunRepeat(s: State, mv: Move, k: nat)
    ensures Run(s, Repeat(mv, k + 1)) == Step(Run(s, Repeat(mv, k)), mv)
  {
    assert (Repeat(mv, k) + [mv])[..|Repeat(mv, k)|] == Repeat(mv, k);
  }

  lemma RanNothing(s: State, at: nat, b: Batch)
    requires at < |s.held| && b == s.held[at] && b.Settling? && b.todo != []
    ensures RanTo(s, Run(s, Repeat(Exec(at), 0)), at, b, 0)
  {
    assert b.todo[..0] == [] && s.held[at := b.(todo := b.todo[0..])] == s.held;
  }

  lemma {:induction false} ExecsRun(s: State, at: nat, b: Batch, k: nat)
    requires at < |s.held| && b == s.held[at] && b.Settling? && UpdatesOnly(b.todo) && b.todo != [] && k <= |b.todo|
    ensures RanTo(s, Run(s, Repeat(Exec(at), k)), at, b, k)
  {
    hide RanTo, Run, Repeat, RecordsAfter, Step;
    if k == 0 {
      RanNothing(s, at, b);
    } else {
      ExecsRun(s, at, b, k - 1);
      RunRepeat(s, Exec(at), k - 1);
      ExecOnce(s, Run(s, Repeat(Exec(at), k - 1)), at, b, k - 1);
    }
  }

  lemma {:induction false} UpdatesRecord(failed: set<Qid>, order: seq<Qid>, errors: set<Qid>, q: Qid)
    ensures q in RecordsAfter(failed, Updates(order, errors)) <==> if q in order then q in errors else q in failed
    ensures UpdatesOnly(Updates(order, errors))
  {
    if order != [] {
      var n := |order| - 1;
      UpdatesRecord(failed, order[..n], errors, q);
      var all := Updates(order, errors);
      assert all[..|all| - 1] == Updates(order[..n], errors);
      assert order == order[..n] + [order[n]];
    }
  }

  /** A retry that nothing interrupts: what it saw and did not fail again is processed and loses its
      failure record, what failed again keeps it, and no other entity and no other batch is touched. */
  lemma RetryCompletes(s: State, at: nat, b: Batch, order: seq<Qid>, errors: set<Qid>, t: State)
    requires at < |s.held| && b == s.held[at] && b.Fetching? && b.retry && b.qids != {} && Lists(order, b.qids)
    requires t == Run(Step(s, Finish(at, order, errors)), Repeat(Exec(at), |order|))
    ensures forall q :: q in t.failed <==> if q in b.qids then q in errors else q in s.failed
    ensures t.owed == s.owed - (b.seen - errors) && t.held == Without(s.held, at)
    ensures t.pending == s.pending && t.processing == s.processing
  {
    hide RecordsAfter, Updates, Run, Repeat, Step, UpdatesOnly;
    var m, done := Step(s, Finish(at, order, errors)), Finished(b, order, errors);
    RetryFinished(s, at, b, order, errors);
    UpdatesHas(order, errors);
    UpdatesRecorded(s.failed, order, errors);
    assert done.todo[..|order|] == done.todo;
    ExecsRun(m, at, done, |order|);
  }

  lemma RetryFinished(s: State, at: nat, b: Batch, order: seq<Qid>, errors: set<Qid>)
    requires at < |s.held| && b == s.held[at] && b.Fetching? && b.retry && b.qids != {} && Lists(order, b.qids)
    ensures var m := Step(s, Finish(at, order, errors));
            && m == s.(owed := s.owed - (b.seen - errors), held := s.held[at := Finished(b, order, errors)])
            && Without(m.held, at) == Without(s.held, at)
    ensures order != [] && forall q :: q in order <==> q in b.qids
  {
    assert forall q :: q in order <==> q in (set p | p in order);
  }

  lemma UpdatesRecorded(failed: set<Qid>, order: seq<Qid>, errors: set<Qid>)
    ensures forall q :: q in RecordsAfter(failed, Updates(order, errors)) <==>
                        if q in order then q in errors else q in failed
    ensures UpdatesOnly(Updates(order, errors))
  {
    UpdatesRecord(failed, order, errors, 0);
    forall q ensures q in RecordsAfter(failed, Updates(order, errors)) <==>
                     if q in order then q in errors else q in failed {
      UpdatesRecord(failed, order, errors, q);
    }
  }

  // ------------------------------------------------------------- drainQueue

  /** The same batches, except that events may have arrived since. */
  predicate Aged(was: Batch, b: Batch) {
    b == was || (was.Fetching? && b.Fetching? && b.qids == was.qids && b.retry == was.retry)
  }

  predicate AllAged(was: seq<Batch>, held: seq<Batch>) {
    |held| == |was| && forall i :: 0 <= i < |was| ==> Aged(was[i], held[i])
  }

  predicate AllRetries(batches: seq<Batch>) { forall i :: 0 <= i < |batches| ==> batches[i].retry }

  predicate NoneRetries(batches: seq<Batch>) { forall i :: 0 <= i < |batches| ==> !batches[i].retry }

  lemma OutdateParts(a: seq<Batch>, b: seq<Batch>, qids: set<Qid>)
    ensures OutdateAll(a + b, qids) == OutdateAll(a, qids) + OutdateAll(b, qids)
    ensures AllAged(a, OutdateAll(a, qids)) && (AllRetries(b) ==> AllRetries(OutdateAll(b, qids)))
    ensures NoneRetries(a) ==> NoneRetries(OutdateAll(a, qids))
  {
  }

  lemma RetryParts(a: seq<Batch>, b: seq<Batch>, i: nat, batch: Batch)
    requires i < |b|
    ensures (a + b)[|a| + i] == b[i] && (a + b)[|a| + i := batch] == a + b[i := batch]
    ensures Without(a + b, |a| + i) == a + Without(b, i)
  {
  }

  lemma DrainParts(a: seq<Batch>, b: seq<Batch>, i: nat, batch: Batch)
    requires i < |a|
    ensures (a + b)[i] == a[i] && (a + b)[i := batch] == a[i := batch] + b
    ensures Without(a + b, i) == Without(a, i) + b
  {
  }

  /** How a call to the outside ends: it works, or it fails after some of its commands. Of a fetch
      that works, the entities it reports as failed. */
  datatype Luck = Luck(works: bool, commands: nat, errors: set<Qid>)

  /** None of these calls fails. */
  predicate AllWork(luck: nat -> Luck, a: nat, b: nat) { forall n :: a <= n < b ==> luck(n).works }

  /** From pending p, with a arrived by n events, to pending q, with b arrived by m events: only
      events were added. */
  predicate Grew(p: set<Qid>, a: set<Qid>, n: nat, q: set<Qid>, b: set<Qid>, m: nat) {
    p <= q <= p + b && a <= b && n <= m && |q| + n <= |p| + m
  }

  lemma GrewOn(p: set<Qid>, a: set<Qid>, n: nat, q: set<Qid>, b: set<Qid>, m: nat, r: set<Qid>, c: set<Qid>, k: nat)
    requires Grew(p, a, n, q, b, m) && Grew(q, b, m, r, c, k)
    ensures Grew(p, a, n, r, c, k)
  {
  }

  lemma GrewNot(p: set<Qid>, a: set<Qid>, n: nat)
    ensures Grew(p, a, n, p, a, n)
  {
  }

  /** What a pipeline takes out of processing. */
  function Acked(todo: seq<Cmd>): set<Qid> {
    if todo == [] then {} else Acked(todo[..|todo| - 1]) + if todo[|todo| - 1].Ack? then todo[|todo| - 1].qids else {}
  }

  /** The batches behind a settling one only age. */
  lemma AgedOn(rest: seq<Batch>, a: seq<Batch>, b: seq<Batch>)
    requires a != [] && AllAged(rest, a[1..]) && AllAged(a, b) && a[0].Settling?
    ensures b != [] && b[0] == a[0] && AllAged(rest, b[1..])
  {
    assert Aged(a[0], b[0]);
    forall i | 0 <= i < |rest| ensures Aged(rest[i], b[1..][i]) {
      assert Aged(rest[i], a[1..][i]) && Aged(a[i + 1], b[i + 1]);
    }
  }

  /** What a pipeline puts back into pending. */
  function Added(todo: seq<Cmd>): set<Qid> {
    if todo == [] then {}
    else Added(todo[..|todo| - 1]) + if todo[|todo| - 1].AddPending? then todo[|todo| - 1].qids else {}
  }

  /** After i commands: from `was` in processing to `now`, with so much in pending. */
  predicate MovedTo(todo: seq<Cmd>, i: nat, was: set<Qid>, now: set<Qid>, pending: set<Qid>)
    requires i <= |todo|
  {
    now == was - Acked(todo[..i]) && Added(todo[..i]) <= pending
  }

  lemma MovedNothing(todo: seq<Cmd>, was: set<Qid>, pending: set<Qid>)
    ensures MovedTo(todo, 0, was, was, pending)
  {
    assert todo[..0] == [];
  }

  lemma MovedMore(todo: seq<Cmd>, i: nat, was: set<Qid>, mid: set<Qid>, p: set<Qid>, now: set<Qid>, q: set<Qid>)
    requires i < |todo| && MovedTo(todo, i, was, mid, p)
    requires now == mid - if todo[i].Ack? then todo[i].qids else {}
    requires p + (if todo[i].AddPending? then todo[i].qids else {}) <= q
    ensures MovedTo(todo, i + 1, was, now, q)
  {
    assert todo[..i + 1][..i] == todo[..i];
  }

  lemma MovedAll(todo: seq<Cmd>, was: set<Qid>, now: set<Qid>, pending: set<Qid>)
    requires MovedTo(todo, |todo|, was, now, pending)
    ensures now == was - Acked(todo) && Added(todo) <= pending
  {
    assert todo[..|todo|] == todo;
  }

  lemma RequeueMoves(qids: set<Qid>)
    ensures Added([AddPending(qids), Ack(qids)]) == qids && Acked([AddPending(qids), Ack(qids)]) == qids
  {
    assert [AddPending(qids), Ack(qids)][..1] == [AddPending(qids)] && [AddPending(qids)][..0] == [];
    assert Added([AddPending(qids)]) == qids && Acked([AddPending(qids)]) == {};
  }

  predicate NoAdds(todo: seq<Cmd>) { forall i :: 0 <= i < |todo| ==> !todo[i].AddPending? }

  lemma {:induction false} RecordsAck(records: seq<Cmd>, qids: set<Qid>)
    requires forall c :: c in records ==> c.Record?
    ensures Acked(records + [Ack(qids)]) == qids && NoAdds(records + [Ack(qids)])
  {
    var todo := records + [Ack(qids)];
    assert todo[..|records|] == records;
    AcksNothing(records);
    forall i | 0 <= i < |todo| ensures !todo[i].AddPending? {
      if i < |records| { assert todo[i] in records; }
    }
  }

  lemma {:induction false} AcksNothing(records: seq<Cmd>)
    requires forall c :: c in records ==> c.Record?
    ensures Acked(records) == {}
  {
    if records != [] {
      assert records[|records| - 1] in records;
      AcksNothing(records[..|records| - 1]);
    }
  }

  /** The watcher's side of the store: the sets, its own batches in flight, and those of the
      goroutine that retries failures. `luck` decides how each call of the drain loop ends, of which
      there were `asked` so far. `arrived` are the entities of the events since the drain began,
      and `came` is how many there were. */
  class Watcher {
    const luck: nat -> Luck
    var asked: nat
    ghost var arrived: set<Qid>
    ghost var came: nat
    var pending: set<Qid>
    var processing: set<Qid>
    var failed: set<Qid>
    var retries: seq<Batch>
    ghost var owed: set<Qid>
    ghost var held: seq<Batch>
    ghost var loose: set<Qid>
    ghost var forgotten: set<Qid>

    constructor (luck: nat -> Luck)
      ensures this.luck == luck && asked == 0 && Valid() && Value() == EMPTY_QUEUE && held == []
    {
      this.luck, asked, arrived, came := luck, 0, {}, 0;
      pending, processing, failed, retries := {}, {}, {}, [];
      owed, held, loose, forgotten := {}, [], {}, {};
    }

    ghost function Value(): State
      reads this
    {
      State(pending, processing, failed, owed, held + retries, loose, forgotten)
    }

    ghost predicate Valid()
      reads this
    {
      TrackOk(Value()) && NoneRetries(held) && AllRetries(retries)
    }

    /** Events arrive. */
    method Arrivals()
      requires Valid()
      modifies this
      ensures Valid() && AllAged(old(held), held) && loose == old(loose)
      ensures Grew(old(pending), old(arrived), old(came), pending, arrived, came)
      ensures processing == old(processing) && asked == old(asked)
      ensures exists qids :: Value() == Step(old(Value()), Arrive(qids))
    {
      ghost var before := Value();
      var qids: set<Qid> := *;
      OutdateParts(held, retries, qids);
      MoreAtMost(pending, qids);
      arrived, came := arrived + qids, came + |qids|;
      pending, retries := pending + qids, OutdateAll(retries, qids);
      owed, held := owed + qids, OutdateAll(held, qids);
      assert Value() == Step(before, Arrive(qids));
      StepTracks(before, Arrive(qids));
    }

    /** The retry goroutine takes failed entities. */
    method StartRetry(qids: set<Qid>)
      requires Valid() && qids <= failed && qids != {}
      modifies this`retries
      ensures Valid() && Value() == Step(old(Value()), Retry(qids))
    {
      ghost var before := Value();
      Regroup(held, retries, [Fetching(qids, true, qids)]);
      retries := retries + [Fetching(qids, true, qids)];
      assert Value() == Step(before, Retry(qids));
      StepTracks(before, Retry(qids));
    }

    /** A retry is fetched and written, or fails. */
    method FinishRetry(i: nat, order: seq<Qid>, errors: set<Qid>, ok: bool)
      requires Valid() && i < |retries| && retries[i].Fetching? && Lists(order, retries[i].qids)
      modifies this`retries, this`owed
      ensures Valid()
      ensures Value() == Step(old(Value()), if ok then Finish(|held| + i, order, errors) else Fail(|held| + i))
    {
      hide TrackOk, Updates, Records;
      ghost var before := Value();
      ghost var mv := if ok then Finish(|held| + i, order, errors) else Fail(|held| + i);
      var b := retries[i];
      RetryParts(held, retries, i, Finished(b, order, errors));
      if ok {
        owed := owed - (b.seen - errors);
        retries := retries[i := Finished(b, order, errors)];
      } else {
        retries := retries[..i] + retries[i + 1..];
      }
      assert Value() == Step(before, mv);
      StepTracks(before, mv);
    }

    /** One command on a failure record. */
    method UpdateRecord(c: Cmd)
      requires c.Record? || c.Forget?
      modifies this`failed, this`forgotten
      ensures Value() == ApplyCmd(old(Value()), c)
    {
      if c.Record? {
        failed := failed + {c.qid};
      } else {
        failed := failed - {c.qid};
        forgotten := forgotten + ({c.qid} * owed);
      }
    }

    /** On to the next record of a retry, or done. */
    method NextRecord(i: nat)
      requires i < |retries| && retries[i].Settling? && retries[i].todo != []
      modifies this`retries
      ensures var b := old(retries)[i];
              held + retries ==
              if b.todo[1..] == [] then Without(held + old(retries), |held| + i)
              else (held + old(retries))[|held| + i := b.(todo := b.todo[1..])]
      ensures AllRetries(old(retries)) ==> AllRetries(retries)
    {
      var b := retries[i];
      RetryParts(held, retries, i, b.(todo := b.todo[1..]));
      retries := if |b.todo| == 1 then retries[..i] + retries[i + 1..] else retries[i := b.(todo := b.todo[1..])];
    }

    /** A retry updates its next failure record. */
    method UpdateRetry(i: nat)
      requires Valid() && i < |retries| && retries[i].Settling? && retries[i].todo != []
      modifies this`retries, this`failed, this`forgotten
      ensures Valid() && Value() == Step(old(Value()), Exec(|held| + i))
    {
      ghost var before, at := Value(), |held| + i;
      var b := retries[i];
      assert before.held[at] == b && Proper(b) && Own(b, b.todo[0]);
      UpdateRecord(b.todo[0]);
      NextRecord(i);
      assert Value() == ExecAt(before, at);
      ExecTracks(before, at);
    }

    /** When that fails it goes on with the next. */
    method SkipRetry(i: nat)
      requires Valid() && i < |retries| && retries[i].Settling? && retries[i].todo != []
      modifies this`retries
      ensures Valid() && Value() == Step(old(Value()), Break(|held| + i))
    {
      ghost var before, at := Value(), |held| + i;
      assert before.held[at] == retries[i];
      NextRecord(i);
      assert Value() == BreakAt(before, at);
      BreakTracks(before, at);
    }

    /** One step of the other goroutines. */
    method OthersStep()
      requires Valid()
      modifies this
      ensures Valid() && AllAged(old(held), held) && loose == old(loose) && processing == old(processing)
      ensures Grew(old(pending), old(arrived), old(came), pending, arrived, came) && asked == old(asked)
    {
      var kind: int, i: nat, qids: set<Qid>, ok: bool := *, *, *, *;
      if kind == 0 {
        Arrivals();
      } else if kind == 1 && qids <= failed && qids != {} {
        StartRetry(qids);
      } else if kind == 2 && i < |retries| && retries[i].Fetching? {
        var errors: set<Qid> := *;
        var order := InOrder(retries[i].qids);
        FinishRetry(i, order, errors, ok);
      } else if kind == 3 && i < |retries| && retries[i].Settling? && retries[i].todo != [] {
        if ok { UpdateRetry(i); } else { SkipRetry(i); }
      }
    }

    /** Anything the other goroutines do meanwhile. */
    method Others()
      requires Valid()
      modifies this
      ensures Valid() && AllAged(old(held), held) && loose == old(loose) && processing == old(processing)
      ensures Grew(old(pending), old(arrived), old(came), pending, arrived, came) && asked == old(asked)
      ensures came >= old(came)
    {
      var steps: int := *;
      GrewNot(pending, arrived, came);
      for i := 0 to if steps > 0 then steps else 0
        invariant Valid() && AllAged(old(held), held) && loose == old(loose) && processing == old(processing)
        invariant Grew(old(pending), old(arrived), old(came), pending, arrived, came) && asked == old(asked)
      {
        ghost var p, a, n := pending, arrived, came;
        OthersStep();
        GrewOn(old(pending), old(arrived), old(came), p, a, n, pending, arrived, came);
      }
    }

    /** SPOP: any members, as many as the limit allows. */
    method Pop(limit: nat) returns (qids: set<Qid>)
      modifies this`pending
      ensures qids <= old(pending) && pending == old(pending) - qids
      ensures |qids| <= limit && (|qids| < limit ==> pending == {})
    {
      qids := {};
      while |qids| < limit && pending != {}
        invariant qids <= old(pending) && pending == old(pending) - qids && |qids| <= limit
        decreases limit - |qids|
      {
        var q :| q in pending;
        pending, qids := pending - {q}, qids + {q};
      }
    }

    /** The claim script. Where a batch stands among the others makes no difference. */
    method ClaimScript(limit: nat) returns (qids: set<Qid>)
      requires Valid()
      modifies this
      ensures Valid() && |qids| <= limit && (|qids| < limit ==> pending == {})
      ensures held == old(held) + if qids != {} then [Fetching(qids, false, qids)] else []
      ensures loose == old(loose)
      ensures qids <= old(pending) && pending == old(pending) - qids && processing == old(processing) + qids
      ensures asked == old(asked) && arrived == old(arrived) && came == old(came)
    {
      ghost var before := Value();
      qids := Pop(limit);
      processing := processing + qids;
      if qids != {} {
        held := held + [Fetching(qids, false, qids)];
        ClaimTracks(before, old(held), retries, qids, Value());
      }
    }

    /** The caller forgets its last batch. */
    ghost method LetGo()
      requires Valid() && held != []
      modifies this`held, this`loose
      ensures Valid() && held == old(held)[..|old(held)| - 1]
    {
      ghost var before, n := Value(), |held| - 1;
      DrainParts(held, retries, n, held[n]);
      assert Without(held, n) == held[..n];
      held, loose := held[..n], loose + held[n].qids;
      assert Value() == Step(before, Break(n));
      StepTracks(before, Break(n));
    }

    /** ClaimPendingBatch. When the reply is lost, the claim may have happened all the same. When it
        comes, the claimed entities have moved from pending to processing. */
    method ClaimPendingBatch(limit: nat) returns (ok: bool, qids: set<Qid>)
      requires Valid()
      modifies this
      ensures Valid() && |qids| <= limit && (ok && |qids| < limit ==> pending == {})
      ensures held == old(held) + if ok && qids != {} then [Fetching(qids, false, qids)] else []
      ensures ok ==> loose == old(loose)
      ensures asked == old(asked) + 1 && ok == luck(old(asked)).works
      ensures arrived == old(arrived) && came == old(came)
      ensures ok ==> qids <= old(pending) && pending == old(pending) - qids && processing == old(processing) + qids
    {
      var call := luck(asked);
      ok, asked := call.works, asked + 1;
      if !ok && call.commands == 0 { return false, {}; }
      qids := ClaimScript(limit);
      if !ok && qids != {} {
        LetGo();
        qids := {};
      }
    }

    /** One command of the oldest batch. */
    method ExecFirst(c: Cmd)
      requires Valid() && held != [] && held[0].Settling? && held[0].todo != [] && held[0].todo[0] == c
      modifies this`pending, this`processing, this`failed, this`held
      ensures Valid()
      ensures pending == old(pending) + if c.AddPending? then c.qids else {}
      ensures processing == old(processing) - if c.Ack? then c.qids else {}
      ensures held == if |old(held)[0].todo| == 1 then old(held)[1..]
                      else old(held)[0 := old(held)[0].(todo := old(held)[0].todo[1..])]
    {
      ghost var before := Value();
      ghost var b := held[0];
      assert before.held[0] == b && Proper(b) && Own(b, c);
      DrainParts(held, retries, 0, b.(todo := b.todo[1..]));
      assert Without(held, 0) == held[1..] && (b.todo[1..] == [] <==> |b.todo| == 1);
      if c.AddPending? {
        pending := pending + c.qids;
      } else if c.Ack? {
        processing := processing - c.qids;
      } else {
        assert c.Record?;
        failed := failed + {c.qid};
      }
      held := if |b.todo| == 1 then held[1..] else held[0 := b.(todo := b.todo[1..])];
      assert Value() == Step(before, Exec(0));
      StepTracks(before, Exec(0));
    }

    /** The pipeline breaks: the oldest batch is let go. */
    ghost method Broken()
      requires Valid() && held != []
      modifies this`held, this`loose
      ensures Valid() && held == old(held)[1..] && loose == old(loose) + old(held)[0].qids
    {
      ghost var before := Value();
      DrainParts(held, retries, 0, held[0]);
      assert Without(held, 0) == held[1..];
      held, loose := held[1..], loose + held[0].qids;
      assert Value() == Step(before, Break(0));
      StepTracks(before, Break(0));
    }

    /** The pipeline of the oldest batch has run up to its i-th command; behind it are these batches. */
    ghost predicate Reached(first: Batch, rest: seq<Batch>, todo: seq<Cmd>, i: nat)
      requires first.Settling? && i <= |todo|
      reads this
    {
      if i < |todo| then held != [] && held[0] == first.(todo := todo[i..]) && AllAged(rest, held[1..])
      else AllAged(rest, held)
    }

    /** The next command of the pipeline that settles the oldest batch, unless it breaks there. */
    method SettleNext(todo: seq<Cmd>, i: nat, broken: bool, ghost first: Batch, ghost rest: seq<Batch>)
      returns (ok: bool)
      requires Valid() && i < |todo| && first.Settling? && Reached(first, rest, todo, i)
      modifies this
      ensures Valid() && ok == !broken && asked == old(asked) && came >= old(came)
      ensures loose == if ok then old(loose) else old(loose) + first.qids
      ensures if ok then Reached(first, rest, todo, i + 1) else AllAged(rest, held)
      ensures ok ==> processing == old(processing) - if todo[i].Ack? then todo[i].qids else {}
      ensures ok ==> old(pending) + (if todo[i].AddPending? then todo[i].qids else {}) <= pending
      ensures ok && !todo[i].AddPending? ==> Grew(old(pending), old(arrived), old(came), pending, arrived, came)
    {
      hide Valid, AllAged;
      Others();
      AgedOn(rest, old(held), held);
      if broken {
        Broken();
        return false;
      }
      assert todo[i..][1..] == todo[i + 1..];
      ghost var tail := held[1..];
      ExecFirst(todo[i]);
      assert i + 1 < |todo| ==> held[1..] == tail;
      ok := true;
    }

    /** The commands of the pipeline, up to where it breaks. */
    method SettleAll(todo: seq<Cmd>, call: Luck, ghost first: Batch, ghost rest: seq<Batch>) returns (ok: bool)
      requires Valid() && first.Settling? && Reached(first, rest, todo, 0)
      modifies this
      ensures Valid() && AllAged(rest, held) && asked == old(asked) && came >= old(came)
      ensures loose == if ok then old(loose) else old(loose) + first.qids
      ensures call.works ==> ok
      ensures ok ==> MovedTo(todo, |todo|, old(processing), processing, pending)
      ensures ok && NoAdds(todo) ==> Grew(old(pending), old(arrived), old(came), pending, arrived, came)
    {
      hide Valid, Grew, MovedTo, AllAged, Reached;
      GrewNot(pending, arrived, came);
      MovedNothing(todo, processing, pending);
      var i := 0;
      while i < |todo|
        invariant i <= |todo| && Valid() && loose == old(loose) && asked == old(asked) && came >= old(came)
        invariant MovedTo(todo, i, old(processing), processing, pending)
        invariant NoAdds(todo) ==> Grew(old(pending), old(arrived), old(came), pending, arrived, came)
        invariant Reached(first, rest, todo, i)
      {
        ghost var p, a, n, m := pending, arrived, came, processing;
        ok := SettleNext(todo, i, !call.works && i >= call.commands, first, rest);
        if !ok { return; }
        if NoAdds(todo) { GrewOn(old(pending), old(arrived), old(came), p, a, n, pending, arrived, came); }
        MovedMore(todo, i, old(processing), m, p, processing, pending);
        i := i + 1;
      }
      ReachedEnd(first, rest, todo);
      ok := true;
    }

    /** The pipeline that settles the oldest batch; it may break after any command, and others
        go on between any two. When it runs whole, what it acks is out of processing. */
    method Settle(todo: seq<Cmd>) returns (ok: bool)
      requires Valid() && held != [] && held[0].Settling? && held[0].todo == todo
      modifies this
      ensures Valid() && AllAged(old(held)[1..], held)
      ensures loose == if ok then old(loose) else old(loose) + old(held)[0].qids
      ensures asked == old(asked) + 1 && came >= old(came) && (luck(old(asked)).works ==> ok)
      ensures ok ==> processing == old(processing) - Acked(todo) && Added(todo) <= pending
      ensures ok && NoAdds(todo) ==> Grew(old(pending), old(arrived), old(came), pending, arrived, came)
    {
      hide Grew, MovedTo;
      ghost var first, rest := held[0], held[1..];
      assert Value().held[0] == first && Proper(first);
      assert todo[0..] == todo && AllAged(rest, rest);
      var call := luck(asked);
      asked := asked + 1;
      ok := SettleAll(todo, call, first, rest);
      if ok { MovedAll(todo, old(processing), processing, pending); }
    }

    lemma ReachedEnd(first: Batch, rest: seq<Batch>, todo: seq<Cmd>)
      requires first.Settling? && Reached(first, rest, todo, |todo|)
      ensures AllAged(rest, held)
    {
    }

    /** requeueOnFailure: the oldest batch goes back to pending, and out of processing. */
    method RequeueOnFailure(qids: set<Qid>) returns (ok: bool)
      requires Valid() && held != [] && held[0].Fetching? && held[0].qids == qids
      modifies this
      ensures Valid() && AllAged(old(held)[1..], held)
      ensures loose == if ok then old(loose) else old(loose) + qids
      ensures asked == old(asked) + 1 && came >= old(came)
      ensures luck(old(asked)).works ==> ok && qids <= pending && processing == old(processing) - qids
    {
      ghost var before := Value();
      RequeueMoves(qids);
      DrainParts(held, retries, 0, Requeued(held[0]));
      held := held[0 := Requeued(held[0])];
      assert Value() == Step(before, Fail(0));
      StepTracks(before, Fail(0));
      ok := Settle([AddPending(qids), Ack(qids)]);
    }

    /** ProcessEntities is done with the oldest batch. */
    ghost method Processed(order: seq<Qid>, errors: set<Qid>)
      requires Valid() && held != [] && held[0].Fetching? && Lists(order, held[0].qids)
      modifies this`held, this`owed
      ensures Valid() && held == old(held)[0 := Finished(old(held)[0], order, errors)]
      ensures Value() == Step(old(Value()), Finish(0, order, errors))
    {
      ghost var before := Value();
      DrainParts(held, retries, 0, Finished(held[0], order, errors));
      owed := owed - (held[0].seen - errors);
      held := held[0 := Finished(held[0], order, errors)];
      assert Value() == Step(before, Finish(0, order, errors));
      StepTracks(before, Finish(0, order, errors));
    }

    /** handleBatchResult for the oldest batch: `go` is its result, `ok` that its pipeline
        went through. When both work, the batch is out of processing. */
    method HandleBatchResult(qids: set<Qid>) returns (go: bool, ok: bool)
      requires Valid() && held != [] && held[0].Fetching? && held[0].qids == qids
      modifies this
      ensures Valid() && AllAged(old(held)[1..], held)
      ensures loose == if ok then old(loose) else old(loose) + qids
      ensures asked == old(asked) + 2 && came >= old(came) && go == luck(old(asked)).works
      ensures AllWork(luck, old(asked), asked) ==>
                ok && processing == old(processing) - qids &&
                Grew(old(pending), old(arrived), old(came), pending, arrived, came)
    {
      var call := luck(asked);
      go, asked := call.works, asked + 1;
      if !go {
        ok := RequeueOnFailure(qids);
      } else {
        var order := InOrder(qids);
        var records := RecordErrors(order, call.errors);
        Processed(order, call.errors);
        RecordsHas(order, call.errors);
        RecordsAck(records, qids);
        ok := Settle(records + [Ack(qids)]);
      }
    }

    /** The ids of a batch as a list. */
    method InOrder(qids: set<Qid>) returns (order: seq<Qid>)
      ensures Lists(order, qids)
    {
      order := [];
      var left := qids;
      while left != {}
        invariant (set q | q in order) + left == qids
        decreases |left|
      {
        var q :| q in left;
        ghost var had := order;
        left, order := left - {q}, order + [q];
        assert forall p :: p in order <==> p in had || p == q;
      }
    }

    method RecordErrors(order: seq<Qid>, errors: set<Qid>) returns (records: seq<Cmd>)
      ensures records == Records(order, errors)
    {
      records := [];
      for i := 0 to |order|
        invariant records == Records(order[..i], errors)
      {
        assert order[..i + 1][..i] == order[..i];
        if order[i] in errors { records := records + [Record(order[i])]; }
      }
      assert order[..|order|] == order;
    }

    /** drainQueue: the next batch is claimed and fetched while the previous one is settled.
        `turns` is the number of turns after which the context is cancelled. Events arrive and
        failures are retried all the time. When nothing was let go, every unprocessed entity is
        in one of the sets again, unless a retry forgot it. If no call fails and there are turns
        enough, the queue is drained: what is in pending arrived during the drain, and everything
        that was in pending at its start is out of processing. */
    method DrainQueue(limit: nat, turns: nat) returns (clean: bool)
      requires Valid() && held == [] && limit > 0
      modifies this
      ensures Valid() && held == [] && asked >= old(asked)
      ensures clean ==> loose == old(loose)
      ensures owed <= pending + processing + failed + loose + forgotten
      ensures AllWork(luck, old(asked), asked) && turns > |old(pending)| + came ==>
                clean && pending <= arrived && processing <= old(processing) - old(pending)
    {
      StartsWorking(luck, asked);
      arrived, came := {}, 0;
      var previous: Option<set<Qid>> := None;
      assert Valid() && Holding(held, previous);
      hide AllWork;
      var left: nat, running := turns, true;
      ghost var done: set<Qid> := {};
      clean := true;
      while running
        invariant Valid() && Holding(held, previous) && (clean ==> loose == old(loose))
        invariant !running ==> previous.None?
        invariant asked >= old(asked) && left <= turns
        invariant AllWork(luck, old(asked), asked) && turns > |old(pending)| + came ==>
                    && clean && (running ==> |pending| + (turns - left) <= |old(pending)| + came)
                    && old(pending) <= pending + done + InHand(previous) && pending <= old(pending) + arrived
                    && processing <= (old(processing) - done) + InHand(previous)
                    && (!running ==> pending <= arrived && old(pending) <= done)
        decreases running, left
      {
        if left == 0 {
          if previous.Some? { LetGo(); clean := false; }
          previous, running := None, false;
        } else {
          left := left - 1;
          ghost var at := asked;
          ghost var had := InHand(previous);
          var ok;
          ghost var claimed;
          running, ok, previous, claimed := Turn(limit, previous);
          WorkParts(luck, old(asked), at, asked);
          clean := clean && ok;
          done := done + had + if running then {} else claimed;
        }
      }
      TrackedAll(Value());
    }

    /** One turn of the drain loop. If no call fails, the previous batch is out of processing, the
        claimed one has left pending; and the loop ends only when pending was empty, with the claimed
        batch out of processing as well. */
    method Turn(limit: nat, previous: Option<set<Qid>>)
      returns (go: bool, ok: bool, next: Option<set<Qid>>, ghost claimed: set<Qid>)
      requires Valid() && Holding(held, previous) && limit > 0
      modifies this
      ensures Valid() && Holding(held, next) && (!go ==> next.None?)
      ensures ok ==> loose == old(loose)
      ensures asked >= old(asked) && came >= old(came)
      ensures AllWork(luck, old(asked), asked) ==>
                && ok && old(arrived) <= arrived
                && old(pending) <= pending + claimed && pending <= old(pending) + arrived
                && |pending| + |claimed| + old(came) <= |old(pending)| + came
                && processing <= (old(processing) - InHand(previous)) + InHand(next)
                && (if go then |claimed| == limit && next == Some(claimed)
                    else pending <= arrived && old(pending) <= claimed && processing !! claimed)
    {
      Others();
      var qids;
      ok, qids := ClaimPendingBatch(limit);
      claimed := qids;
      if !ok {
        if previous.Some? { LetGo(); }
        return false, false, None, claimed;
      }
      next := if qids == {} then None else Some(qids);
      Others();
      go := true;
      if previous.Some? {
        go, ok := HandleBatchResult(previous.value);
        if !go {
          if next.Some? {
            var requeued := RequeueOnFailure(qids);
            ok := ok && requeued;
          }
          return false, ok, None, claimed;
        }
      }
      if |qids| < limit {
        if next.Some? {
          var settled;
          go, settled := HandleBatchResult(qids);
          ok := ok && settled;
        }
        return false, ok, None, claimed;
      }
    }
  }

  /** The batch the drain loop holds. */
  function InHand(previous: Option<set<Qid>>): set<Qid> { if previous.Some? then previous.value else {} }

  lemma StartsWorking(luck: nat -> Luck, a: nat)
    ensures AllWork(luck, a, a)
  {
  }

  lemma WorkParts(luck: nat -> Luck, a: nat, b: nat, c: nat)
    requires a <= b <= c
    ensures AllWork(luck, a, c) <==> AllWork(luck, a, b) && AllWork(luck, b, c)
  {
  }

  lemma MoreAtMost(a: set<Qid>, b: set<Qid>)
    ensures |a + b| <= |a| + |b|
  {
    assert |a + b| == |a| + |b| - |a * b|;
  }

  lemma Reordered(a: seq<Batch>, b: seq<Batch>, x: Batch)
    ensures forall c :: c in (a + b) + [x] <==> c in (a + [x]) + b
  {
  }

  /** Tracking looks at the batches one by one, in whatever order. */
  lemma SameBatchesTrack(s: State, t: State)
    requires TrackOk(s) && t == s.(held := t.held) && forall b :: b in s.held <==> b in t.held
    ensures TrackOk(t)
  {
    forall q | q in t.owed ensures Tracked(t, q) {
      assert Tracked(s, q);
      if KeptBySomeone(s.held, q) {
        var i :| 0 <= i < |s.held| && Keeps(s.held[i], q);
        assert s.held[i] in t.held;
        var j :| 0 <= j < |t.held| && t.held[j] == s.held[i];
        KeptAt(t.held, j, q);
      } else if Unclaimed(s.held, q) {
        forall j | 0 <= j < |t.held| && !t.held[j].retry ensures q !in t.held[j].qids {
          assert t.held[j] in s.held;
        }
      }
    }
    forall j | 0 <= j < |t.held| ensures Proper(t.held[j]) { assert t.held[j] in s.held; }
  }

  lemma ClaimTracks(s: State, held: seq<Batch>, retries: seq<Batch>, qids: set<Qid>, t: State)
    requires TrackOk(s) && s.held == held + retries && qids <= s.pending && qids != {}
    requires t == s.(pending := s.pending - qids, processing := s.processing + qids,
                     held := held + [Fetching(qids, false, qids)] + retries)
    ensures TrackOk(t)
  {
    var b := Fetching(qids, false, qids);
    var claimed := Step(s, Claim(qids));
    StepTracks(s, Claim(qids));
    Reordered(held, retries, b);
    assert claimed.held == (held + retries) + [b];
    SameBatchesTrack(claimed, t);
  }

  /** The batch of the previous turn, fetched or being fetched. */
  ghost predicate Holding(held: seq<Batch>, previous: Option<set<Qid>>) {
    match previous
    case None => held == []
    case Some(qids) => |held| == 1 && held[0].Fetching? && held[0].qids == qids
  }

  /** Without drain batches in flight, what is tracked is in one of the sets. */
  lemma TrackedAll(s: State)
    requires TrackOk(s) && AllRetries(s.held)
    ensures s.owed <= s.pending + s.processing + s.failed + s.loose + s.forgotten
  {
    forall q | q in s.owed ensures q in s.pending + s.processing + s.failed + s.loose + s.forgotten {
      assert Tracked(s, q);
    }
  }
}
