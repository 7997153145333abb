/** Ingestion as a whole: the writer that adds entities to pending and stores the cursor, and
    the queue that processes them, as one machine over the positions of the event stream. */
module Ingest {
  import opened Text
  import opened EntityMaps
  import Enqueue
  import Queue

  /** The events, by position in the stream: `enqueued` are those added to pending since they
      were taken, `handled` those whose entity was fetched and written without an error by a
      batch taken after that. */
  datatype State = State(e: Enqueue.State, q: Queue.State, enqueued: set<nat>, handled: set<nat>)

  const START := State(Enqueue.AT_DUMP, Queue.EMPTY_QUEUE, {}, {})

  /** A step of the writer, or of the queue. Entities arrive in the queue only through the writer. */
  datatype Move = Takes(signal: Enqueue.Signal) | Works(move: Queue.Move)

  predicate Names(stream: seq<Enqueue.Item>, i: nat, q: Qid) {
    i < |stream| && stream[i].name.qid == Some(q)
  }

  predicate Concerns(stream: seq<Enqueue.Item>, i: nat, qids: set<Qid>) {
    i < |stream| && stream[i].name.qid.Some? && stream[i].name.qid.value in qids
  }

  /** The buffer that a signal flushes, and how its pipeline ends. */
  function Flushed(stream: seq<Enqueue.Item>, e: Enqueue.State, signal: Enqueue.Signal)
    : Option<(Enqueue.State, Enqueue.Fate)>
  {
    match signal
    case Arrival(fate) =>
      if e.live && e.from + e.taken < |stream| then
        var t := Enqueue.Took(e, stream[e.from + e.taken]);
        if |t.batch| >= Enqueue.ENQUEUE_BATCH_SIZE then Some((t, fate)) else None
      else None
    case Tick(fate) => if e.live then Some((e, fate)) else None
    case Close(fate) => if e.live then Some((e, fate)) else None
    case Connect(_) => None
    case Crash => None
  }

  /** Its SADD is executed. */
  predicate Adds(e: Enqueue.State, fate: Enqueue.Fate) {
    e.batch != {} && Enqueue.AllValid(e.batch) && (fate.ok || fate.commands > 0)
  }

  /** The events taken on this connection that are in the buffer. */
  function Positions(stream: seq<Enqueue.Item>, e: Enqueue.State): set<nat> {
    set i: nat | e.from <= i < e.from + e.taken && i < |stream| && stream[i].name in e.batch
  }

  function Add(stream: seq<Enqueue.Item>, s: State, e: Enqueue.State): State {
    s.(q := Queue.Step(s.q, Queue.Arrive(Enqueue.QidsOf(e.batch))), enqueued := s.enqueued + Positions(stream, e))
  }

  function Take(stream: seq<Enqueue.Item>, s: State, signal: Enqueue.Signal): State {
    var next := s.(e := Enqueue.Step(stream, s.e, signal));
    match Flushed(stream, s.e, signal)
    case None => next
    case Some((e, fate)) => if Adds(e, fate) then Add(stream, next, e) else next
  }

  /** The entities a step of the queue finishes: fetched after their last event, and written. */
  function Done(q: Queue.State, mv: Queue.Move): set<Qid> {
    if mv.Finish? && Queue.Step(q, mv) != q && mv.at < |q.held| && q.held[mv.at].Fetching?
    then q.held[mv.at].seen - mv.errors else {}
  }

  function Work(stream: seq<Enqueue.Item>, s: State, mv: Queue.Move): State {
    if mv.Arrive? then s
    else
      var done := Done(s.q, mv);
      s.(q := Queue.Step(s.q, mv),
         handled := s.handled + set i | i in s.enqueued && Concerns(stream, i, done))
  }

  function Step(stream: seq<Enqueue.Item>, s: State, mv: Move): State {
    match mv
    case Takes(signal) => Take(stream, s, signal)
    case Works(move) => Work(stream, s, move)
  }

  function Run(stream: seq<Enqueue.Item>, moves: seq<Move>): State {
    if moves == [] then START
    else
      var n := |moves| - 1;
      Step(stream, Run(stream, moves[..n]), moves[n])
  }

  /** The signals the writer gets in a run. */
  function Signals(moves: seq<Move>): seq<Enqueue.Signal> {
    if moves == [] then []
    else
      var n := |moves| - 1;
      Signals(moves[..n]) + if moves[n].Takes? then [moves[n].signal] else []
  }

  /** Nothing the queue does touches the writer: in every run of the two composed it is where its
      own signals bring it, so that it moves on as Enqueue.CursorAdvances says. */
  lemma {:induction false} WriterRuns(stream: seq<Enqueue.Item>, moves: seq<Move>)
    ensures Run(stream, moves).e == Enqueue.Run(stream, Signals(moves))
  {
    if moves != [] {
      var n := |moves| - 1;
      WriterRuns(stream, moves[..n]);
      var before := Signals(moves[..n]);
      if moves[n].Takes? {
        assert (before + [moves[n].signal])[..|before|] == before;
      } else {
        assert before + [] == before;
      }
    }
  }

  // --------------------------------------------------------------- invariant

  predicate AllEnqueued(enqueued: set<nat>, n: nat) { forall i: nat :: i < n ==> i in enqueued }

  /** Every event taken on this connection is enqueued or in the buffer. */
  predicate InBuffer(stream: seq<Enqueue.Item>, e: Enqueue.State, enqueued: set<nat>) {
    e.from + e.taken <= |stream| &&
    forall i: nat :: e.from <= i < e.from + e.taken ==> i in enqueued || stream[i].name in e.batch
  }

  /** An enqueued event is handled, or its entity has an unprocessed event. */
  predicate Accounted(stream: seq<Enqueue.Item>, s: State) {
    forall i :: i in s.enqueued ==>
      i < |stream| && stream[i].name.qid.Some? && (i in s.handled || stream[i].name.qid.value in s.q.owed)
  }

  predicate Ok(stream: seq<Enqueue.Item>, s: State) {
    && Enqueue.Ok(stream, s.e) && Queue.TrackOk(s.q)
    && AllEnqueued(s.enqueued, s.e.at)
    && (s.e.live ==> InBuffer(stream, s.e, s.enqueued))
    && Accounted(stream, s)
  }

  lemma AddAccounts(stream: seq<Enqueue.Item>, s: State, e: Enqueue.State)
    requires Accounted(stream, s) && Enqueue.AllValid(e.batch)
    ensures Accounted(stream, Add(stream, s, e))
  {
    forall i | i in Positions(stream, e) ensures stream[i].name.qid.Some? &&
        stream[i].name.qid.value in Enqueue.QidsOf(e.batch) {
      assert stream[i].name in e.batch;
    }
  }

  lemma FlushBuffers(stream: seq<Enqueue.Item>, s: State, e: Enqueue.State, fate: Enqueue.Fate)
    requires e.live && InBuffer(stream, e, s.enqueued) && AllEnqueued(s.enqueued, e.at) && e.from <= e.at
    ensures var f := Enqueue.Flush(e, fate);
            var enqueued := s.enqueued + if Adds(e, fate) then Positions(stream, e) else {};
            AllEnqueued(enqueued, f.at) && (f.live ==> InBuffer(stream, f, enqueued))
  {
    if Adds(e, fate) {
      forall i: nat | i < e.from + e.taken ensures i in s.enqueued + Positions(stream, e) {
        if i >= e.from && i !in s.enqueued { assert i in Positions(stream, e); }
      }
    }
  }

  lemma TookBuffers(stream: seq<Enqueue.Item>, s: State)
    requires s.e.live && InBuffer(stream, s.e, s.enqueued) && s.e.from + s.e.taken < |stream|
    ensures InBuffer(stream, Enqueue.Took(s.e, stream[s.e.from + s.e.taken]), s.enqueued)
  {
  }

  /** A flush, wherever it breaks. */
  lemma FlushStepOk(stream: seq<Enqueue.Item>, s: State, e: Enqueue.State, fate: Enqueue.Fate, t: State)
    requires e.live && Accounted(stream, s) && Queue.TrackOk(s.q) && Enqueue.Ok(stream, t.e)
    requires InBuffer(stream, e, s.enqueued) && AllEnqueued(s.enqueued, e.at) && e.from <= e.at
    requires t.e.at == Enqueue.Flush(e, fate).at && (t.e.live ==> t.e == Enqueue.Flush(e, fate))
    requires t == if Adds(e, fate) then Add(stream, s.(e := t.e), e) else s.(e := t.e)
    ensures Ok(stream, t)
  {
    FlushBuffers(stream, s, e, fate);
    if Adds(e, fate) {
      AddAccounts(stream, s.(e := t.e), e);
      Queue.StepTracks(s.q, Queue.Arrive(Enqueue.QidsOf(e.batch)));
    } else {
      assert s.enqueued + {} == s.enqueued;
    }
  }

  lemma FlushedTakeOk(stream: seq<Enqueue.Item>, s: State, signal: Enqueue.Signal)
    requires Ok(stream, s) && s.e.live && (signal.Tick? || signal.Close?)
    ensures Ok(stream, Take(stream, s, signal))
  {
    Enqueue.StepOk(stream, s.e, signal);
    FlushStepOk(stream, s, s.e, signal.fate, Take(stream, s, signal));
  }

  lemma ArrivalTakeOk(stream: seq<Enqueue.Item>, s: State, fate: Enqueue.Fate)
    requires Ok(stream, s) && s.e.live && s.e.from + s.e.taken < |stream|
    ensures Ok(stream, Take(stream, s, Enqueue.Arrival(fate)))
  {
    Enqueue.StepOk(stream, s.e, Enqueue.Arrival(fate));
    TookBuffers(stream, s);
    var took := Enqueue.Took(s.e, stream[s.e.from + s.e.taken]);
    if |took.batch| >= Enqueue.ENQUEUE_BATCH_SIZE {
      FlushStepOk(stream, s, took, fate, Take(stream, s, Enqueue.Arrival(fate)));
    }
  }

  lemma TakeOk(stream: seq<Enqueue.Item>, s: State, signal: Enqueue.Signal)
    requires Ok(stream, s)
    ensures Ok(stream, Take(stream, s, signal))
  {
    if s.e.live && (signal.Tick? || signal.Close?) {
      FlushedTakeOk(stream, s, signal);
    } else if signal.Arrival? && s.e.live && s.e.from + s.e.taken < |stream| {
      ArrivalTakeOk(stream, s, signal.fate);
    } else {
      Enqueue.StepOk(stream, s.e, signal);
    }
  }

  lemma WorkOk(stream: seq<Enqueue.Item>, s: State, mv: Queue.Move)
    requires Ok(stream, s)
    ensures Ok(stream, Work(stream, s, mv))
  {
    if !mv.Arrive? {
      Queue.StepTracks(s.q, mv);
      OwedStays(s.q, mv);
    }
  }

  /** Only a finished batch settles what is owed. */
  lemma OwedStays(q: Queue.State, mv: Queue.Move)
    requires !mv.Arrive?
    ensures Queue.Step(q, mv).owed == q.owed - Done(q, mv)
  {
  }

  lemma {:induction false} RunOk(stream: seq<Enqueue.Item>, moves: seq<Move>)
    ensures Ok(stream, Run(stream, moves))
  {
    if moves != [] {
      var n := |moves| - 1;
      var s := Run(stream, moves[..n]);
      RunOk(stream, moves[..n]);
      if moves[n].Takes? { TakeOk(stream, s, moves[n].signal); } else { WorkOk(stream, s, moves[n].move); }
    }
  }

  // ------------------------------------------------------------- the theorem

  /** The hypothesis of Queue: nobody takes an entity that is in somebody's batch. */
  predicate NeverOverlaps(stream: seq<Enqueue.Item>, moves: seq<Move>) {
    moves == [] ||
    (var n := |moves| - 1;
     NeverOverlaps(stream, moves[..n]) &&
     (moves[n].Works? ==> Queue.TakesFree(Run(stream, moves[..n]).q, moves[n].move)))
  }

  lemma {:induction false} RunConserves(stream: seq<Enqueue.Item>, moves: seq<Move>)
    requires NeverOverlaps(stream, moves)
    ensures Queue.DisjointOk(Run(stream, moves).q)
  {
    if moves != [] {
      var n := |moves| - 1;
      var s := Run(stream, moves[..n]);
      RunConserves(stream, moves[..n]);
      match moves[n]
      case Takes(signal) =>
        match Flushed(stream, s.e, signal) {
          case None =>
          case Some((e, fate)) => Queue.StepConserves(s.q, Queue.Arrive(Enqueue.QidsOf(e.batch)));
        }
      case Works(move) => Queue.StepConserves(s.q, move);
    }
  }

  /** An event is done with, or its entity is in one of the sets. */
  predicate Safe(stream: seq<Enqueue.Item>, s: State, i: nat, elsewhere: set<Qid>) {
    i in s.handled ||
    exists q :: Names(stream, i, q) && q in s.q.pending + s.q.processing + s.q.failed + elsewhere
  }

  lemma OwedIsSafe(stream: seq<Enqueue.Item>, s: State, i: nat, elsewhere: set<Qid>)
    requires Accounted(stream, s) && i in s.enqueued
    requires s.q.owed <= s.q.pending + s.q.processing + s.q.failed + elsewhere
    ensures Safe(stream, s, i, elsewhere)
  {
    if i !in s.handled { assert Names(stream, i, stream[i].name.qid.value); }
  }

  /** No event is lost: after every run of arrivals, flushes, claims, retries, broken pipelines,
      crashes and reconnects in any order, the stored last_event_id is the id of an event, and
      that event and each one before it is processed since it was added, or its entity is in
      pending, processing or failed. Where batches overlap it may also be in a batch in flight,
      in one that was let go, or forgotten by a retry. */
  lemma IngestSafe(stream: seq<Enqueue.Item>, moves: seq<Move>, s: State)
    requires s == Run(stream, moves)
    ensures s.e.at <= |stream|
    ensures s.e.stored != "" ==> s.e.at > 0 && stream[s.e.at - 1].id == s.e.stored
    ensures NeverOverlaps(stream, moves) ==> forall i: nat :: i < s.e.at ==> Safe(stream, s, i, {})
    ensures forall i: nat :: i < s.e.at ==>
              Safe(stream, s, i, Queue.HeldQids(s.q.held) + s.q.loose + s.q.forgotten)
  {
    RunOk(stream, moves);
    if NeverOverlaps(stream, moves) {
      RunConserves(stream, moves);
      forall i: nat | i < s.e.at ensures Safe(stream, s, i, {}) { OwedIsSafe(stream, s, i, {}); }
    }
    var elsewhere := Queue.HeldQids(s.q.held) + s.q.loose + s.q.forgotten;
    forall q | q in s.q.owed ensures q in s.q.pending + s.q.processing + s.q.failed + elsewhere {
      Queue.ClaimedIsHeld(s.q.held, q);
    }
    forall i: nat | i < s.e.at ensures Safe(stream, s, i, elsewhere) { OwedIsSafe(stream, s, i, elsewhere); }
  }
}
