/** The seed's background writer: one batch is written through a pipeline and retried
    from its start when the pipeline breaks. Retries are absorbed. */
module SeedWriter {
  import opened Text
  import opened Mappings
  import opened EntityMaps
  import opened ReverseIndex
  import opened Store
  import opened Kvrocks

  const WRITE_MAX_RETRIES: nat := 5

  predicate Distinct(batch: seq<Change>) {
    forall i, j :: 0 <= i < j < |batch| ==> batch[i].qid != batch[j].qid
  }

  /** What a change of an entity tells the store that it does not have yet. */
  function IsNews(m: EntityMap): Change -> bool { (c: Change) => Get(m, c.qid) != c.mappings }

  function OneNews(m: EntityMap, c: Change): seq<Change> { if IsNews(m)(c) then [c] else [] }

  /** The first k changes of a batch that differ from what is stored. */
  function News(m: EntityMap, batch: seq<Change>, k: nat): seq<Change>
    requires k <= |batch|
  {
    Picked(batch, IsNews(m), k)
  }

  lemma ChangesNothing(m: EntityMap, c: Change)
    ensures ApplyChange(m, c) == m <==> Get(m, c.qid) == c.mappings
  {
    if Get(m, c.qid) == c.mappings {
      SameAt(ApplyChange(m, c), m);
    } else {
      assert Get(ApplyChange(m, c), c.qid) == c.mappings;
    }
  }

  /** Writing earlier members of a batch does not touch a later one. */
  lemma LaterUntouched(m: EntityMap, batch: seq<Change>, k: nat, i: nat)
    requires Distinct(batch) && k <= i < |batch|
    ensures Get(Replay(m, batch[..k]), batch[i].qid) == Get(m, batch[i].qid)
  {
    var q := batch[i].qid;
    assert !Writes(batch[..k], q) by {
      forall j | 0 <= j < k ensures batch[..k][j].qid != q {
        assert batch[j].qid != batch[i].qid;
      }
    }
    ReplayAt(m, batch[..k], q);
    LastValueOfUnwritten(batch[..k], q, Get(m, q));
  }

  lemma WriteChanges(db: Db, c: Change, now: nat)
    requires AllDecode(db.entities) && Decodable(c)
    ensures Changes(History(Apply(db, Write(c), now))) ==
            Changes(History(db)) + OneNews(db.entities, c)
  {
    ChangesNothing(db.entities, c);
    WriteLogs(db, c, now);
    if Get(db.entities, c.qid) != c.mappings {
      var e := LogEntry(NextId(db.clock, now), c);
      ChangesConcat(History(db), [e]);
      assert Changes([e]) == [c] by { assert [e][..0] == []; }
    }
  }

  ghost function Logged(db: Db): seq<Change> { Changes(History(db)) }

  /** Everything logged is what was there, and the news among the first k changes. */
  ghost predicate LoggedNews(before: Db, after: Db, batch: seq<Change>, k: nat)
    requires k <= |batch|
  {
    Logged(after) == Logged(before) + News(before.entities, batch, k)
  }

  /** One more command of a batch, seen from the store the batch started on. */
  lemma LogStep(before: Db, mid: Db, after: Db, batch: seq<Change>, k: nat, now: nat)
    requires Distinct(batch) && 0 < k <= |batch| && LoggedNews(before, mid, batch, k - 1)
    requires AllDecode(mid.entities) && Decodable(batch[k - 1])
    requires after == Apply(mid, Write(batch[k - 1]), now) && mid.entities == Replay(before.entities, batch[..k - 1])
    ensures LoggedNews(before, after, batch, k)
  {
    var m, c := before.entities, batch[k - 1];
    LaterUntouched(m, batch, k - 1, k - 1);
    WriteChanges(mid, c, now);
    Regroup(Logged(before), News(m, batch, k - 1), OneNews(m, c));
  }

  /** What the first k commands of a batch append to the changelog. */
  lemma {:induction false} PrefixLog(db: Db, batch: seq<Change>, now: int -> nat, k: nat)
    requires Valid(db) && AllDecodable(batch) && Distinct(batch) && k <= |batch| == |Puts(batch)|
    ensures LoggedNews(db, ApplyPrefix(db, Puts(batch), now, k), batch, k)
  {
    if k > 0 {
      PutsAt(batch);
      PrefixLog(db, batch, now, k - 1);
      PrefixEntities(db, batch, now, k - 1);
      ApplyPrefixValid(db, Puts(batch), now, k - 1);
      LogStep(db, ApplyPrefix(db, Puts(batch), now, k - 1), ApplyPrefix(db, Puts(batch), now, k), batch, k, now(k - 1));
    }
  }

  /** After the first k writes of a batch the rest of it is still the same news. */
  lemma NewsAfter(m: EntityMap, batch: seq<Change>, k: nat)
    requires Distinct(batch) && k <= |batch|
    ensures News(m, batch, k) + News(Replay(m, batch[..k]), batch, |batch|) == News(m, batch, |batch|)
  {
    var later := Replay(m, batch[..k]);
    forall i | 0 <= i < k ensures !IsNews(later)(batch[i]) {
      ReplayAt(m, batch[..k], batch[i].qid);
      DistinctLast(batch, k, i, Get(m, batch[i].qid));
    }
    forall i | k <= i < |batch| ensures IsNews(later)(batch[i]) == IsNews(m)(batch[i]) {
      LaterUntouched(m, batch, k, i);
    }
    PickedLater(batch, IsNews(m), IsNews(later), k, |batch|);
  }

  lemma {:induction false} DistinctLast(batch: seq<Change>, k: nat, i: nat, before: Option<Raw>)
    requires Distinct(batch) && i < k <= |batch|
    ensures LastValue(batch[..k], batch[i].qid, before) == batch[i].mappings
  {
    assert batch[..k][..k - 1] == batch[..k - 1];
    if i < k - 1 { DistinctLast(batch, k - 1, i, before); }
  }

  // ---------------------------------------------------------------- retries

  /** Failed attempts, each leaving a prefix, and then a complete one. */
  function Retried(db: Db, batch: seq<Change>, now: (int, int) -> nat, stops: seq<nat>): Db
    requires forall i :: 0 <= i < |stops| ==> stops[i] <= |Puts(batch)|
    decreases |stops|
  {
    if stops == [] then ApplyPrefix(db, Puts(batch), i => now(0, i), |Puts(batch)|)
    else Retried(ApplyPrefix(db, Puts(batch), i => now(|stops|, i), stops[0]), batch, now, stops[1..])
  }

  lemma {:induction false} RetriedEntities(db: Db, batch: seq<Change>, now: (int, int) -> nat, stops: seq<nat>)
    requires forall i :: 0 <= i < |stops| ==> stops[i] <= |Puts(batch)|
    requires Valid(db) && AllDecodable(batch)
    ensures Retried(db, batch, now, stops).entities == Replay(db.entities, batch)
    ensures Valid(Retried(db, batch, now, stops))
    decreases |stops|
  {
    PutsAt(batch);
    assert batch[..|batch|] == batch;
    if stops == [] {
      PrefixEntities(db, batch, i => now(0, i), |batch|);
      ApplyPrefixValid(db, Puts(batch), i => now(0, i), |batch|);
    } else {
      var at: int -> nat := i => now(|stops|, i);
      var k := stops[0];
      PrefixEntities(db, batch, at, k);
      ApplyPrefixValid(db, Puts(batch), at, k);
      RetriedEntities(ApplyPrefix(db, Puts(batch), at, k), batch, now, stops[1..]);
      forall c | c in batch[..k] ensures Writes(batch, c.qid) {
        var i :| 0 <= i < k && batch[..k][i] == c;
        assert batch[i].qid == c.qid;
      }
      ReplayAbsorbsAll(db.entities, batch[..k], batch);
    }
  }

  lemma {:induction false} RetriedCount(db: Db, batch: seq<Change>, now: (int, int) -> nat, stops: seq<nat>)
    requires forall i :: 0 <= i < |stops| ==> stops[i] <= |Puts(batch)|
    requires Valid(db) && AllDecodable(batch) && Counted(db)
    ensures Counted(Retried(db, batch, now, stops))
    decreases |stops|
  {
    PutsAt(batch);
    if stops == [] {
      PrefixCount(db, batch, i => now(0, i), |batch|);
    } else {
      var at: int -> nat := i => now(|stops|, i);
      PrefixCount(db, batch, at, stops[0]);
      ApplyPrefixValid(db, Puts(batch), at, stops[0]);
      RetriedCount(ApplyPrefix(db, Puts(batch), at, stops[0]), batch, now, stops[1..]);
    }
  }

  lemma PrefixCount(db: Db, batch: seq<Change>, now: int -> nat, k: nat)
    requires Valid(db) && AllDecodable(batch) && Counted(db) && k <= |batch| == |Puts(batch)|
    ensures Counted(ApplyPrefix(db, Puts(batch), now, k))
  {
    PutsAt(batch);
    PrefixCounted(db, Puts(batch), now, k);
  }

  lemma LoggedAll(before: Db, mid: Db, after: Db, batch: seq<Change>, k: nat)
    requires Distinct(batch) && k <= |batch| && mid.entities == Replay(before.entities, batch[..k])
    requires LoggedNews(before, mid, batch, k) && LoggedNews(mid, after, batch, |batch|)
    ensures LoggedNews(before, after, batch, |batch|)
  {
    NewsAfter(before.entities, batch, k);
    Regroup(Logged(before), News(before.entities, batch, k), News(mid.entities, batch, |batch|));
  }

  lemma {:induction false} RetriedLog(db: Db, batch: seq<Change>, now: (int, int) -> nat, stops: seq<nat>)
    requires forall i :: 0 <= i < |stops| ==> stops[i] <= |Puts(batch)|
    requires Valid(db) && AllDecodable(batch) && Distinct(batch)
    ensures LoggedNews(db, Retried(db, batch, now, stops), batch, |batch|)
    decreases |stops|
  {
    PutsAt(batch);
    if stops == [] {
      PrefixLog(db, batch, i => now(0, i), |batch|);
    } else {
      var at: int -> nat := i => now(|stops|, i);
      var mid := ApplyPrefix(db, Puts(batch), at, stops[0]);
      PrefixLog(db, batch, at, stops[0]);
      PrefixEntities(db, batch, at, stops[0]);
      ApplyPrefixValid(db, Puts(batch), at, stops[0]);
      RetriedLog(mid, batch, now, stops[1..]);
      LoggedAll(db, mid, Retried(mid, batch, now, stops[1..]), batch, stops[0]);
    }
  }

  /** However often and wherever the writes of a batch broke, once it went through, the
      entities, the index and the count are those of writing it once; and for distinct
      entities so are the changes in the changelog, in the same order. */
  lemma RetryAbsorbed(db: Db, batch: seq<Change>, now: (int, int) -> nat, stops: seq<nat>)
    requires forall i :: 0 <= i < |stops| ==> stops[i] <= |Puts(batch)|
    requires Valid(db) && Counted(db) && AllDecodable(batch)
    ensures var once, many := Retried(db, batch, now, []), Retried(db, batch, now, stops);
            && many.entities == once.entities && many.index == once.index && many.count == once.count
            && (Distinct(batch) ==> Logged(many) == Logged(once))
  {
    RetriedEntities(db, batch, now, []);
    RetriedEntities(db, batch, now, stops);
    IndexUnique(Replay(db.entities, batch), Retried(db, batch, now, []).index, Retried(db, batch, now, stops).index);
    RetriedCount(db, batch, now, []);
    RetriedCount(db, batch, now, stops);
    if Distinct(batch) {
      RetriedLog(db, batch, now, []);
      RetriedLog(db, batch, now, stops);
    }
  }

  /** Some part of the batch was written before all of it. */
  lemma PartAbsorbed(m: EntityMap, batch: seq<Change>, k: nat)
    requires k <= |batch|
    ensures Replay(Replay(m, batch[..k]), batch) == Replay(m, batch)
  {
    forall c | c in batch[..k] ensures Writes(batch, c.qid) {
      var i :| 0 <= i < k && batch[..k][i] == c;
      assert batch[i].qid == c.qid;
    }
    ReplayAbsorbsAll(m, batch[..k], batch);
  }

  /** The flush of the background writer: up to five attempts at the whole batch. `cancels` says
      after which attempts the context is found cancelled. A record that cannot be stored fails
      every attempt before anything is written. Otherwise the flush succeeds with the first attempt
      that is not lost, and the batch is then in the store exactly as if written once; it gives up
      only after five lost attempts, or one after which it is cancelled, which leaves the store
      consistent, and writing the batch later gives the same entities. */
  method FlushBatch(server: Server, records: seq<EntityRecord>, cancels: nat -> bool, now: int -> nat)
    returns (ok: bool)
    requires Valid(server.Value())
    modifies server
    ensures Valid(server.Value())
    ensures !AllStorable(records) ==> !ok && server.Value() == old(server.Value()) && server.calls == old(server.calls)
    ensures AllStorable(records) && ok ==> server.entities == Replay(old(server.entities), UpsertsOf(records))
    ensures AllStorable(records) ==>
              Replay(server.entities, UpsertsOf(records)) == Replay(old(server.entities), UpsertsOf(records))
    ensures records == [] ==> ok && server.calls == old(server.calls)
    ensures AllStorable(records) && records != [] ==>
              Tried(server.net, cancels, old(server.calls), server.calls, ok)
    ensures AllStorable(records) && records != [] && (forall i: nat :: i < 4 ==> !cancels(i)) ==>
              (ok <==> exists n: nat :: old(server.calls) <= n < old(server.calls) + 5 && server.net(n).Answered?)
  {
    if records == [] { return true; }
    hide Valid, AllStorable, Flushed, Replay, Tried;
    ghost var before, at := server.entities, server.calls;
    ok := TryAll(server, records, cancels, now);
    if AllStorable(records) {
      FlushedMeans(before, server.entities, UpsertsOf(records), ok);
      TriedMeans(server.net, cancels, at, server.calls, ok);
    }
  }

  /** The loop over the attempts. */
  method TryAll(server: Server, records: seq<EntityRecord>, cancels: nat -> bool, now: int -> nat) returns (ok: bool)
    requires Valid(server.Value()) && records != []
    modifies server
    ensures Valid(server.Value())
    ensures !AllStorable(records) ==> !ok && server.Value() == old(server.Value()) && server.calls == old(server.calls)
    ensures AllStorable(records) ==> Flushed(old(server.entities), server.entities, UpsertsOf(records), ok)
    ensures AllStorable(records) ==> Tried(server.net, cancels, old(server.calls), server.calls, ok)
  {
    hide Valid, AllStorable, Flushed, Replay, InLoop, Tried;
    ghost var before, at := server.Value(), server.calls;
    var attempt, cancelled := 0, false;
    ok := false;
    LoopStarts(server.net, cancels, at);
    if AllStorable(records) { NothingFlushed(before.entities, UpsertsOf(records)); }
    while !ok && attempt < WRITE_MAX_RETRIES && !cancelled
      invariant Valid(server.Value()) && attempt <= WRITE_MAX_RETRIES
      invariant !AllStorable(records) ==> !ok && server.Value() == before && server.calls == at
      invariant AllStorable(records) ==>
                  && Flushed(before.entities, server.entities, UpsertsOf(records), ok)
                  && InLoop(server.net, cancels, at, attempt, ok, cancelled) && server.calls == at + attempt
      decreases WRITE_MAX_RETRIES - attempt
    {
      ghost var call := server.calls;
      ok := Attempt(server, before.entities, records, now);
      cancelled := !ok && cancels(attempt);
      if AllStorable(records) {
        assert call == at + attempt;
        LoopGoesOn(server.net, cancels, at, attempt, ok, cancelled);
      }
      attempt := attempt + 1;
    }
    if AllStorable(records) { LoopEnds(server.net, cancels, at, attempt, ok, cancelled); }
  }

  predicate AllLost(net: nat -> Trip, a: nat, b: nat) { forall n :: a <= n < b ==> net(n).Lost? }

  /** Attempts that failed because their pipelines were lost, and then one that was answered; or
      the failed ones alone, five of them unless the context was cancelled after the last. */
  predicate Tried(net: nat -> Trip, cancels: nat -> bool, at: nat, made: nat, ok: bool) {
    && at < made <= at + 5 && AllLost(net, at, made - 1)
    && (forall i: nat :: i < made - at - 1 ==> !cancels(i))
    && (ok <==> net(made - 1).Answered?)
    && (!ok ==> made == at + 5 || cancels(made - at - 1))
  }

  predicate InLoop(net: nat -> Trip, cancels: nat -> bool, at: nat, n: nat, ok: bool, cancelled: bool) {
    && (ok ==> n > 0 && net(at + n - 1).Answered?)
    && AllLost(net, at, if ok then at + n - 1 else at + n)
    && (forall i: nat :: i < n - 1 ==> !cancels(i))
    && (!ok && n > 0 ==> cancelled == cancels(n - 1))
    && (n == 0 ==> !cancelled)
  }

  lemma LoopStarts(net: nat -> Trip, cancels: nat -> bool, at: nat)
    ensures InLoop(net, cancels, at, 0, false, false)
  {
  }

  lemma LoopGoesOn(net: nat -> Trip, cancels: nat -> bool, at: nat, n: nat, ok: bool, cancelled: bool)
    requires InLoop(net, cancels, at, n, false, false)
    requires ok == net(at + n).Answered? && cancelled == (!ok && cancels(n))
    ensures InLoop(net, cancels, at, n + 1, ok, cancelled)
  {
  }

  lemma LoopEnds(net: nat -> Trip, cancels: nat -> bool, at: nat, n: nat, ok: bool, cancelled: bool)
    requires InLoop(net, cancels, at, n, ok, cancelled) && n <= WRITE_MAX_RETRIES
    requires ok || n == WRITE_MAX_RETRIES || cancelled
    ensures Tried(net, cancels, at, at + n, ok)
  {
  }

  lemma TriedMeans(net: nat -> Trip, cancels: nat -> bool, at: nat, made: nat, ok: bool)
    requires Tried(net, cancels, at, made, ok)
    ensures (forall i: nat :: i < 4 ==> !cancels(i)) ==>
              (ok <==> exists k: nat :: at <= k < at + 5 && net(k).Answered?)
  {
  }

  lemma NothingFlushed(m: EntityMap, batch: seq<Change>)
    ensures Flushed(m, m, batch, false)
  {
  }

  lemma FlushedMeans(before: EntityMap, after: EntityMap, batch: seq<Change>, ok: bool)
    requires Flushed(before, after, batch, ok)
    ensures Replay(after, batch) == Replay(before, batch) && (ok ==> after == Replay(before, batch))
  {
  }

  ghost predicate Flushed(before: EntityMap, after: EntityMap, batch: seq<Change>, ok: bool) {
    Replay(after, batch) == Replay(before, batch) && (ok ==> after == Replay(before, batch))
  }

  method Attempt(server: Server, ghost before: EntityMap, records: seq<EntityRecord>, now: int -> nat)
    returns (ok: bool)
    requires Valid(server.Value()) && records != []
    requires AllStorable(records) ==> Flushed(before, server.entities, UpsertsOf(records), false)
    modifies server
    ensures Valid(server.Value())
    ensures !AllStorable(records) ==> !ok && server.Value() == old(server.Value()) && server.calls == old(server.calls)
    ensures AllStorable(records) ==> Flushed(before, server.entities, UpsertsOf(records), ok)
    ensures AllStorable(records) ==>
              server.calls == old(server.calls) + 1 && (ok <==> server.net(old(server.calls)).Answered?)
  {
    var pipe := new Pipe();
    QueueUpserts(pipe, records);
    if pipe.err {
      var applied: nat;
      ok, applied := pipe.Exec(server, now);
    } else {
      UpsertsDecodable(records);
      ok := ExecBatch(server, before, pipe, UpsertsOf(records), now);
    }
  }

  method ExecBatch(server: Server, ghost before: EntityMap, pipe: Pipe, ghost batch: seq<Change>, now: int -> nat)
    returns (ok: bool)
    requires Valid(server.Value()) && AllDecodable(batch) && Flushed(before, server.entities, batch, false)
    requires !pipe.err && pipe.queued == Puts(batch) && batch != []
    modifies server
    ensures Valid(server.Value()) && Flushed(before, server.entities, batch, ok)
    ensures server.calls == old(server.calls) + 1 && (ok <==> server.net(old(server.calls)).Answered?)
  {
    ghost var m := server.Value();
    PutsAt(batch);
    GoodBatchSucceeds(m, batch, now, |Puts(batch)|);
    var k;
    ok, k := pipe.Exec(server, now);
    PrefixEntities(m, batch, now, k);
    PartAbsorbed(m.entities, batch, k);
    assert batch[..|batch|] == batch;
  }
}
