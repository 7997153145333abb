/** ProcessEntities: what a batch of fetched entities does to the store. */
module Processor {
  import opened Text
  import opened Mappings
  import opened EntityMaps
  import opened Store
  import opened Kvrocks

  /** What the API response holds for an id: nothing at all, a missing entity, text that
      does not parse, an entity that is no item, or an item with its mappings. */
  datatype Outcome = Absent | Missing | Unparsable | NotAnItem | Parsed(mappings: seq<string>)

  function ResultOf(results: map<Qid, Outcome>, q: Qid): Outcome {
    if q in results then results[q] else Absent
  }

  predicate Errs(results: map<Qid, Outcome>, q: Qid) {
    ResultOf(results, q).Absent? || ResultOf(results, q).Unparsable?
  }

  /** A mapping that is not "P<id>:<value>" poisons the whole pipeline. */
  predicate Writable(results: map<Qid, Outcome>, q: Qid) {
    ResultOf(results, q).Parsed? ==> AllEntries(ResultOf(results, q).mappings)
  }

  /** The value an entity should have afterwards. */
  function Wanted(m: EntityMap, qids: seq<Qid>, results: map<Qid, Outcome>, q: Qid): Option<Raw>
    requires forall p :: p in qids ==> Writable(results, p)
  {
    if q !in qids then Get(m, q)
    else
      assert Writable(results, q);
      match ResultOf(results, q)
      case Missing => None
      case Parsed(es) => Some(Canonical(es))
      case _ => Get(m, q)
  }

  /** The record to upsert for an item. */
  function RecordOf(results: map<Qid, Outcome>, q: Qid): EntityRecord
    requires ResultOf(results, q).Parsed?
  {
    EntityRecord(IntToQid(q), ResultOf(results, q).mappings)
  }

  lemma RecordChange(results: map<Qid, Outcome>, q: Qid)
    requires ResultOf(results, q).Parsed?
    ensures ChangeOf(RecordOf(results, q)) ==
            if Writable(results, q) then Some(Change(q, Some(Canonical(ResultOf(results, q).mappings)))) else None
  {
    QidRoundTrip(q);
  }

  function Upserts(qids: seq<Qid>, results: map<Qid, Outcome>): seq<EntityRecord> {
    if qids == [] then []
    else
      var n := |qids| - 1;
      Upserts(qids[..n], results) + if ResultOf(results, qids[n]).Parsed? then [RecordOf(results, qids[n])] else []
  }

  function Deletes(qids: seq<Qid>, results: map<Qid, Outcome>): seq<Qid> {
    if qids == [] then []
    else
      var n := |qids| - 1;
      Deletes(qids[..n], results) + if ResultOf(results, qids[n]).Missing? then [qids[n]] else []
  }

  function DeletesOf(qids: seq<Qid>): (cs: seq<Change>)
    ensures |cs| == |qids| && forall i :: 0 <= i < |cs| ==> cs[i] == Change(qids[i], None)
  {
    seq(|qids|, i requires 0 <= i < |qids| => Change(qids[i], None))
  }

  /** The pipeline's changes: all upserts, then all deletes. */
  function Batch(qids: seq<Qid>, results: map<Qid, Outcome>): seq<Change>
    requires AllStorable(Upserts(qids, results))
  {
    UpsertsOf(Upserts(qids, results)) + DeletesOf(Deletes(qids, results))
  }

  lemma BatchDecodes(qids: seq<Qid>, results: map<Qid, Outcome>)
    requires AllStorable(Upserts(qids, results))
    ensures AllDecodable(Batch(qids, results)) && AllSane(Puts(Batch(qids, results)))
  {
    UpsertsDecodable(Upserts(qids, results));
    PutsAt(Batch(qids, results));
  }

  // -------------------------------------------------- order does not matter

  predicate AimsRight(m: EntityMap, qids: seq<Qid>, results: map<Qid, Outcome>, c: Change)
    requires forall p :: p in qids ==> Writable(results, p)
  {
    c.mappings == Wanted(m, qids, results, c.qid)
  }

  /** Every change sets what is wanted for its entity. */
  ghost predicate Aims(m: EntityMap, qids: seq<Qid>, results: map<Qid, Outcome>, cs: seq<Change>)
    requires forall p :: p in qids ==> Writable(results, p)
  {
    forall i :: 0 <= i < |cs| ==> AimsRight(m, qids, results, cs[i])
  }

  lemma {:induction false} AimedValue(cs: seq<Change>, q: Qid, before: Option<Raw>, value: Option<Raw>)
    requires forall i :: 0 <= i < |cs| && cs[i].qid == q ==> cs[i].mappings == value
    ensures LastValue(cs, q, before) == if Writes(cs, q) then value else before
  {
    if Writes(cs, q) {
      if cs[|cs| - 1].qid != q {
        var i :| 0 <= i < |cs| && cs[i].qid == q;
        assert cs[..|cs| - 1][i].qid == q;
        AimedValue(cs[..|cs| - 1], q, before, value);
      }
    } else {
      LastValueOfUnwritten(cs, q, before);
    }
  }

  predicate ComesFrom(qids: seq<Qid>, results: map<Qid, Outcome>, rec: EntityRecord) {
    exists q :: q in qids && ResultOf(results, q).Parsed? && rec == RecordOf(results, q)
  }

  lemma {:induction false} UpsertsAre(qids: seq<Qid>, results: map<Qid, Outcome>)
    ensures forall rec :: rec in Upserts(qids, results) ==> ComesFrom(qids, results, rec)
    ensures forall q :: q in qids && ResultOf(results, q).Parsed? ==> RecordOf(results, q) in Upserts(qids, results)
  {
    if qids != [] {
      var n := |qids| - 1;
      UpsertsAre(qids[..n], results);
      assert qids == qids[..n] + [qids[n]];
      forall rec | rec in Upserts(qids[..n], results) ensures ComesFrom(qids, results, rec) {
        assert ComesFrom(qids[..n], results, rec);
      }
    }
  }

  lemma {:induction false} DeletesAre(qids: seq<Qid>, results: map<Qid, Outcome>)
    ensures forall q :: q in Deletes(qids, results) <==> q in qids && ResultOf(results, q).Missing?
  {
    if qids != [] {
      var n := |qids| - 1;
      DeletesAre(qids[..n], results);
      assert qids == qids[..n] + [qids[n]];
    }
  }

  /** The pipeline is poisoned exactly by a result with a malformed mapping. */
  lemma WritableIff(qids: seq<Qid>, results: map<Qid, Outcome>)
    ensures AllStorable(Upserts(qids, results)) <==> forall q :: q in qids ==> Writable(results, q)
  {
    var us := Upserts(qids, results);
    UpsertsAre(qids, results);
    if AllStorable(us) {
      forall q | q in qids ensures Writable(results, q) {
        if ResultOf(results, q).Parsed? {
          var i :| 0 <= i < |us| && us[i] == RecordOf(results, q);
          assert ChangesOf(us)[i].Some?;
          RecordChange(results, q);
        }
      }
    } else {
      var i :| 0 <= i < |us| && ChangesOf(us)[i].None?;
      assert ComesFrom(qids, results, us[i]);
      var q :| q in qids && ResultOf(results, q).Parsed? && us[i] == RecordOf(results, q);
      RecordChange(results, q);
    }
  }

  lemma UpsertAims(qids: seq<Qid>, results: map<Qid, Outcome>, i: nat)
    requires AllStorable(Upserts(qids, results)) && i < |Upserts(qids, results)|
    ensures |UpsertsOf(Upserts(qids, results))| == |Upserts(qids, results)|
    ensures var c := UpsertsOf(Upserts(qids, results))[i];
            c.qid in qids && ResultOf(results, c.qid).Parsed? && Writable(results, c.qid) &&
            c.mappings == Some(Canonical(ResultOf(results, c.qid).mappings))
  {
    var us := Upserts(qids, results);
    UpsertsDecodable(us);
    UpsertsAre(qids, results);
    assert ChangesOf(us)[i].Some?;
    assert ComesFrom(qids, results, us[i]);
    var q :| q in qids && ResultOf(results, q).Parsed? && us[i] == RecordOf(results, q);
    RecordChange(results, q);
  }

  lemma UpsertWrites(qids: seq<Qid>, results: map<Qid, Outcome>, q: Qid)
    requires AllStorable(Upserts(qids, results)) && q in qids && ResultOf(results, q).Parsed?
    ensures Writes(UpsertsOf(Upserts(qids, results)), q)
  {
    var us := Upserts(qids, results);
    UpsertsDecodable(us);
    UpsertsAre(qids, results);
    var i :| 0 <= i < |us| && us[i] == RecordOf(results, q);
    RecordChange(results, q);
    assert ChangesOf(us)[i].Some?;
    assert UpsertsOf(us)[i].qid == q;
  }

  lemma WritesIn(a: seq<Change>, b: seq<Change>, q: Qid)
    requires Writes(a, q) || Writes(b, q)
    ensures Writes(a + b, q)
  {
    if Writes(a, q) {
      var i :| 0 <= i < |a| && a[i].qid == q;
      assert (a + b)[i].qid == q;
    } else {
      var i :| 0 <= i < |b| && b[i].qid == q;
      assert (a + b)[|a| + i].qid == q;
    }
  }

  lemma BatchWrites(qids: seq<Qid>, results: map<Qid, Outcome>, q: Qid)
    requires AllStorable(Upserts(qids, results)) && q in qids
    requires ResultOf(results, q).Parsed? || ResultOf(results, q).Missing?
    ensures Writes(Batch(qids, results), q)
  {
    if ResultOf(results, q).Parsed? {
      UpsertWrites(qids, results, q);
    } else {
      DeletesAre(qids, results);
      var i :| 0 <= i < |Deletes(qids, results)| && Deletes(qids, results)[i] == q;
      assert DeletesOf(Deletes(qids, results))[i].qid == q;
    }
    WritesIn(UpsertsOf(Upserts(qids, results)), DeletesOf(Deletes(qids, results)), q);
  }

  lemma UpsertAimsRight(m: EntityMap, qids: seq<Qid>, results: map<Qid, Outcome>, i: nat)
    requires AllStorable(Upserts(qids, results)) && forall p :: p in qids ==> Writable(results, p)
    requires i < |UpsertsOf(Upserts(qids, results))|
    ensures AimsRight(m, qids, results, UpsertsOf(Upserts(qids, results))[i])
  {
    UpsertsDecodable(Upserts(qids, results));
    UpsertAims(qids, results, i);
  }

  lemma DeleteAimsRight(m: EntityMap, qids: seq<Qid>, results: map<Qid, Outcome>, i: nat)
    requires (forall p :: p in qids ==> Writable(results, p)) && i < |Deletes(qids, results)|
    ensures AimsRight(m, qids, results, Change(Deletes(qids, results)[i], None))
  {
    DeletesAre(qids, results);
    assert Deletes(qids, results)[i] in Deletes(qids, results);
  }

  lemma AimsAt(m: EntityMap, qids: seq<Qid>, results: map<Qid, Outcome>, us: seq<Change>, ds: seq<Change>, i: nat)
    requires forall p :: p in qids ==> Writable(results, p)
    requires forall j :: 0 <= j < |us| ==> AimsRight(m, qids, results, us[j])
    requires forall j :: 0 <= j < |ds| ==> AimsRight(m, qids, results, ds[j])
    requires i < |us + ds|
    ensures AimsRight(m, qids, results, (us + ds)[i])
  {
  }

  lemma BatchAims(m: EntityMap, qids: seq<Qid>, results: map<Qid, Outcome>)
    requires AllStorable(Upserts(qids, results)) && forall p :: p in qids ==> Writable(results, p)
    ensures Aims(m, qids, results, Batch(qids, results))
    ensures forall q :: q in qids && (ResultOf(results, q).Parsed? || ResultOf(results, q).Missing?) ==>
              Writes(Batch(qids, results), q)
  {
    var us, ds := UpsertsOf(Upserts(qids, results)), DeletesOf(Deletes(qids, results));
    var cs := Batch(qids, results);
    forall q | q in qids && (ResultOf(results, q).Parsed? || ResultOf(results, q).Missing?) ensures Writes(cs, q) {
      BatchWrites(qids, results, q);
    }
    forall j | 0 <= j < |us| ensures AimsRight(m, qids, results, us[j]) { UpsertAimsRight(m, qids, results, j); }
    forall j | 0 <= j < |ds| ensures AimsRight(m, qids, results, ds[j]) { DeleteAimsRight(m, qids, results, j); }
    forall i | 0 <= i < |cs| ensures AimsRight(m, qids, results, cs[i]) { AimsAt(m, qids, results, us, ds, i); }
  }

  /** After any part of the batch every entity has its old or its wanted value, after all of
      it the wanted one: writing the upserts before the deletes, and repeated ids, make no
      difference. */
  lemma BatchReaches(m: EntityMap, qids: seq<Qid>, results: map<Qid, Outcome>, k: nat, q: Qid)
    requires AllStorable(Upserts(qids, results)) && forall p :: p in qids ==> Writable(results, p)
    requires k <= |Batch(qids, results)|
    ensures var v := Get(Replay(m, Batch(qids, results)[..k]), q);
            (v == Get(m, q) || v == Wanted(m, qids, results, q)) &&
            (k == |Batch(qids, results)| ==> v == Wanted(m, qids, results, q))
  {
    var cs := Batch(qids, results);
    BatchAims(m, qids, results);
    ReplayAt(m, cs[..k], q);
    AimedValue(cs[..k], q, Get(m, q), Wanted(m, qids, results, q));
    if k == |cs| { assert cs[..k] == cs; }
  }

  lemma BatchEmptyIff(qids: seq<Qid>, results: map<Qid, Outcome>)
    requires AllStorable(Upserts(qids, results))
    ensures Batch(qids, results) != [] <==> AnyToWrite(qids, results)
  {
    var us, ds := Upserts(qids, results), Deletes(qids, results);
    UpsertsDecodable(us);
    UpsertsAre(qids, results);
    DeletesAre(qids, results);
    if us != [] {
      assert ComesFrom(qids, results, us[0]);
    } else if ds != [] {
      assert ds[0] in ds;
    }
    if p :| p in qids && (ResultOf(results, p).Parsed? || ResultOf(results, p).Missing?) {
      BatchWrites(qids, results, p);
    }
  }

  // ---------------------------------------------------------- no-op batches

  /** Writing what is there already changes nothing in any structure of the store. */
  lemma {:induction false} QuietWrites(db: Db, cs: seq<Change>, now: int -> nat, k: nat)
    requires k <= |cs| == |Puts(cs)|
    requires forall i :: 0 <= i < |cs| ==> Get(db.entities, cs[i].qid) == cs[i].mappings
    ensures ApplyPrefix(db, Puts(cs), now, k) == db
  {
    PutsAt(cs);
    if k > 0 { QuietWrites(db, cs, now, k - 1); }
  }

  /** Processing the same results twice appends nothing to the changelog the second time. */
  lemma SecondTimeQuiet(db: Db, qids: seq<Qid>, results: map<Qid, Outcome>, now: int -> nat, k: nat)
    requires AllStorable(Upserts(qids, results)) && forall p :: p in qids ==> Writable(results, p)
    requires k <= |Batch(qids, results)| == |Puts(Batch(qids, results))|
    ensures var once := ApplyPrefix(db, Puts(Batch(qids, results)), now, |Batch(qids, results)|);
            ApplyPrefix(once, Puts(Batch(qids, results)), now, k) == once
  {
    var cs := Batch(qids, results);
    var once := ApplyPrefix(db, Puts(cs), now, |cs|);
    PutsAt(cs);
    PrefixEntities(db, cs, now, |cs|);
    BatchAims(db.entities, qids, results);
    forall i | 0 <= i < |cs| ensures Get(once.entities, cs[i].qid) == cs[i].mappings {
      BatchReaches(db.entities, qids, results, |cs|, cs[i].qid);
    }
    QuietWrites(once, cs, now, k);
  }

  // ----------------------------------------------------------------- method

  datatype BatchResult = BatchFailed | Errors(qids: set<Qid>)

  predicate AllWritable(qids: seq<Qid>, results: map<Qid, Outcome>) { forall p :: p in qids ==> Writable(results, p) }

  /** Some of these ids is an item or missing. */
  predicate AnyToWrite(qids: seq<Qid>, results: map<Qid, Outcome>) {
    exists p :: p in qids && (ResultOf(results, p).Parsed? || ResultOf(results, p).Missing?)
  }

  /** The id was asked for, and is reported missing. */
  predicate Gone(qids: seq<Qid>, results: map<Qid, Outcome>, q: Qid) {
    q in qids && q in results && results[q].Missing?
  }

  /** The id was asked for, and comes as an item. */
  predicate Came(qids: seq<Qid>, results: map<Qid, Outcome>, q: Qid) {
    q in qids && q in results && results[q].Parsed?
  }

  /** What the wanted values and the reported ids are, result by result. */
  lemma WantedMeans(was: EntityMap, m: EntityMap, qids: seq<Qid>, results: map<Qid, Outcome>)
    requires AllWritable(qids, results) && forall q :: Get(m, q) == Wanted(was, qids, results, q)
    ensures forall q :: Gone(qids, results, q) ==> q !in m
    ensures forall q :: Came(qids, results, q) ==> Get(m, q) == Some(Canonical(results[q].mappings))
    ensures forall q :: !Gone(qids, results, q) && !Came(qids, results, q) ==> Get(m, q) == Get(was, q)
    ensures forall q :: Errs(results, q) <==> q !in results || results[q].Absent? || results[q].Unparsable?
  {
    forall q | Gone(qids, results, q) ensures q !in m { assert Get(m, q) == Wanted(was, qids, results, q) == None; }
  }

  /** ProcessEntities. On success exactly the absent and unparsable ids are reported, a missing
      entity is gone, an item has its mappings, and no other entity is touched; when the fetch or
      the pipeline fails, every entity has its old or its wanted value. On a valid store it succeeds
      iff the fetch does, no mapping is malformed, and the pipeline, if there is anything to write, is
      not lost. */
  method ProcessEntities(server: Server, qids: seq<Qid>, fetched: Option<map<Qid, Outcome>>, now: int -> nat)
    returns (r: BatchResult)
    modifies server
    ensures r.Errors? && qids != [] ==> fetched.Some? && AllWritable(qids, fetched.value)
    ensures r.Errors? && qids != [] ==>
              var results := fetched.value;
              && (forall q :: q in r.qids <==>
                              q in qids && (q !in results || results[q].Absent? || results[q].Unparsable?))
              && (forall q :: Gone(qids, results, q) ==> q !in server.entities)
              && (forall q :: Came(qids, results, q) ==>
                    Get(server.entities, q) == Some(Canonical(results[q].mappings)))
              && (forall q :: !Gone(qids, results, q) && !Came(qids, results, q) ==>
                    Get(server.entities, q) == Get(old(server.entities), q))
    ensures fetched.None? || qids == [] || !AllWritable(qids, fetched.value) ==> server.Value() == old(server.Value())
    ensures fetched.Some? && AllWritable(qids, fetched.value) ==>
              forall q :: Get(server.entities, q) == Get(old(server.entities), q) ||
                          Get(server.entities, q) == Wanted(old(server.entities), qids, fetched.value, q)
    ensures old(Valid(server.Value())) ==>
              (r.Errors? <==> qids == [] ||
                              (fetched.Some? && AllWritable(qids, fetched.value) &&
                               (AnyToWrite(qids, fetched.value) ==> server.net(old(server.calls)).Answered?)))
    ensures qids == [] ==> r == Errors({})
    ensures old(Valid(server.Value())) ==> Valid(server.Value())
  {
    hide Valid, Wanted, Errs;
    if qids == [] { return Errors({}); }
    if fetched.None? { return BatchFailed; }
    ghost var before := server.entities;
    r := WriteResults(server, qids, fetched.value, now);
    if r.Errors? { WantedMeans(before, server.entities, qids, fetched.value); }
  }

  /** The write of a fetched batch. */
  method WriteResults(server: Server, qids: seq<Qid>, results: map<Qid, Outcome>, now: int -> nat)
    returns (r: BatchResult)
    modifies server
    ensures r.Errors? ==> AllWritable(qids, results) && forall q :: q in r.qids <==> q in qids && Errs(results, q)
    ensures r.Errors? ==> forall q :: Get(server.entities, q) == Wanted(old(server.entities), qids, results, q)
    ensures !AllWritable(qids, results) ==> server.Value() == old(server.Value())
    ensures AllWritable(qids, results) ==>
              forall q :: Get(server.entities, q) == Get(old(server.entities), q) ||
                          Get(server.entities, q) == Wanted(old(server.entities), qids, results, q)
    ensures old(Valid(server.Value())) ==>
              (r.Errors? <==> AllWritable(qids, results) &&
                              (AnyToWrite(qids, results) ==> server.net(old(server.calls)).Answered?))
    ensures old(Valid(server.Value())) ==> Valid(server.Value())
  {
    var errors, pipe := Queue(qids, results);
    WritableIff(qids, results);
    if pipe.err { return BatchFailed; }
    ghost var before := server.Value();
    ghost var cs := Batch(qids, results);
    BatchDecodes(qids, results);
    var ok, done := true, 0;
    if Valid(before) { GoodBatchSucceeds(before, cs, now, |Puts(cs)|); }
    BatchEmptyIff(qids, results);
    if pipe.queued != [] {
      ok, done := pipe.Exec(server, now);
    }
    PutsAt(cs);
    PrefixEntities(before, cs, now, done);
    forall q ensures
        (Get(server.entities, q) == Get(before.entities, q) ||
         Get(server.entities, q) == Wanted(before.entities, qids, results, q)) &&
        (ok ==> Get(server.entities, q) == Wanted(before.entities, qids, results, q)) {
      BatchReaches(before.entities, qids, results, done, q);
    }
    r := if ok then Errors(errors) else BatchFailed;
  }

  /** The loop over the ids, and the pipeline: all upserts, then all deletes. */
  method Queue(qids: seq<Qid>, results: map<Qid, Outcome>) returns (errors: set<Qid>, pipe: Pipe)
    ensures fresh(pipe)
    ensures forall q :: q in errors <==> q in qids && Errs(results, q)
    ensures pipe.err == !AllStorable(Upserts(qids, results))
    ensures !pipe.err ==> pipe.queued == Puts(Batch(qids, results))
  {
    errors := {};
    var upserts: seq<EntityRecord>, deletes: seq<Qid> := [], [];
    for i := 0 to |qids|
      invariant forall q :: q in errors <==> q in qids[..i] && Errs(results, q)
      invariant upserts == Upserts(qids[..i], results) && deletes == Deletes(qids[..i], results)
    {
      var q := qids[i];
      assert qids[..i + 1] == qids[..i] + [q] && qids[..i + 1][..i] == qids[..i];
      match ResultOf(results, q) {
        case Absent => errors := errors + {q};
        case Missing => deletes := deletes + [q];
        case Unparsable => errors := errors + {q};
        case NotAnItem =>
        case Parsed(es) => upserts := upserts + [EntityRecord(IntToQid(q), es)];
      }
    }
    assert qids[..|qids|] == qids;
    pipe := new Pipe();
    QueueUpserts(pipe, upserts);
    assert pipe.err == !AllStorable(upserts);
    QueueDeletes(pipe, deletes, if AllStorable(upserts) then UpsertsOf(upserts) else []);
  }

  lemma PutsMore(cs: seq<Change>, deletes: seq<Qid>, i: nat)
    requires i < |deletes|
    ensures Puts(cs + DeletesOf(deletes[..i + 1])) ==
            Puts(cs + DeletesOf(deletes[..i])) + [Write(Change(deletes[i], None))]
  {
    assert cs + DeletesOf(deletes[..i + 1]) == (cs + DeletesOf(deletes[..i])) + [Change(deletes[i], None)];
    PutsAppend(cs + DeletesOf(deletes[..i]), Change(deletes[i], None));
  }

  method QueueDelete(pipe: Pipe, q: Qid)
    modifies pipe
    ensures pipe.err == old(pipe.err)
    ensures pipe.queued == if pipe.err then old(pipe.queued) else old(pipe.queued) + [Write(Change(q, None))]
  {
    QidRoundTrip(q);
    pipe.DeleteEntity(IntToQid(q));
  }

  method QueueDeletes(pipe: Pipe, deletes: seq<Qid>, ghost cs: seq<Change>)
    requires !pipe.err ==> pipe.queued == Puts(cs)
    modifies pipe
    ensures pipe.err == old(pipe.err)
    ensures !pipe.err ==> pipe.queued == Puts(cs + DeletesOf(deletes))
  {
    assert cs + DeletesOf(deletes[..0]) == cs;
    for i := 0 to |deletes|
      invariant pipe.err == old(pipe.err)
      invariant !pipe.err ==> pipe.queued == Puts(cs + DeletesOf(deletes[..i]))
    {
      PutsMore(cs, deletes, i);
      QueueDelete(pipe, deletes[i]);
    }
    assert deletes[..|deletes|] == deletes;
  }
}
