/** One replication link: what an upstream store promises a replica, and why every step of
    the upstream keeps the promise. */
module Link {
  import opened Text
  import opened Mappings
  import opened EntityMaps
  import opened Store
  import opened Stream
  import opened Snapshot
  import opened Replica

  /** The changes of the current history after a position. */
  function Since(db: Db, cursor: nat): seq<Change> { Changes(After(History(db), cursor)) }

  // --------------------------------------------------------------- upstream

  predicate Same(a: Db, b: Db) {
    History(b) == History(a) && b.entities == a.entities && b.clock == a.clock && b.floor == a.floor
  }

  predicate Grew(a: Db, b: Db) {
    && |History(b)| == |History(a)| + 1 && b.floor == a.floor
    && var e := History(b)[|History(a)|];
       && History(b) == History(a) + [e] && e.id > a.clock && b.clock == e.id
       && b.entities == ApplyChange(a.entities, e.change)
  }

  predicate Wiped(a: Db, b: Db) {
    History(b) == [] && b.entities == map[] && b.floor == a.clock && b.clock == a.clock
  }

  /** Seen from downstream a store stays, appends one change, or is wiped. */
  predicate Evolves(a: Db, b: Db) { Same(a, b) || Grew(a, b) || Wiped(a, b) }

  lemma WriteEvolves(db: Db, c: Change, now: nat)
    requires AllDecode(db.entities) && Decodable(c)
    ensures Evolves(db, Apply(db, Write(c), now))
  {
    WriteLogs(db, c, now);
    WriteEntities(db, c, now);
  }

  lemma ApplyEvolves(db: Db, cmd: Cmd, now: nat)
    requires AllDecode(db.entities) && Sane(cmd)
    ensures Evolves(db, Apply(db, cmd, now))
  {
    if cmd.Write? { WriteEvolves(db, cmd.change, now); }
  }

  lemma TrimEvolves(db: Db, minId: nat, limit: nat)
    ensures Same(db, Trim(db, minId, limit))
  {
    TrimKeepsHistory(db, minId, limit);
  }

  lemma SinceGrew(a: Db, b: Db, cursor: nat)
    requires Grew(a, b) && cursor <= a.clock
    ensures var e := History(b)[|History(a)|];
            && After(History(b), cursor) == After(History(a), cursor) + [e]
            && Since(b, cursor) == Since(a, cursor) + [e.change]
  {
    var e := History(b)[|History(a)|];
    AfterConcat(History(a), [e], cursor);
    ChangesConcat(After(History(a), cursor), [e]);
    ChangesCons(e, []);
    assert [e] + [] == [e] && [e.change] + [] == [e.change];
  }

  /** The entities are what the changes after any position leave, whatever was before. */
  lemma SinceDecides(db: Db, cursor: nat, q: Qid)
    requires Valid(db) && Writes(Since(db, cursor), q)
    ensures Get(db.entities, q) == LastValue(Since(db, cursor), q, None)
  {
    var h, rest := History(db), After(History(db), cursor);
    AfterIsSuffix(h, cursor);
    var before := h[..|h| - |rest|];
    assert h == before + rest;
    ChangesConcat(before, rest);
    ReplayConcat(map[], Changes(before), Changes(rest));
    ReplayAt(Replay(map[], Changes(before)), Changes(rest), q);
    LastValueOfWritten(Changes(rest), q, Get(Replay(map[], Changes(before)), q), None);
  }

  // ----------------------------------------------------- catching up exactly

  /** Replaying what came after the cursor onto these entities gives the upstream's. */
  predicate Behind(db: Db, cursor: nat, entities: EntityMap) {
    cursor > db.floor ==> Replay(entities, Since(db, cursor)) == db.entities
  }

  /** Every step of the upstream keeps a replica behind: exactly the new change is added to
      what it has to replay, and a flush leaves its cursor below the new floor. */
  lemma BehindKept(a: Db, b: Db, cursor: nat, entities: EntityMap)
    requires Evolves(a, b) && cursor <= a.clock && a.floor <= a.clock && Behind(a, cursor, entities)
    ensures Behind(b, cursor, entities) && cursor <= b.clock
  {
    if Same(a, b) {
    } else if Grew(a, b) {
      SinceGrew(a, b, cursor);
      ReplayAppend(entities, Since(a, cursor), History(b)[|History(a)|].change);
    }
  }

  // -------------------------------------------------------------- snapshots

  /** A scan in progress: the position recorded before it began, what it has returned, and
      the entities present ever since it began. */
  datatype Scan = Scan(position: nat, items: seq<(Qid, Raw)>, stable: set<Qid>)

  predicate Settled(entities: EntityMap, s: Scan, q: Qid) {
    && (forall i :: 0 <= i < |s.items| && s.items[i].0 == q ==> Get(entities, q) == Some(s.items[i].1))
    && (q in entities ==> q in s.stable)
  }

  predicate ItemsGood(items: seq<(Qid, Raw)>) { forall i :: 0 <= i < |items| ==> Decodes(items[i].1) }

  lemma {:induction false} GoodChanges(items: seq<(Qid, Raw)>)
    requires ItemsGood(items)
    ensures AllDecodable(AsChanges(items))
  {
    if items != [] { GoodChanges(items[..|items| - 1]); }
  }

  /** A scan of any store. */
  predicate ScanTidy(db: Db, s: Scan) {
    s.position <= db.clock && forall i :: 0 <= i < |s.items| ==> Plain(s.items[i].1)
  }

  /** A scan of a valid store: an entity not changed since it began has been returned correctly,
      if at all. */
  ghost predicate ScanOk(db: Db, s: Scan) {
    s.position > db.floor ==>
      && ItemsGood(s.items)
      && forall q: Qid :: Writes(Since(db, s.position), q) || Settled(db.entities, s, q)
  }

  function Shrink(s: Scan, entities: EntityMap): Scan {
    s.(stable := set q | q in s.stable && q in entities)
  }

  lemma WritesMore(cs: seq<Change>, c: Change, q: Qid)
    ensures Writes(cs + [c], q) <==> Writes(cs, q) || c.qid == q
  {
    if Writes(cs, q) {
      var i :| 0 <= i < |cs| && cs[i].qid == q;
      assert (cs + [c])[i].qid == q;
    }
    if c.qid == q { assert (cs + [c])[|cs|].qid == q; }
  }

  lemma ScanKept(a: Db, b: Db, s: Scan)
    requires Evolves(a, b) && a.floor <= a.clock && ScanTidy(a, s) && ScanOk(a, s)
    ensures ScanOk(b, Shrink(s, b.entities))
  {
    var t := Shrink(s, b.entities);
    if !Wiped(a, b) && s.position > b.floor {
      if Grew(a, b) { SinceGrew(a, b, s.position); }
      forall q: Qid ensures Writes(Since(b, s.position), q) || Settled(b.entities, t, q) {
        if Grew(a, b) { WritesMore(Since(a, s.position), History(b)[|History(a)|].change, q); }
        if !Writes(Since(b, s.position), q) {
          assert Settled(a.entities, s, q);
          assert Get(b.entities, q) == Get(a.entities, q);
        }
      }
    }
  }

  lemma AsChangesTail(items: seq<(Qid, Raw)>, n: nat)
    requires |items| == n + 1
    ensures AsChanges(items) == AsChanges(items[..n]) + [Change(items[n].0, Some(items[n].1))]
  {
  }

  lemma {:induction false} ItemsGive(items: seq<(Qid, Raw)>, q: Qid, value: Option<Raw>)
    requires forall i :: 0 <= i < |items| && items[i].0 == q ==> value == Some(items[i].1)
    requires value.Some? ==> exists i :: 0 <= i < |items| && items[i].0 == q
    ensures LastValue(AsChanges(items), q, None) == value
  {
    if items != [] {
      var n := |items| - 1;
      AsChangesTail(items, n);
      LastValueAppend(AsChanges(items[..n]), Change(items[n].0, Some(items[n].1)), q, None);
      if items[n].0 != q {
        if value.Some? {
          var i :| 0 <= i < |items| && items[i].0 == q;
          assert items[..n][i].0 == q;
        }
        ItemsGive(items[..n], q, value);
      }
    }
  }

  /** The convergence of a snapshot: however writes interleaved with the scan, loading what
      it returned and replaying the changelog from the recorded position gives the upstream. */
  lemma ScanConverges(db: Db, s: Scan)
    requires Valid(db) && ScanOk(db, s)
    requires forall q :: q in s.stable ==> exists i :: 0 <= i < |s.items| && s.items[i].0 == q
    ensures Behind(db, s.position, Replay(map[], AsChanges(s.items)))
  {
    if s.position > db.floor {
      var full, cs := Replay(map[], AsChanges(s.items)), Since(db, s.position);
      forall q: Qid ensures Get(Replay(full, cs), q) == Get(db.entities, q) {
        ReplayAt(full, cs, q);
        if Writes(cs, q) {
          SinceDecides(db, s.position, q);
          LastValueOfWritten(cs, q, Get(full, q), None);
        } else {
          LastValueOfUnwritten(cs, q, Get(full, q));
          ReplayAt(map[], AsChanges(s.items), q);
          ItemsGive(s.items, q, Get(db.entities, q));
        }
      }
      SameAt(Replay(full, cs), db.entities);
    }
  }

  /** A published file of any store is well formed. */
  predicate FileTidy(db: Db, file: File) {
    WellFormedFile(file.lines, file.position) && file.position <= db.clock
  }

  /** A file published by a valid store since its last flush: every value decodes, and a replica
      that loads it is behind at its position. */
  predicate FileOk(db: Db, file: File) {
    file.position > db.floor ==>
      AllDecodable(Records(file.lines)) && Behind(db, file.position, Full(file.lines))
  }

  lemma FileKept(a: Db, b: Db, file: File)
    requires Evolves(a, b) && a.floor <= a.clock && FileTidy(a, file) && FileOk(a, file)
    ensures FileOk(b, file)
  {
    if file.position > b.floor { BehindKept(a, b, file.position, Full(file.lines)); }
  }

  // ------------------------------------------------------------- the cursor

  /** A stored last_replicated_id is always safe. */
  predicate CursorOk(db: Db, v: View) {
    v.meta.last.Some? ==> v.meta.last.value <= db.clock && Behind(db, v.meta.last.value, v.entities)
  }

  predicate CursorTidy(db: Db, v: View) { v.meta.last.Some? ==> v.meta.last.value <= db.clock }

  /** Below a cursor that still counts every value decodes. */
  predicate Readable(db: Db, v: View) {
    v.meta.last.Some? && v.meta.last.value > db.floor ==> AllDecode(v.entities)
  }

  /** After a flush of the upstream an old cursor is safe: the upstream will not accept it. */
  lemma CursorFlushed(a: Db, b: Db, v: View)
    requires Wiped(a, b) && CursorTidy(a, v)
    ensures CursorOk(b, v) && Readable(b, v)
  {
  }

  lemma CursorKept(a: Db, b: Db, v: View)
    requires Evolves(a, b) && a.floor <= a.clock && CursorOk(a, v)
    ensures CursorOk(b, v)
  {
    if v.meta.last.Some? { BehindKept(a, b, v.meta.last.value, v.entities); }
  }

  /** At the end of the history there is nothing left to replay: the replica is equal. */
  lemma CaughtUp(db: Db, v: View)
    requires Valid(db) && db.log != [] && CursorOk(db, v) && v.meta.last == Some(Last(db.log))
    ensures v.entities == db.entities
  {
    var h := History(db);
    assert h[|h| - 1] == db.log[|db.log| - 1];
    AfterNothing(h, Last(db.log));
  }

  // ------------------------------------------------------------- the stream

  /** The events in flight are exactly what lies between the stored cursor and the server's. */
  predicate Aligned(db: Db, last: nat, inflight: seq<LogEntry>, cursor: nat) {
    last > db.floor && After(History(db), last) == inflight + After(History(db), cursor)
  }

  /** Everything about this stream predates the last flush. */
  predicate Outdated(db: Db, last: nat, inflight: seq<LogEntry>) {
    last <= db.floor && forall i :: 0 <= i < |inflight| ==> inflight[i].id <= db.floor
  }

  /** The first event in flight is applied, but its cursor is not stored yet. */
  predicate Absorbed(db: Db, v: View, inflight: seq<LogEntry>, cursor: nat)
    requires inflight != []
  {
    inflight[0].id > db.floor ==>
      Replay(v.entities, Changes(inflight[1..] + After(History(db), cursor))) == db.entities
  }

  predicate StreamQueue(inflight: seq<LogEntry>, queue: seq<Cmd>) {
    queue == [] ||
    (inflight != [] &&
     (queue == [Write(inflight[0].change), SetLast(inflight[0].id)] || queue == [SetLast(inflight[0].id)]))
  }

  /** A stream connection to any store. As long as the server may still read, its cursor is in
      the current history and no trim has passed it. */
  predicate StreamTidy(db: Db, v: View, c: Client) {
    c.mode.Streaming? &&
    var inflight, cursor := c.mode.inflight, c.mode.cursor;
    && v.meta.last.Some? && cursor <= db.clock && c.must
    && (forall i :: 0 <= i < |inflight| ==> inflight[i].id <= db.clock) && LogDecodes(inflight)
    && (c.mode.open ==> cursor > db.floor && After(db.removed, cursor) == [])
    && StreamQueue(inflight, c.queue)
  }

  /** A stream connection to a valid store. */
  predicate StreamOk(db: Db, v: View, c: Client) {
    && StreamTidy(db, v, c)
    && var inflight, cursor := c.mode.inflight, c.mode.cursor;
       && (Aligned(db, v.meta.last.value, inflight, cursor)
           || (!c.mode.open && Outdated(db, v.meta.last.value, inflight)))
       && (|c.queue| == 1 ==> Absorbed(db, v, inflight, cursor))
  }

  /** The hypothesis on concurrent maintenance: while the server reads for an open stream,
      no flush happens and no trim passes its cursor. */
  predicate Undisturbs(a: Db, b: Db, c: Client) {
    c.mode.Streaming? && c.mode.open ==> b.floor == a.floor && After(b.removed, c.mode.cursor) == []
  }

  lemma AbsorbedKept(a: Db, b: Db, v: View, inflight: seq<LogEntry>, cursor: nat)
    requires Evolves(a, b) && a.floor <= a.clock && cursor <= a.clock
    requires inflight != [] && inflight[0].id <= a.clock && Absorbed(a, v, inflight, cursor)
    ensures Absorbed(b, v, inflight, cursor)
  {
    if Grew(a, b) && inflight[0].id > a.floor {
      var e, rest := History(b)[|History(a)|], inflight[1..] + After(History(a), cursor);
      SinceGrew(a, b, cursor);
      assert inflight[1..] + After(History(b), cursor) == rest + [e];
      ChangesConcat(rest, [e]);
      ChangesCons(e, []);
      assert [e] + [] == [e] && [e.change] + [] == [e.change];
      ReplayAppend(v.entities, Changes(rest), e.change);
    }
  }

  lemma AlignedKept(a: Db, b: Db, last: nat, inflight: seq<LogEntry>, cursor: nat)
    requires Grew(a, b) && cursor <= a.clock && last <= a.clock && Aligned(a, last, inflight, cursor)
    ensures Aligned(b, last, inflight, cursor)
  {
    SinceGrew(a, b, cursor);
    SinceGrew(a, b, last);
  }

  lemma StreamGrew(a: Db, b: Db, v: View, c: Client)
    requires Grew(a, b) && a.floor <= a.clock && CursorOk(a, v) && StreamOk(a, v, c) && Undisturbs(a, b, c)
    ensures StreamOk(b, v, c)
  {
    var inflight, cursor, last := c.mode.inflight, c.mode.cursor, v.meta.last.value;
    if |c.queue| == 1 { AbsorbedKept(a, b, v, inflight, cursor); }
    if Aligned(a, last, inflight, cursor) { AlignedKept(a, b, last, inflight, cursor); }
    hide Absorbed, Aligned, Grew;
  }

  lemma StreamSame(a: Db, b: Db, v: View, c: Client)
    requires Same(a, b) && StreamOk(a, v, c) && Undisturbs(a, b, c)
    ensures StreamOk(b, v, c)
  {
  }

  /** Every undisturbing step of the upstream keeps a stream connection sound. */
  lemma StreamKept(a: Db, b: Db, v: View, c: Client)
    requires Evolves(a, b) && a.floor <= a.clock && CursorOk(a, v) && StreamOk(a, v, c) && Undisturbs(a, b, c)
    ensures StreamOk(b, v, c)
  {
    if Same(a, b) {
      StreamSame(a, b, v, c);
    } else if Grew(a, b) {
      StreamGrew(a, b, v, c);
    } else {
      StreamFlushed(a, b, v, c);
    }
  }

  lemma StreamTidyKept(a: Db, b: Db, v: View, c: Client)
    requires Later(a, b) && StreamTidy(a, v, c) && Undisturbs(a, b, c)
    ensures StreamTidy(b, v, c)
  {
  }

  /** A flush of the upstream outdates whatever is in flight; no stream is open then. */
  lemma StreamFlushed(a: Db, b: Db, v: View, c: Client)
    requires Wiped(a, b) && CursorTidy(a, v) && StreamTidy(a, v, c) && Undisturbs(a, b, c)
    ensures StreamOk(b, v, c)
  {
  }
}
