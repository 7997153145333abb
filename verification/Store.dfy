/** The store as a value: the entity map, its reverse index, the changelog stream and
    the sync metadata, with the effect of every write command. */
module Store {
  import opened Text
  import opened Mappings
  import opened EntityMaps
  import opened ReverseIndex

  /** A changelog entry. Stream ids are ordered like the naturals (see StreamIds). */
  datatype LogEntry = LogEntry(id: nat, change: Change)

  /** The meta fields that steer replication: last_replicated_id, snapshot_etag,
      snapshot_resume_offset and snapshot_resume_entities. */
  datatype Meta = Meta(last: Option<nat>, etag: Option<nat>, offset: Option<int>, applied: Option<int>)

  const NO_META := Meta(None, None, None, None)

  /** `removed` is what trims took off the head of `log` since the last flush, `clock`
      the greatest id ever handed out and `floor` the clock at the last flush. */
  datatype Db = Db(
    entities: EntityMap, index: Index,
    removed: seq<LogEntry>, log: seq<LogEntry>, clock: nat, floor: nat,
    count: int, meta: Meta)

  const EMPTY := Db(map[], map[], [], [], 0, 0, 0, NO_META)

  function Changes(es: seq<LogEntry>): seq<Change> {
    if es == [] then [] else Changes(es[..|es| - 1]) + [es[|es| - 1].change]
  }

  /** Everything appended since the last flush. */
  function History(db: Db): seq<LogEntry> { db.removed + db.log }

  // --------------------------------------------------------------- commands

  /** XADD with id `*`: the clock reading, or the next free id when the clock is behind. */
  function NextId(clock: nat, now: nat): (id: nat)
    ensures id > clock
  {
    if now > clock then now else clock + 1
  }

  function Append(db: Db, c: Change, now: nat): Db {
    var id := NextId(db.clock, now);
    db.(log := db.log + [LogEntry(id, c)], clock := id)
  }

  /** The upsert script. The entity is set before the values are decoded: a value that does
      not decode, old or new, ends the script there. */
  function Upsert(db: Db, q: Qid, raw: Raw, now: nat): Db {
    if q in db.entities && db.entities[q] == raw then db
    else if Fails(db.entities, Write(Change(q, Some(raw)))) then db.(entities := db.entities[q := raw])
    else
      Append(db.(
        entities := db.entities[q := raw],
        index := Reindex(db.index, FormatInt(q), EntriesAt(db.entities, q), Entries(raw)),
        count := if q in db.entities then db.count else db.count + 1),
        Change(q, Some(raw)), now)
  }

  /** The delete script, which removes the entity before it decodes the old value. */
  function Delete(db: Db, q: Qid, now: nat): Db {
    if q !in db.entities then db
    else if Fails(db.entities, Write(Change(q, None))) then db.(entities := db.entities - {q})
    else
      Append(db.(
        entities := db.entities - {q},
        index := Retract(db.index, FormatInt(q), Entries(db.entities[q]), {}),
        count := db.count - 1),
        Change(q, None), now)
  }

  /** FLUSHDB. The clock goes on: later ids are greater than every earlier one. */
  function Flush(db: Db): Db {
    EMPTY.(clock := db.clock, floor := db.clock)
  }

  datatype Cmd =
    | Write(change: Change)
    | FlushAll
    | SetLast(id: nat)
    | SetEtag(etag: nat)
    | SetOffset(offset: int)
    | SetApplied(entities: int)
    | SetCount(count: int)
    | ClearProgress
    | SetOther

  function Apply(db: Db, cmd: Cmd, now: nat): Db {
    match cmd
    case Write(c) => if c.mappings.Some? then Upsert(db, c.qid, c.mappings.value, now) else Delete(db, c.qid, now)
    case FlushAll => Flush(db)
    case SetLast(id) => db.(meta := db.meta.(last := Some(id)))
    case SetEtag(t) => db.(meta := db.meta.(etag := Some(t)))
    case SetOffset(o) => db.(meta := db.meta.(offset := Some(o)))
    case SetApplied(n) => db.(meta := db.meta.(applied := Some(n)))
    case SetCount(n) => db.(count := n)
    case ClearProgress => db.(meta := db.meta.(etag := None, offset := None, applied := None))
    case SetOther => db
  }

  /** The command is answered with an error. The commands after it in its pipeline run. */
  predicate Fails(entities: EntityMap, cmd: Cmd) {
    cmd.Write? &&
    var was := Get(entities, cmd.change.qid);
    var next := cmd.change.mappings;
    was != next && ((next.Some? && !Decodes(next.value)) || (was.Some? && !Decodes(was.value)))
  }

  /** A command that leaves no value behind that does not decode. */
  predicate Sane(cmd: Cmd) { cmd.Write? ==> Decodable(cmd.change) }

  predicate AllSane(cmds: seq<Cmd>) { forall i :: 0 <= i < |cmds| ==> Sane(cmds[i]) }

  /** The first k commands of a pipeline, the i-th at clock reading now(i). */
  function ApplyPrefix(db: Db, cmds: seq<Cmd>, now: int -> nat, k: nat): Db
    requires k <= |cmds|
  {
    if k == 0 then db else Apply(ApplyPrefix(db, cmds, now, k - 1), cmds[k - 1], now(k - 1))
  }

  // ---------------------------------------------------------- log positions

  predicate Increasing(es: seq<LogEntry>) {
    forall i, j :: 0 <= i < j < |es| ==> es[i].id < es[j].id
  }

  lemma IncreasingParts(a: seq<LogEntry>, b: seq<LogEntry>)
    requires Increasing(a + b)
    ensures Increasing(a) && Increasing(b)
    ensures forall i, j :: 0 <= i < |a| && 0 <= j < |b| ==> a[i].id < b[j].id
  {
    assert forall i :: 0 <= i < |a| ==> (a + b)[i] == a[i];
    assert forall j :: 0 <= j < |b| ==> (a + b)[|a| + j] == b[j];
  }

  predicate Within(es: seq<LogEntry>, floor: nat, clock: nat) {
    forall i :: 0 <= i < |es| ==> floor < es[i].id <= clock
  }

  /** XREAD after a cursor, unbounded. */
  function After(es: seq<LogEntry>, cursor: nat): seq<LogEntry> {
    if es == [] then [] else if es[0].id > cursor then es else After(es[1..], cursor)
  }

  lemma {:induction false} AfterIsSuffix(es: seq<LogEntry>, cursor: nat)
    ensures |After(es, cursor)| <= |es|
    ensures After(es, cursor) == es[|es| - |After(es, cursor)|..]
  {
    if es != [] && es[0].id <= cursor { AfterIsSuffix(es[1..], cursor); }
  }

  lemma {:induction false} AfterMembers(es: seq<LogEntry>, cursor: nat)
    requires Increasing(es)
    ensures forall e :: e in After(es, cursor) <==> e in es && e.id > cursor
  {
    if es != [] && es[0].id <= cursor {
      assert es == [es[0]] + es[1..];
      AfterMembers(es[1..], cursor);
    }
  }

  lemma {:induction false} AfterNothing(es: seq<LogEntry>, cursor: nat)
    requires forall i :: 0 <= i < |es| ==> es[i].id <= cursor
    ensures After(es, cursor) == []
  {
    if es != [] { AfterNothing(es[1..], cursor); }
  }

  lemma {:induction false} AfterConcat(a: seq<LogEntry>, b: seq<LogEntry>, cursor: nat)
    requires forall i :: 0 <= i < |b| ==> b[i].id > cursor
    ensures After(a + b, cursor) == After(a, cursor) + b
  {
    if a == [] {
      assert a + b == b;
    } else if a[0].id > cursor {
    } else {
      assert (a + b)[1..] == a[1..] + b;
      AfterConcat(a[1..], b, cursor);
    }
  }

  lemma {:induction false} AfterSkips(a: seq<LogEntry>, b: seq<LogEntry>, cursor: nat)
    requires After(a, cursor) == []
    ensures After(a + b, cursor) == After(b, cursor)
  {
    if a == [] {
      assert a + b == b;
    } else {
      assert (a + b)[1..] == a[1..] + b;
      AfterSkips(a[1..], b, cursor);
    }
  }

  /** Moving the cursor over the entries just read leaves exactly the rest. */
  lemma AfterAdvance(es: seq<LogEntry>, cursor: nat, read: seq<LogEntry>, rest: seq<LogEntry>)
    requires Increasing(es) && After(es, cursor) == read + rest && read != []
    ensures After(es, read[|read| - 1].id) == rest
  {
    var n := |es| - |read + rest|;
    AfterIsSuffix(es, cursor);
    assert es[n..] == read + rest;
    var head, c := es[..n + |read|], read[|read| - 1].id;
    assert es == head + rest;
    assert head[|head| - 1] == (read + rest)[|read| - 1];
    AfterNothing(head, c);
    AfterSkips(head, rest, c);
    if rest != [] { assert rest[0] == es[n + |read|]; }
  }

  lemma {:induction false} ChangesConcat(a: seq<LogEntry>, b: seq<LogEntry>)
    ensures Changes(a + b) == Changes(a) + Changes(b)
  {
    if b == [] {
      assert a + b == a;
    } else {
      assert (a + b)[..|a + b| - 1] == a + b[..|b| - 1];
      ChangesConcat(a, b[..|b| - 1]);
    }
  }

  lemma ChangesCons(e: LogEntry, es: seq<LogEntry>)
    ensures Changes([e] + es) == [e.change] + Changes(es)
  {
    ChangesConcat([e], es);
    assert [e][..0] == [];
  }

  // ------------------------------------------------------------- invariants

  /** Ids strictly increase and lie above the last flush. */
  predicate Ordered(db: Db) {
    db.floor <= db.clock && Increasing(History(db)) && Within(History(db), db.floor, db.clock)
  }

  /** What every command keeps: order, the log since the flush replays to the entity map, the
      index agrees with it, and every value decodes. */
  ghost predicate Valid(db: Db) {
    && Ordered(db)
    && db.entities == Replay(map[], Changes(History(db)))
    && Agrees(db.entities, db.index)
    && AllDecode(db.entities) && LogDecodes(History(db))
  }

  predicate LogDecodes(es: seq<LogEntry>) { forall i :: 0 <= i < |es| ==> Decodable(es[i].change) }

  lemma UpsertEntities(db: Db, q: Qid, raw: Raw, now: nat)
    ensures Upsert(db, q, raw, now).entities == db.entities[q := raw]
    ensures Upsert(db, q, raw, now).meta == db.meta && Upsert(db, q, raw, now).floor == db.floor
  {
    if q in db.entities && db.entities[q] == raw { assert db.entities[q := raw] == db.entities; }
  }

  lemma DeleteEntities(db: Db, q: Qid, now: nat)
    ensures Delete(db, q, now).entities == db.entities - {q}
    ensures Delete(db, q, now).meta == db.meta && Delete(db, q, now).floor == db.floor
  {
    if q !in db.entities { assert db.entities - {q} == db.entities; }
  }

  /** A write sets or removes one entity, also when its script fails halfway. */
  lemma WriteAt(db: Db, c: Change, now: nat, q: Qid)
    ensures Get(Apply(db, Write(c), now).entities, q) == if q == c.qid then c.mappings else Get(db.entities, q)
  {
    WriteEntities(db, c, now);
  }

  /** Entities after a write, without the no-op cases. */
  lemma WriteEntities(db: Db, c: Change, now: nat)
    ensures Apply(db, Write(c), now).entities == ApplyChange(db.entities, c)
    ensures Apply(db, Write(c), now).meta == db.meta
    ensures Apply(db, Write(c), now).floor == db.floor
  {
    if c.mappings.Some? {
      UpsertEntities(db, c.qid, c.mappings.value, now);
    } else {
      DeleteEntities(db, c.qid, now);
    }
  }

  lemma WriteSucceeds(db: Db, c: Change)
    requires AllDecode(db.entities) && Decodable(c)
    ensures !Fails(db.entities, Write(c))
  {
  }

  /** A write either changes nothing at all, or appends exactly its change. */
  lemma WriteLogs(db: Db, c: Change, now: nat)
    requires AllDecode(db.entities) && Decodable(c)
    ensures var after := Apply(db, Write(c), now);
            if ApplyChange(db.entities, c) == db.entities then after == db
            else History(after) == History(db) + [LogEntry(NextId(db.clock, now), c)] &&
                 after.clock == NextId(db.clock, now)
  {
    var q := c.qid;
    WriteSucceeds(db, c);
    if c.mappings.Some? {
      if !(q in db.entities && db.entities[q] == c.mappings.value) {
        assert Get(ApplyChange(db.entities, c), q) != Get(db.entities, q);
      } else {
        assert ApplyChange(db.entities, c) == db.entities;
      }
    } else if q in db.entities {
      assert q !in ApplyChange(db.entities, c);
    } else {
      assert ApplyChange(db.entities, c) == db.entities;
    }
  }

  lemma WriteAgrees(db: Db, c: Change, now: nat)
    requires Agrees(db.entities, db.index) && AllDecode(db.entities) && Decodable(c)
    ensures Agrees(Apply(db, Write(c), now).entities, Apply(db, Write(c), now).index)
  {
    WriteSucceeds(db, c);
    if c.mappings.Some? {
      UpsertAgrees(db.entities, db.index, c.qid, c.mappings.value);
    } else if c.qid in db.entities {
      DeleteAgrees(db.entities, db.index, c.qid);
    }
  }

  lemma GrownReplays(h: seq<LogEntry>, e: LogEntry)
    ensures Replay(map[], Changes(h + [e])) == ApplyChange(Replay(map[], Changes(h)), e.change)
  {
    assert (h + [e])[..|h|] == h;
    ReplayAppend(map[], Changes(h), e.change);
  }

  lemma GrownOrder(h: seq<LogEntry>, e: LogEntry, floor: nat, clock: nat)
    requires Increasing(h) && Within(h, floor, clock) && floor <= clock < e.id
    ensures Increasing(h + [e]) && Within(h + [e], floor, e.id)
  {
  }

  lemma GrownValid(db: Db, after: Db, e: LogEntry)
    requires Valid(db) && e.id > db.clock && after.clock == e.id && after.floor == db.floor
    requires History(after) == History(db) + [e] && after.entities == ApplyChange(db.entities, e.change)
    requires Agrees(after.entities, after.index) && Decodable(e.change)
    ensures Valid(after)
  {
    GrownOrder(History(db), e, db.floor, db.clock);
    GrownReplays(History(db), e);
  }

  lemma WriteValid(db: Db, c: Change, now: nat)
    requires Valid(db) && Decodable(c)
    ensures Valid(Apply(db, Write(c), now))
  {
    WriteEntities(db, c, now);
    WriteLogs(db, c, now);
    WriteAgrees(db, c, now);
    if ApplyChange(db.entities, c) != db.entities {
      GrownValid(db, Apply(db, Write(c), now), LogEntry(NextId(db.clock, now), c));
    }
  }

  /** Every reachable store is valid: each command keeps validity. */
  lemma ApplyValid(db: Db, cmd: Cmd, now: nat)
    requires Valid(db) && Sane(cmd)
    ensures Valid(Apply(db, cmd, now))
  {
    if cmd.Write? { WriteValid(db, cmd.change, now); }
    if cmd.FlushAll? { EmptyAgrees(); }
  }

  lemma {:induction false} ApplyPrefixValid(db: Db, cmds: seq<Cmd>, now: int -> nat, k: nat)
    requires Valid(db) && k <= |cmds| && AllSane(cmds)
    ensures Valid(ApplyPrefix(db, cmds, now, k))
  {
    if k > 0 {
      ApplyPrefixValid(db, cmds, now, k - 1);
      ApplyValid(ApplyPrefix(db, cmds, now, k - 1), cmds[k - 1], now(k - 1));
    }
  }

  lemma CountAdded(m: EntityMap, q: Qid, raw: Raw)
    ensures |m[q := raw]| == |m| + if q in m then 0 else 1
  {
    assert m[q := raw].Keys == m.Keys + {q};
    assert |m[q := raw]| == |m[q := raw].Keys| && |m| == |m.Keys|;
  }

  lemma CountRemoved(m: EntityMap, q: Qid)
    requires q in m
    ensures |m - {q}| == |m| - 1
  {
    assert (m - {q}).Keys == m.Keys - {q};
    assert |m - {q}| == |(m - {q}).Keys| && |m| == |m.Keys|;
  }

  /** entity_count is the number of entities, as long as nobody overwrites it. */
  lemma CountKept(db: Db, cmd: Cmd, now: nat)
    requires db.count == |db.entities| && !cmd.SetCount? && AllDecode(db.entities) && Sane(cmd)
    ensures Apply(db, cmd, now).count == |Apply(db, cmd, now).entities|
  {
    if cmd.Write? {
      var q := cmd.change.qid;
      WriteSucceeds(db, cmd.change);
      if cmd.change.mappings.Some? {
        CountAdded(db.entities, q, cmd.change.mappings.value);
      } else if q in db.entities {
        CountRemoved(db.entities, q);
      }
    }
  }

  predicate Counted(db: Db) { db.count == |db.entities| }

  predicate CountSafe(cmds: seq<Cmd>) { forall i :: 0 <= i < |cmds| ==> Sane(cmds[i]) && !cmds[i].SetCount? }

  lemma ApplyDecodes(db: Db, cmd: Cmd, now: nat)
    requires AllDecode(db.entities) && Sane(cmd)
    ensures AllDecode(Apply(db, cmd, now).entities)
  {
    if cmd.Write? { WriteEntities(db, cmd.change, now); }
  }

  lemma CountNext(mid: Db, cmd: Cmd, now: nat, after: Db)
    requires Counted(mid) && AllDecode(mid.entities) && Sane(cmd) && !cmd.SetCount? && after == Apply(mid, cmd, now)
    ensures Counted(after) && AllDecode(after.entities)
  {
    CountKept(mid, cmd, now);
    ApplyDecodes(mid, cmd, now);
  }

  lemma {:induction false} PrefixCounted(db: Db, cmds: seq<Cmd>, now: int -> nat, k: nat)
    requires Counted(db) && AllDecode(db.entities) && k <= |cmds| && CountSafe(cmds)
    ensures Counted(ApplyPrefix(db, cmds, now, k)) && AllDecode(ApplyPrefix(db, cmds, now, k).entities)
  {
    if k > 0 {
      PrefixCounted(db, cmds, now, k - 1);
      CountNext(ApplyPrefix(db, cmds, now, k - 1), cmds[k - 1], now(k - 1), ApplyPrefix(db, cmds, now, k));
    }
  }

  // --------------------------------------------------------------- trimming

  /** How many entries at the head of the log are older than minId. */
  function Older(log: seq<LogEntry>, minId: nat): (n: nat)
    ensures n <= |log|
    ensures forall i :: 0 <= i < n ==> log[i].id < minId
    ensures n < |log| ==> log[n].id >= minId
  {
    if log == [] || log[0].id >= minId then 0 else 1 + Older(log[1..], minId)
  }

  /** XRANGE - (minId COUNT limit+1, then XTRIM MINID at the last entry returned. */
  function TrimCount(log: seq<LogEntry>, minId: nat, limit: nat): (n: nat)
    ensures n <= limit && (log != [] ==> n < |log|) && n <= |log|
    ensures forall i :: 0 <= i < n ==> log[i].id < minId
  {
    var found := Older(log, minId);
    var batch := if found > limit + 1 then limit + 1 else found;
    if batch == 0 then 0 else batch - 1
  }

  function Trim(db: Db, minId: nat, limit: nat): Db {
    var n := TrimCount(db.log, minId, limit);
    db.(removed := db.removed + db.log[..n], log := db.log[n..])
  }

  lemma MoveCut(a: seq<LogEntry>, b: seq<LogEntry>, n: nat)
    requires n <= |b|
    ensures (a + b[..n]) + b[n..] == a + b
  {
  }

  lemma TrimKeepsHistory(db: Db, minId: nat, limit: nat)
    ensures History(Trim(db, minId, limit)) == History(db)
  {
    MoveCut(db.removed, db.log, TrimCount(db.log, minId, limit));
  }

  lemma TrimValid(db: Db, minId: nat, limit: nat)
    requires Valid(db)
    ensures Valid(Trim(db, minId, limit))
  {
    TrimKeepsHistory(db, minId, limit);
  }

  // ------------------------------------------------------- whole histories

  datatype Op = Command(cmd: Cmd, now: nat) | TrimTo(minId: nat, limit: nat)

  function Perform(db: Db, op: Op): Db {
    match op
    case Command(cmd, now) => Apply(db, cmd, now)
    case TrimTo(minId, limit) => Trim(db, minId, limit)
  }

  function PerformAll(db: Db, ops: seq<Op>): Db {
    if ops == [] then db else Perform(PerformAll(db, ops[..|ops| - 1]), ops[|ops| - 1])
  }

  /** What any operation keeps, failing ones included. */
  predicate Later(before: Db, after: Db) {
    Ordered(after) && after.floor >= before.floor && after.clock >= before.clock
  }

  lemma AppendOrdered(db: Db, c: Change, now: nat)
    requires Ordered(db)
    ensures Later(db, Append(db, c, now))
  {
    var e := LogEntry(NextId(db.clock, now), c);
    assert History(Append(db, c, now)) == History(db) + [e];
    GrownOrder(History(db), e, db.floor, db.clock);
  }

  lemma ApplyOrdered(db: Db, cmd: Cmd, now: nat)
    requires Ordered(db)
    ensures Later(db, Apply(db, cmd, now))
  {
    if cmd.Write? {
      var q, c := cmd.change.qid, cmd.change;
      if c.mappings.Some? {
        var raw := c.mappings.value;
        AppendOrdered(db.(
          entities := db.entities[q := raw],
          index := Reindex(db.index, FormatInt(q), EntriesAt(db.entities, q), Entries(raw)),
          count := if q in db.entities then db.count else db.count + 1), c, now);
      } else if q in db.entities {
        AppendOrdered(db.(
          entities := db.entities - {q},
          index := Retract(db.index, FormatInt(q), Entries(db.entities[q]), {}),
          count := db.count - 1), c, now);
      }
    }
  }

  /** What every command keeps, whatever is written: order, a log of values that decode, and
      values that fit on a line. */
  predicate Tidy(db: Db) { Ordered(db) && LogDecodes(History(db)) && PlainMap(db.entities) }

  predicate PlainCmd(cmd: Cmd) { cmd.Write? ==> PlainChange(cmd.change) }

  lemma ValidIsTidy(db: Db)
    requires Valid(db)
    ensures Tidy(db)
  {
    forall q | q in db.entities ensures Plain(db.entities[q]) { RawIsOneLine(db.entities[q]); }
  }

  /** A write logs nothing, or exactly its change, which decodes then. */
  lemma WriteHistory(db: Db, c: Change, now: nat)
    ensures var h, after := History(db), History(Apply(db, Write(c), now));
            after == h || (after == h + [LogEntry(NextId(db.clock, now), c)] && Decodable(c))
  {
    var h, after := History(db), History(Apply(db, Write(c), now));
    if after != h {
      assert !Fails(db.entities, Write(c)) && Get(db.entities, c.qid) != c.mappings;
      assert after == h + [LogEntry(NextId(db.clock, now), c)];
    }
  }

  lemma LogsDecodable(db: Db, c: Change, now: nat)
    requires LogDecodes(History(db))
    ensures LogDecodes(History(Apply(db, Write(c), now)))
  {
    WriteHistory(db, c, now);
  }

  lemma ApplyTidy(db: Db, cmd: Cmd, now: nat)
    requires Tidy(db) && PlainCmd(cmd)
    ensures Tidy(Apply(db, cmd, now)) && Later(db, Apply(db, cmd, now))
  {
    ApplyOrdered(db, cmd, now);
    if cmd.Write? {
      LogsDecodable(db, cmd.change, now);
      WriteEntities(db, cmd.change, now);
    }
  }

  lemma TrimTidy(db: Db, minId: nat, limit: nat)
    requires Tidy(db)
    ensures Tidy(Trim(db, minId, limit)) && Later(db, Trim(db, minId, limit))
  {
    TrimKeepsHistory(db, minId, limit);
  }

  lemma {:induction false} PerformAllOrdered(db: Db, ops: seq<Op>)
    requires Ordered(db)
    ensures Later(db, PerformAll(db, ops))
  {
    if ops != [] {
      var mid, op := PerformAll(db, ops[..|ops| - 1]), ops[|ops| - 1];
      PerformAllOrdered(db, ops[..|ops| - 1]);
      if op.Command? { ApplyOrdered(mid, op.cmd, op.now); } else { TrimKeepsHistory(mid, op.minId, op.limit); }
    }
  }

  predicate SaneOp(op: Op) { op.Command? ==> Sane(op.cmd) }

  predicate SaneOps(ops: seq<Op>) { forall i :: 0 <= i < |ops| ==> SaneOp(ops[i]) }

  lemma {:induction false} PerformAllValid(db: Db, ops: seq<Op>)
    requires Valid(db) && SaneOps(ops)
    ensures Valid(PerformAll(db, ops))
  {
    if ops != [] {
      var mid, op := PerformAll(db, ops[..|ops| - 1]), ops[|ops| - 1];
      PerformAllValid(db, ops[..|ops| - 1]);
      assert SaneOp(op);
      if op.Command? { ApplyValid(mid, op.cmd, op.now); } else { TrimValid(mid, op.minId, op.limit); }
    }
  }

  predicate Overwrites(op: Op) { op.Command? && op.cmd.SetCount? }

  predicate NeverOverwrites(ops: seq<Op>) { forall i :: 0 <= i < |ops| ==> !Overwrites(ops[i]) }

  predicate NeverTrims(ops: seq<Op>) { forall i :: 0 <= i < |ops| ==> ops[i].Command? }

  lemma {:induction false} PerformAllCounts(db: Db, ops: seq<Op>)
    requires Valid(db) && SaneOps(ops) && db.count == |db.entities| && NeverOverwrites(ops)
    ensures PerformAll(db, ops).count == |PerformAll(db, ops).entities|
  {
    if ops != [] {
      var mid, op := PerformAll(db, ops[..|ops| - 1]), ops[|ops| - 1];
      PerformAllCounts(db, ops[..|ops| - 1]);
      PerformAllValid(db, ops[..|ops| - 1]);
      assert SaneOp(op) && !Overwrites(op);
      if op.Command? { CountKept(mid, op.cmd, op.now); }
    }
  }

  lemma CommandNeverTrims(db: Db, cmd: Cmd, now: nat)
    requires db.removed == []
    ensures Apply(db, cmd, now).removed == []
  {
  }

  lemma {:induction false} NeverTrimmed(db: Db, ops: seq<Op>)
    requires db.removed == [] && NeverTrims(ops)
    ensures PerformAll(db, ops).removed == []
  {
    if ops != [] {
      var op := ops[|ops| - 1];
      NeverTrimmed(db, ops[..|ops| - 1]);
      CommandNeverTrims(PerformAll(db, ops[..|ops| - 1]), op.cmd, op.now);
    }
  }

  lemma UntrimmedReplays(db: Db)
    requires Valid(db) && db.removed == []
    ensures db.entities == Replay(map[], Changes(db.log))
  {
    assert [] + db.log == db.log;
  }

  lemma EmptyValid()
    ensures Valid(EMPTY)
  {
    EmptyAgrees();
  }

  /** From an empty store, after any writes, trims and flushes: ids increase; and as long as
      every written value decodes, everything appended since the last flush replays to the
      entities, the index agrees with them, entity_count counts them while nobody overwrites
      it, and while nothing was trimmed the changelog alone gives the entities. */
  lemma ReachableStore(ops: seq<Op>, db: Db)
    requires db == PerformAll(EMPTY, ops)
    ensures Ordered(db)
    ensures SaneOps(ops) ==> Valid(db)
    ensures SaneOps(ops) && NeverOverwrites(ops) ==> db.count == |db.entities|
    ensures SaneOps(ops) && NeverTrims(ops) ==> db.entities == Replay(map[], Changes(db.log))
  {
    EmptyValid();
    PerformAllOrdered(EMPTY, ops);
    if SaneOps(ops) {
      PerformAllValid(EMPTY, ops);
      if NeverOverwrites(ops) { PerformAllCounts(EMPTY, ops); }
      if NeverTrims(ops) {
        NeverTrimmed(EMPTY, ops);
        UntrimmedReplays(db);
      }
    }
  }

  // ------------------------------------------------- values that do not decode

  /** Decoding is the exact condition: a write to a valid store leaves it valid iff its value
      decodes. */
  lemma WriteValidIff(db: Db, c: Change, now: nat)
    requires Valid(db)
    ensures Valid(Apply(db, Write(c), now)) <==> Decodable(c)
  {
    if Decodable(c) {
      WriteValid(db, c, now);
    } else {
      WriteEntities(db, c, now);
      assert ApplyChange(db.entities, c)[c.qid] == c.mappings.value;
    }
  }

  lemma UnindexedDisagrees(db: Db, q: Qid, good: Raw)
    requires Agrees(db.entities, db.index) && q !in db.entities && Entries(good) != []
    ensures !Agrees(db.entities[q := good], db.index)
  {
    var e := Entries(good)[0];
    AgreesMeans(db.entities, db.index, e, q);
    if Agrees(db.entities[q := good], db.index) { AgreesMeans(db.entities[q := good], db.index, e, q); }
  }

  /** A put that fails, or changes nothing, touches no more than the entity. */
  lemma UnloggedWrite(db: Db, c: Change, now: nat)
    requires c.mappings.Some?
    requires Fails(db.entities, Write(c)) || Get(db.entities, c.qid) == c.mappings
    ensures Apply(db, Write(c), now) == db.(entities := db.entities[c.qid := c.mappings.value])
  {
    if Get(db.entities, c.qid) == c.mappings { assert db.entities[c.qid := c.mappings.value] == db.entities; }
  }

  /** It does not heal: after a value that does not decode was stored for a new entity, writing
      the good value fails once and then counts as unchanged. The entity ends with the good
      value, but without an index entry and a changelog entry. */
  lemma TornValueStays(db: Db, torn: Change, good: Change, t1: nat, t2: nat, t3: nat)
    requires Valid(db) && torn.qid == good.qid && good.qid !in db.entities && !Decodable(torn)
    requires Decodable(good) && good.mappings.Some? && Entries(good.mappings.value) != []
    ensures var d1 := Apply(db, Write(torn), t1);
            var d2 := Apply(d1, Write(good), t2);
            && Fails(db.entities, Write(torn)) && Fails(d1.entities, Write(good))
            && Apply(d2, Write(good), t3) == d2
            && d2 == db.(entities := db.entities[good.qid := good.mappings.value])
            && !Agrees(d2.entities, d2.index)
  {
    var q, raw := good.qid, good.mappings.value;
    var d1 := Apply(db, Write(torn), t1);
    var d2 := Apply(d1, Write(good), t2);
    UnloggedWrite(db, torn, t1);
    UnloggedWrite(d1, good, t2);
    UnloggedWrite(d2, good, t3);
    assert d1.entities[q := raw] == db.entities[q := raw] && d2.entities[q := raw] == d2.entities;
    UnindexedDisagrees(db, q, raw);
    hide Apply, Agrees, Decode;
  }

  // -------------------------------------------------------- retry absorption

  function Puts(batch: seq<Change>): seq<Cmd> {
    if batch == [] then [] else Puts(batch[..|batch| - 1]) + [Write(batch[|batch| - 1])]
  }

  lemma {:induction false} PutsAt(batch: seq<Change>)
    ensures |Puts(batch)| == |batch|
    ensures forall i :: 0 <= i < |batch| ==> Puts(batch)[i] == Write(batch[i])
  {
    if batch != [] { PutsAt(batch[..|batch| - 1]); }
  }

  lemma EntitiesStep(mid: Db, after: Db, m: EntityMap, batch: seq<Change>, k: nat, now: nat)
    requires 0 < k <= |batch| && mid.entities == Replay(m, batch[..k - 1])
    requires after == Apply(mid, Write(batch[k - 1]), now)
    ensures after.entities == Replay(m, batch[..k])
  {
    WriteEntities(mid, batch[k - 1], now);
    ReplayNext(m, batch, k);
  }

  lemma {:induction false} PrefixEntities(db: Db, batch: seq<Change>, now: int -> nat, k: nat)
    requires k <= |batch| == |Puts(batch)|
    ensures ApplyPrefix(db, Puts(batch), now, k).entities == Replay(db.entities, batch[..k])
  {
    if k > 0 {
      PutsAt(batch);
      PrefixEntities(db, batch, now, k - 1);
      EntitiesStep(ApplyPrefix(db, Puts(batch), now, k - 1), ApplyPrefix(db, Puts(batch), now, k),
                   db.entities, batch, k, now(k - 1));
    }
  }
}
