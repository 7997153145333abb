/** What a value that was cut short leaves behind: exactly when a completed download ends with a
    store whose index and changelog do not belong to its entities. */
module Damage {
  import opened Text
  import opened Mappings
  import opened EntityMaps
  import opened ReverseIndex
  import opened Store
  import opened Snapshot
  import opened Replica
  import opened Chain

  // ------------------------------------------------------- index and changelog

  /** What the changelog since the last flush says the entities are. */
  function Logged(db: Db): EntityMap { Replay(map[], Changes(History(db))) }

  /** These changes say one thing of each of these entities. */
  predicate OneValueOf(cs: seq<Change>, qids: set<Qid>) {
    forall c, d :: c in cs && d in cs && c.qid == d.qid && c.qid in qids ==> c == d
  }

  /** An entity of a file, whole or cut short. */
  predicate Supplied(cs: seq<Change>, c: Change) { c.mappings.Some? && (c in cs || !Decodable(c)) }

  /** What cut values did to a store since its last flush: the entities they were written for, and
      whether the store did not have one of those. */
  datatype Harm = Harm(torn: set<Qid>, lost: bool)

  const NO_HARM := Harm({}, false)

  function Harmed(harm: Harm, c: Change, entities: EntityMap): Harm {
    if Decodable(c) then harm else Harm(harm.torn + {c.qid}, harm.lost || c.qid !in entities)
  }

  /** What is logged and what is stored of a file: whole values are those of the file, every other
      entity than a torn one is logged as it is stored, and something is lost iff an entity is
      stored and not logged. */
  ghost predicate Matches(logged: EntityMap, stored: EntityMap, cs: seq<Change>, harm: Harm) {
    && (forall q :: q in logged ==> q in stored && Change(q, Some(logged[q])) in cs)
    && (forall q :: q in stored && Decodes(stored[q]) ==> Change(q, Some(stored[q])) in cs)
    && (forall q :: q in stored && q !in harm.torn ==> Decodes(stored[q]) && q in logged && logged[q] == stored[q])
    && (harm.lost <==> exists q :: q in stored && q !in logged)
  }

  /** A store filled from a file; the index belongs to what is logged. */
  ghost predicate Filled(db: Db, cs: seq<Change>, harm: Harm) {
    Agrees(Logged(db), db.index) && Matches(Logged(db), db.entities, cs, harm)
  }

  lemma EmptyFilled(db: Db, cs: seq<Change>)
    ensures Filled(Flush(db), cs, NO_HARM)
  {
    EmptyAgrees();
    assert Logged(Flush(db)) == map[];
  }

  lemma MatchesUnlogged(logged: EntityMap, stored: EntityMap, cs: seq<Change>, harm: Harm, c: Change)
    requires Matches(logged, stored, cs, harm) && Supplied(cs, c) && (Decodable(c) ==> c.qid in stored)
    requires Get(stored, c.qid) == c.mappings || c.qid in harm.torn || !Decodable(c)
    ensures Matches(logged, stored[c.qid := c.mappings.value], cs, Harmed(harm, c, stored))
  {
    var after := stored[c.qid := c.mappings.value];
    if c.qid !in stored { assert c.qid in after && c.qid !in logged; }
    if q :| q in stored && q !in logged { assert q in after && q !in logged; }
  }

  lemma FilledUnlogged(db: Db, cs: seq<Change>, harm: Harm, c: Change, now: nat)
    requires Filled(db, cs, harm) && Supplied(cs, c)
    requires Fails(db.entities, Write(c)) || Get(db.entities, c.qid) == c.mappings
    ensures Filled(Apply(db, Write(c), now), cs, Harmed(harm, c, db.entities))
  {
    UnloggedWrite(db, c, now);
    var after := Apply(db, Write(c), now);
    assert Logged(after) == Logged(db);
    MatchesUnlogged(Logged(db), db.entities, cs, harm, c);
  }

  /** A write that goes through. */
  predicate GoodWrite(entities: EntityMap, c: Change) {
    c.mappings.Some? && Decodable(c) && Get(entities, c.qid) != c.mappings && !Fails(entities, Write(c))
  }

  lemma GoodUpsert(db: Db, c: Change, now: nat)
    requires GoodWrite(db.entities, c)
    ensures var e, after := LogEntry(NextId(db.clock, now), c), Apply(db, Write(c), now);
            && after.log == db.log + [e] && after.removed == db.removed
            && after.clock == e.id && after.floor == db.floor
            && after.entities == db.entities[c.qid := c.mappings.value]
            && after.index ==
               Reindex(db.index, FormatInt(c.qid), EntriesAt(db.entities, c.qid), Entries(c.mappings.value))
  {
    hide Reindex, Mappings.Decode, EntriesAt;
  }

  lemma LoggedGood(db: Db, c: Change, now: nat)
    requires GoodWrite(db.entities, c)
    ensures Logged(Apply(db, Write(c), now)) == Logged(db)[c.qid := c.mappings.value]
  {
    var e, after := LogEntry(NextId(db.clock, now), c), Apply(db, Write(c), now);
    GoodUpsert(db, c, now);
    hide Apply, GoodWrite, NextId;
    assert db.removed + (db.log + [e]) == (db.removed + db.log) + [e];
    GrownReplays(History(db), e);
  }

  lemma IndexGood(db: Db, c: Change, now: nat)
    requires GoodWrite(db.entities, c) && Agrees(Logged(db), db.index)
    requires Get(Logged(db), c.qid) == Get(db.entities, c.qid)
    ensures Agrees(Logged(db)[c.qid := c.mappings.value], Apply(db, Write(c), now).index)
  {
    hide Agrees, Reindex;
    UpsertAgrees(Logged(db), db.index, c.qid, c.mappings.value);
    assert EntriesAt(Logged(db), c.qid) == EntriesAt(db.entities, c.qid);
  }

  lemma MatchesGood(logged: EntityMap, stored: EntityMap, cs: seq<Change>, harm: Harm, c: Change)
    requires Matches(logged, stored, cs, harm) && c in cs && Decodable(c) && c.mappings.Some?
    requires Get(logged, c.qid) == Get(stored, c.qid)
    ensures Matches(logged[c.qid := c.mappings.value], stored[c.qid := c.mappings.value], cs, harm)
  {
    var after := stored[c.qid := c.mappings.value];
    if q :| q in stored && q !in logged { assert q in after && q !in logged[c.qid := c.mappings.value]; }
  }

  lemma FilledGood(db: Db, cs: seq<Change>, harm: Harm, c: Change, now: nat)
    requires Filled(db, cs, harm) && c in cs && GoodWrite(db.entities, c)
    requires Get(Logged(db), c.qid) == Get(db.entities, c.qid)
    ensures Filled(Apply(db, Write(c), now), cs, harm)
  {
    IndexGood(db, c, now);
    LoggedGood(db, c, now);
    WriteEntities(db, c, now);
    MatchesGood(Logged(db), db.entities, cs, harm, c);
    hide Agrees, Apply, Logged, Matches;
  }

  lemma OnlyValue(db: Db, cs: seq<Change>, harm: Harm, c: Change)
    requires Filled(db, cs, harm) && OneValueOf(cs, harm.torn) && c in cs && c.mappings.Some?
    requires c.qid in harm.torn && c.qid in db.entities && Decodes(db.entities[c.qid])
    ensures Get(db.entities, c.qid) == c.mappings
  {
    assert Change(c.qid, Some(db.entities[c.qid])) == c;
  }

  /** A write of something from the file: what is logged of a torn entity is logged before it is
      torn, or never. */
  lemma FilledWrite(db: Db, cs: seq<Change>, harm: Harm, c: Change, now: nat)
    requires Filled(db, cs, harm) && AllDecodable(cs) && OneValueOf(cs, harm.torn) && Supplied(cs, c)
    ensures Filled(Apply(db, Write(c), now), cs, Harmed(harm, c, db.entities))
  {
    hide Agrees;
    if Decodable(c) && c.qid in harm.torn && c.qid in db.entities && Decodes(db.entities[c.qid]) {
      OnlyValue(db, cs, harm, c);
    }
    if !Decodable(c) || Get(db.entities, c.qid) == c.mappings || Fails(db.entities, Write(c)) {
      FilledUnlogged(db, cs, harm, c, now);
    } else {
      FilledGood(db, cs, harm, c, now);
    }
  }

  /** With all entities of the file stored, the store is valid iff nothing is lost. */
  lemma FilledValidIff(db: Db, cs: seq<Change>, harm: Harm)
    requires Filled(db, cs, harm) && AllDecodable(cs) && OneValueOf(cs, harm.torn) && Tidy(db)
    requires db.entities == Replay(map[], cs)
    ensures Valid(db) <==> !harm.lost
  {
    ReplayDecodes(map[], cs);
    if !harm.lost {
      forall q | q in db.entities ensures q in Logged(db) && Logged(db)[q] == db.entities[q] {
        if q in harm.torn { assert Change(q, Some(db.entities[q])) == Change(q, Some(Logged(db)[q])); }
      }
      assert Logged(db) == db.entities;
    }
  }

  // ------------------------------------------------------------------ one node

  /** What a step of a node does about it; a flush makes up for everything. */
  function HarmAfter(n: Node, mv: Move, was: Harm): Harm {
    if mv.ClientDoes? && mv.move.Exec? && n.client.queue != [] then
      match n.client.queue[0]
      case FlushAll => NO_HARM
      case Write(c) => Harmed(was, c, n.db.entities)
      case _ => was
    else was
  }

  /** The harm a run does to node i. */
  function HarmTo(chain: seq<Node>, moves: seq<(nat, Move)>, i: nat): Harm
    requires i < |chain|
  {
    if moves == [] then NO_HARM
    else
      var n := |moves| - 1;
      var was := HarmTo(chain, moves[..n], i);
      if moves[n].0 == i then HarmAfter(Run(chain, moves[..n])[i], moves[n].1, was) else was
  }

  /** The file a store without a position is filled from: the one being fetched, or the one a
      resume would ask for. */
  predicate FilledFrom(v: View, c: Client, t: nat) {
    if c.mode.Fetching? then t == c.mode.etag
    else if c.mode.Starting? && c.queue != [FlushAll, SetOther] then t == c.mode.etag
    else v.meta.last.None? && HasOffset(v) && v.meta.etag == Some(t)
  }

  predicate AllSupplied(cs: seq<Change>, batch: seq<Change>) {
    forall i :: 0 <= i < |batch| ==> Supplied(cs, batch[i])
  }

  predicate Supplies(cs: seq<Change>, queue: seq<Cmd>) {
    forall i :: 0 <= i < |queue| ==> queue[i].Write? && Supplied(cs, queue[i].change)
  }

  predicate WritesNothing(queue: seq<Cmd>) { forall i :: 0 <= i < |queue| ==> !queue[i].Write? }

  /** What is on its way to the store comes from the file. */
  predicate FromFile(cs: seq<Change>, c: Client) {
    && (c.mode.Fetching? ==> AllSupplied(cs, c.mode.batch))
    && (c.mode.Stopping? ==> Supplies(cs, c.queue))
    && (Supplies(cs, c.queue) || WritesNothing(c.queue))
  }

  predicate WritesOnly(queue: seq<Cmd>) { forall i :: 0 <= i < |queue| ==> queue[i].Write? }

  predicate FlushesNothing(queue: seq<Cmd>) { forall i :: 0 <= i < |queue| ==> !queue[i].FlushAll? }

  /** A pipeline of a fetch writes entities or keeps the books, never both. */
  predicate Uniform(v: View, c: Client) {
    && (c.mode.Fetching? ==> WritesOnly(c.queue) || WritesNothing(c.queue))
    && (c.mode.Stopping? ==> WritesOnly(c.queue) || (v.meta.last.Some? && FlushesNothing(c.queue)))
  }

  /** Of a file of good values: what is on its way comes from it; and as long as it says one thing
      of each torn entity, so does what is stored. */
  ghost predicate FilledBy(up: Node, me: Node, harm: Harm, t: nat) {
    t in up.files && AllDecodable(Records(up.files[t].lines)) ==>
      && FromFile(Records(up.files[t].lines), me.client)
      && (OneValueOf(Records(up.files[t].lines), harm.torn) ==> Filled(me.db, Records(up.files[t].lines), harm))
  }

  ghost predicate FillOk(up: Node, me: Node, harm: Harm) {
    && Uniform(ViewOf(me.db), me.client)
    && forall t :: FilledFrom(ViewOf(me.db), me.client, t) ==> FilledBy(up, me, harm, t)
  }

  // ------------------------------------------------------------------ its steps

  /** Giving up a fetch changes nothing about where the store is filled from. */
  lemma FilledFromGivenUp(up: Node, v: View, c: Client, t: nat)
    requires ClientOk(up, v, c, false) && FilledFrom(v, IDLE, t)
    ensures FilledFrom(v, c, t)
  {
  }

  lemma PutsSupplied(cs: seq<Change>, batch: seq<Change>)
    requires AllSupplied(cs, batch)
    ensures Supplies(cs, Puts(batch))
  {
    PutsAt(batch);
  }

  lemma ItemSupplied(file: File, f: Mode)
    requires f.Fetching? && f.at < |file.lines| && file.lines[f.at].Item? && AllSupplied(Records(file.lines), f.batch)
    ensures AllSupplied(Records(file.lines), ReadItem(f, file.lines[f.at]).batch)
  {
    ItemRecorded(file.lines, f.at);
  }

  lemma FlushSupplied(cs: seq<Change>, f: Mode)
    requires f.Fetching? && AllSupplied(cs, f.batch)
    ensures FromFile(cs, FlushBatch(f))
  {
    PutsSupplied(cs, f.batch);
  }

  lemma TurnSupplied(file: File, f: Mode, fits: bool, parses: bool)
    requires f.Fetching? && AllSupplied(Records(file.lines), f.batch)
    ensures FromFile(Records(file.lines), Turn(file, f, fits, parses))
  {
    var cs := Records(file.lines);
    FlushSupplied(cs, f);
    if !f.final && f.at < |file.lines| && !f.cut && fits && f.done.None? {
      if file.lines[f.at].Item? {
        ItemSupplied(file, f);
        FlushSupplied(cs, ReadItem(f, file.lines[f.at]));
      }
    }
    hide Records, Supplied, FlushBatch;
  }

  lemma PutsUniform(f: Mode)
    requires f.Fetching?
    ensures WritesOnly(FlushBatch(f).queue)
  {
    PutsAt(f.batch);
  }

  lemma TurnUniform(file: File, f: Mode, fits: bool, parses: bool)
    requires f.Fetching?
    ensures var c := Turn(file, f, fits, parses);
            WritesOnly(c.queue) || WritesNothing(c.queue)
  {
    PutsUniform(f);
    if !f.final && f.at < |file.lines| && !f.cut && fits && f.done.None? {
      if file.lines[f.at].Item? { PutsUniform(ReadItem(f, file.lines[f.at])); }
    }
  }

  lemma CutSupplied(file: File, f: Mode, chars: nat)
    requires f.Fetching? && AllDecodable(Records(file.lines)) && AllSupplied(Records(file.lines), f.batch)
    ensures FromFile(Records(file.lines), CutFetch(file, f, chars))
  {
    if !CleanFragment(file, f.at, chars) { TornFails(file, f.at, chars); }
  }

  // Steps that execute nothing.

  lemma UniformAfter(up: Node, me: Node, mv: ClientMove)
    requires LinkOk(up, me, false) && Uniform(ViewOf(me.db), me.client)
    ensures Uniform(ViewOf(me.db), ClientAfter(up, me, mv))
  {
    hide FetchOk, StoredOk;
    var c := me.client;
    if mv.Proceed? && c.queue == [] && c.mode.Fetching? {
      TurnUniform(up.files[c.mode.etag], c.mode, NextFits(up.files[c.mode.etag], c.mode),
                  NextParses(up.files[c.mode.etag], c.mode));
    }
  }

  lemma FilledFromBefore(up: Node, me: Node, mv: ClientMove, t: nat)
    requires LinkOk(up, me, false) && FilledFrom(ViewOf(me.db), ClientAfter(up, me, mv), t)
    ensures FilledFrom(ViewOf(me.db), me.client, t)
  {
    if ClientAfter(up, me, mv) == IDLE { FilledFromGivenUp(up, ViewOf(me.db), me.client, t); }
  }

  lemma FromFileAfter(up: Node, me: Node, mv: ClientMove, t: nat)
    requires LinkOk(up, me, false) && t in up.files && AllDecodable(Records(up.files[t].lines))
    requires FilledFrom(ViewOf(me.db), me.client, t) && FilledFrom(ViewOf(me.db), ClientAfter(up, me, mv), t)
    requires FromFile(Records(up.files[t].lines), me.client)
    ensures FromFile(Records(up.files[t].lines), ClientAfter(up, me, mv))
  {
    hide FetchOk, StoredOk, Supplied;
    var c, file := me.client, up.files[t];
    if c.mode.Fetching? && c.queue == [] {
      match mv
      case Proceed => TurnSupplied(file, c.mode, NextFits(file, c.mode), NextParses(file, c.mode));
      case Cut(chars) => CutSupplied(file, c.mode, chars);
      case _ =>
    }
  }

  lemma FillAfter(up: Node, me: Node, mv: ClientMove, harm: Harm)
    requires LinkOk(up, me, false) && FillOk(up, me, harm)
    ensures FillOk(up, me.(client := ClientAfter(up, me, mv)), harm)
  {
    var next := me.(client := ClientAfter(up, me, mv));
    UniformAfter(up, me, mv);
    forall t | FilledFrom(ViewOf(next.db), next.client, t) ensures FilledBy(up, next, harm, t) {
      FilledFromBefore(up, me, mv, t);
      if t in up.files && AllDecodable(Records(up.files[t].lines)) { FromFileAfter(up, me, mv, t); }
    }
  }

  // One executed command.

  lemma FillFlush(up: Node, me: Node, now: nat, harm: Harm)
    requires LinkOk(up, me, false) && FillOk(up, me, harm) && me.client.queue != [] && me.client.queue[0].FlushAll?
    ensures FillOk(up, ExecStep(me, now), NO_HARM)
  {
    hide Filled;
    var next := ExecStep(me, now);
    forall t | FilledFrom(ViewOf(next.db), next.client, t) ensures FilledBy(up, next, NO_HARM, t) {
      if t in up.files {
        EmptyFilled(me.db, Records(up.files[t].lines));
        if me.client.mode.Fetching? { assert FilledBy(up, me, harm, t); }
      }
    }
  }

  lemma WriteFrom(up: Node, me: Node, now: nat, t: nat)
    requires LinkOk(up, me, false) && Uniform(ViewOf(me.db), me.client)
    requires me.client.queue != [] && me.client.queue[0].Write?
    requires FilledFrom(ViewOf(ExecStep(me, now).db), ExecStep(me, now).client, t)
    ensures FilledFrom(ViewOf(me.db), me.client, t)
  {
    WriteEntities(me.db, me.client.queue[0].change, now);
    if me.client.mode.Fetching? { assert Steady(up.files[me.client.mode.etag], me.client.mode, ViewOf(me.db)); }
  }

  lemma WriteSupplied(cs: seq<Change>, c: Client)
    requires FromFile(cs, c) && c.queue != [] && c.queue[0].Write?
    ensures Supplied(cs, c.queue[0].change) && FromFile(cs, Executed(c)) && FromFile(cs, Refused(c))
  {
    assert Supplies(cs, c.queue[1..]);
  }

  lemma WriteUniform(up: Node, me: Node, now: nat)
    requires LinkOk(up, me, false) && Uniform(ViewOf(me.db), me.client)
    requires me.client.queue != [] && me.client.queue[0].Write?
    ensures Uniform(ViewOf(ExecStep(me, now).db), ExecStep(me, now).client)
  {
    hide FetchOk;
    WriteEntities(me.db, me.client.queue[0].change, now);
  }

  lemma FilledByWrite(up: Node, me: Node, next: Node, harm: Harm, t: nat, c: Change, now: nat)
    requires FilledBy(up, me, harm, t) && me.client.queue != [] && me.client.queue[0] == Write(c)
    requires next.db == Apply(me.db, Write(c), now)
    requires next.client == Executed(me.client) || next.client == Refused(me.client)
    ensures FilledBy(up, next, Harmed(harm, c, me.db.entities), t)
  {
    if t in up.files && AllDecodable(Records(up.files[t].lines)) {
      var cs := Records(up.files[t].lines);
      hide Filled;
      WriteSupplied(cs, me.client);
      if OneValueOf(cs, Harmed(harm, c, me.db.entities).torn) { FilledWrite(me.db, cs, harm, c, now); }
    }
  }

  lemma FillWrite(up: Node, me: Node, now: nat, harm: Harm)
    requires LinkOk(up, me, false) && FillOk(up, me, harm) && me.client.queue != [] && me.client.queue[0].Write?
    ensures FillOk(up, ExecStep(me, now), HarmAfter(me, ClientDoes(Exec(now)), harm))
  {
    var next, c := ExecStep(me, now), me.client.queue[0].change;
    WriteUniform(up, me, now);
    hide FilledBy, LinkOk, Uniform, FilledFrom;
    forall t | FilledFrom(ViewOf(next.db), next.client, t)
      ensures FilledBy(up, next, Harmed(harm, c, me.db.entities), t) {
      WriteFrom(up, me, now, t);
      FilledByWrite(up, me, next, harm, t, c, now);
    }
  }

  lemma OtherFrom(up: Node, me: Node, now: nat, t: nat)
    requires LinkOk(up, me, false) && Uniform(ViewOf(me.db), me.client)
    requires me.client.queue != [] && !me.client.queue[0].Write? && !me.client.queue[0].FlushAll?
    requires FilledFrom(ViewOf(ExecStep(me, now).db), ExecStep(me, now).client, t)
    ensures FilledFrom(ViewOf(me.db), me.client, t)
    ensures ExecStep(me, now).client == Executed(me.client)
  {
  }

  /** Filled depends on the log, the entities and the index only. */
  lemma FilledSame(a: Db, b: Db, cs: seq<Change>, harm: Harm)
    requires Filled(a, cs, harm) && History(b) == History(a) && b.entities == a.entities && b.index == a.index
    ensures Filled(b, cs, harm)
  {
    assert Logged(b) == Logged(a);
  }

  lemma FilledBySame(up: Node, me: Node, next: Node, harm: Harm, t: nat)
    requires FilledBy(up, me, harm, t)
    requires History(next.db) == History(me.db)
    requires next.db.entities == me.db.entities && next.db.index == me.db.index
    requires next.client == me.client || (me.client.queue != [] && next.client == Executed(me.client))
    ensures FilledBy(up, next, harm, t)
  {
    if t in up.files && AllDecodable(Records(up.files[t].lines)) {
      var cs := Records(up.files[t].lines);
      if OneValueOf(cs, harm.torn) { FilledSame(me.db, next.db, cs, harm); }
      if next.client != me.client { FromFileTail(cs, me.client); }
    }
  }

  lemma FromFileTail(cs: seq<Change>, c: Client)
    requires FromFile(cs, c) && c.queue != []
    ensures FromFile(cs, Executed(c))
  {
    if Supplies(cs, c.queue) { assert Supplies(cs, c.queue[1..]); } else { assert WritesNothing(c.queue[1..]); }
  }

  lemma OtherSame(db: Db, cmd: Cmd, now: nat)
    requires !cmd.Write? && !cmd.FlushAll?
    ensures var after := Apply(db, cmd, now);
            History(after) == History(db) && after.entities == db.entities && after.index == db.index
  {
  }

  lemma FillOther(up: Node, me: Node, now: nat, harm: Harm)
    requires LinkOk(up, me, false) && FillOk(up, me, harm) && me.client.queue != []
    requires !me.client.queue[0].Write? && !me.client.queue[0].FlushAll?
    ensures FillOk(up, ExecStep(me, now), harm)
  {
    var next := ExecStep(me, now);
    OtherSame(me.db, me.client.queue[0], now);
    OtherUniform(up, me, now);
    forall t | FilledFrom(ViewOf(next.db), next.client, t) ensures FilledBy(up, next, harm, t) {
      OtherFrom(up, me, now, t);
      FilledBySame(up, me, next, harm, t);
    }
  }

  lemma OtherUniform(up: Node, me: Node, now: nat)
    requires LinkOk(up, me, false) && Uniform(ViewOf(me.db), me.client)
    requires me.client.queue != [] && !me.client.queue[0].Write? && !me.client.queue[0].FlushAll?
    ensures Uniform(ViewOf(ExecStep(me, now).db), ExecStep(me, now).client)
    ensures ExecStep(me, now).client == Executed(me.client)
  {
    assert WritesNothing(me.client.queue) ==> WritesNothing(me.client.queue[1..]);
  }

  lemma FillExec(up: Node, me: Node, now: nat, harm: Harm)
    requires LinkOk(up, me, false) && FillOk(up, me, harm) && me.client.queue != []
    ensures FillOk(up, ExecStep(me, now), HarmAfter(me, ClientDoes(Exec(now)), harm))
  {
    var cmd := me.client.queue[0];
    if cmd.FlushAll? {
      FillFlush(up, me, now, harm);
    } else if cmd.Write? {
      FillWrite(up, me, now, harm);
    } else {
      FillOther(up, me, now, harm);
    }
  }

  // ------------------------------------------------------------- whole runs

  lemma HubSame(me: Node, mv: Move)
    requires !mv.LocalWrite? && !mv.LocalFlush?
    ensures var after := HubStep(me, mv);
            && History(after.db) == History(me.db) && ViewOf(after.db) == ViewOf(me.db)
            && after.db.index == me.db.index && after.client == me.client
  {
    if mv.TrimHead? { TrimKeepsHistory(me.db, mv.minId, mv.limit); }
  }

  lemma FillHub(up: Node, me: Node, mv: Move, harm: Harm)
    requires FillOk(up, me, harm) && !mv.LocalWrite? && !mv.LocalFlush?
    ensures FillOk(up, HubStep(me, mv), harm)
  {
    var next := HubStep(me, mv);
    HubSame(me, mv);
    forall t | FilledFrom(ViewOf(next.db), next.client, t) ensures FilledBy(up, next, harm, t) {
      FilledBySame(up, me, next, harm, t);
    }
  }

  lemma FillUpstream(up: Node, next: Node, me: Node, harm: Harm)
    requires LinkOk(up, me, false) && FillOk(up, me, harm) && MoreFiles(up.files, next.files)
    ensures FillOk(next, me, harm)
  {
    forall t | FilledFrom(ViewOf(me.db), me.client, t) ensures FilledBy(next, me, harm, t) {
      assert FilledBy(up, me, harm, t);
      assert t in up.files;
    }
  }

  lemma FillStep(chain: seq<Node>, sound: seq<bool>, i: nat, j: nat, mv: Move, harm: Harm)
    requires |sound| == |chain| && ChainOk(chain, sound) && Orderly(chain, j, mv)
    requires 0 < i < |chain| && FillOk(chain[i - 1], chain[i], harm)
    ensures var after := Step(chain, j, mv);
            FillOk(after[i - 1], after[i], if j == i then HarmAfter(chain[i], mv, harm) else harm)
  {
    hide FillOk, NodeTidy, NodeOk, LinkOk;
    var up, me := chain[i - 1], chain[i];
    assert LinkOk(up, me, sound[i - 1]);
    WeakerLink(up, me, sound[i - 1]);
    if j == i {
      if mv.ClientDoes? {
        if mv.move.Exec? && me.client.queue != [] {
          FillExec(up, me, mv.move.now, harm);
        } else {
          FillAfter(up, me, mv.move, harm);
        }
      } else if !mv.LocalWrite? && !mv.LocalFlush? {
        FillHub(up, me, mv, harm);
      }
    } else if j == i - 1 {
      NodeStepOk(chain, sound, j, mv);
      FillUpstream(up, NodeStep(chain, j, mv), me, harm);
    }
  }

  lemma {:induction false} WeakerQueue(up: Node, v: View, queue: seq<Cmd>, sound: bool)
    requires QueueSafe(up, v, queue, sound)
    ensures QueueSafe(up, v, queue, false)
    decreases |queue|
  {
    if queue != [] { WeakerQueue(up, ApplyView(v, queue[0]), queue[1..], sound); }
  }

  lemma WeakerLink(up: Node, me: Node, sound: bool)
    requires LinkOk(up, me, sound)
    ensures LinkOk(up, me, false)
  {
    if me.client.mode.Stopping? { WeakerQueue(up, ViewOf(me.db), me.client.queue, sound); }
  }

  lemma {:induction false} FillRun(n: nat, moves: seq<(nat, Move)>, i: nat)
    requires OrderlyRun(NewChain(n), moves) && 0 < i < n
    ensures var chain := Run(NewChain(n), moves);
            FillOk(chain[i - 1], chain[i], HarmTo(NewChain(n), moves, i))
  {
    if moves != [] {
      var k := |moves| - 1;
      FillRun(n, moves[..k], i);
      ChainSafe(n, moves[..k]);
      FillStep(Run(NewChain(n), moves[..k]), Soundness(NewChain(n), moves[..k]), i, moves[k].0, moves[k].1,
               HarmTo(NewChain(n), moves[..k], i));
    }
  }

  /** The exact damage of cut downloads, over whole runs. At the moment a download stores its
      position, the store is valid iff since the last flush no value cut short was written for an
      entity the store did not have. Resuming does not repair it. The file must hold good values,
      and one for each entity that was cut short, as it does unless that entity changed while it
      was scanned and was returned twice. */
  lemma DamageIff(n: nat, moves: seq<(nat, Move)>, i: nat, chain: seq<Node>, file: File, harm: Harm)
    requires OrderlyRun(NewChain(n), moves) && 0 < i < n && chain == Run(NewChain(n), moves)
    requires chain[i].client.mode.Fetching? && chain[i].db.meta.last.Some?
    requires chain[i].client.mode.etag in chain[i - 1].files && file == chain[i - 1].files[chain[i].client.mode.etag]
    requires harm == HarmTo(NewChain(n), moves, i)
    requires AllDecodable(Records(file.lines)) && OneValueOf(Records(file.lines), harm.torn)
    ensures Valid(chain[i].db) <==> !harm.lost
    ensures chain[i].db.entities == Full(file.lines)
  {
    var me := chain[i];
    ChainSafe(n, moves);
    FillRun(n, moves, i);
    assert NodeTidy(me) && LinkOk(chain[i - 1], me, Soundness(NewChain(n), moves)[i - 1]);
    assert FilledBy(chain[i - 1], me, harm, me.client.mode.etag);
    CompletedFetch(file, ViewOf(me.db), me.client);
    hide LinkOk, NodeOk, FillOk, Filled, FetchOk;
    FilledValidIff(me.db, Records(file.lines), harm);
  }

  /** Two values of one entity can repair it: the hypothesis on the file is needed. After a cut
      value, the empty mappings and then others, the store is valid, although something was lost. */
  lemma TwoValuesRepair(db: Db, torn: Change, empty: Change, good: Change, t1: nat, t2: nat, t3: nat)
    requires Valid(db) && torn.qid == empty.qid && empty.qid == good.qid && good.qid !in db.entities
    requires torn.mappings.Some? && !Decodable(torn) && empty.mappings == Some(Canonical([]))
    requires good.mappings.Some? && Decodable(good) && good != empty
    ensures Harmed(NO_HARM, torn, db.entities).lost
    ensures Valid(Apply(Apply(Apply(db, Write(torn), t1), Write(empty), t2), Write(good), t3))
  {
    var d2 := db.(entities := db.entities[good.qid := Canonical([])]);
    UnloggedWrite(db, torn, t1);
    UnloggedWrite(Apply(db, Write(torn), t1), empty, t2);
    assert db.entities[good.qid := torn.mappings.value][good.qid := Canonical([])] == d2.entities;
    WriteValid(db, good, t3);
    FromEmpty(db, d2, good, t3);
  }

  lemma ReindexFromNone(idx: Index, eid: string, next: seq<Entry>)
    ensures Reindex(idx, eid, Some([]), next) == Reindex(idx, eid, None, next)
  {
    assert Members([]) == {};
  }

  lemma ValidAlike(a: Db, b: Db)
    requires Valid(a) && b.entities == a.entities && b.index == a.index && History(b) == History(a)
    requires b.clock == a.clock && b.floor == a.floor
    ensures Valid(b)
  {
  }

  /** Setting mappings over none edits the index and the changelog like setting them anew. */
  lemma FromEmpty(db: Db, d2: Db, good: Change, now: nat)
    requires good.qid !in db.entities && good.mappings.Some? && Decodable(good)
    requires d2 == db.(entities := db.entities[good.qid := Canonical([])]) && good.mappings.value != Canonical([])
    requires Valid(Apply(db, Write(good), now))
    ensures Valid(Apply(d2, Write(good), now))
  {
    var q, next := good.qid, Entries(good.mappings.value);
    GoodUpsert(db, good, now);
    GoodUpsert(d2, good, now);
    assert EntriesAt(d2.entities, q) == Some([]) && EntriesAt(db.entities, q) == None;
    ReindexFromNone(db.index, FormatInt(q), next);
    hide Apply, Reindex, Entries, Valid;
    assert d2.entities[q := good.mappings.value] == db.entities[q := good.mappings.value];
    ValidAlike(Apply(db, Write(good), now), Apply(d2, Write(good), now));
  }
}
