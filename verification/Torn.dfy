/** The damage is real: a run that ends at the end of the upstream's changelog with another index. */
module Torn {
  import opened Text
  import opened Mappings
  import opened EntityMaps
  import opened ReverseIndex
  import opened Store
  import opened Stream
  import opened Snapshot
  import opened Replica
  import opened Link
  import opened Chain
  import opened Completion
  import opened Damage

  // ------------------------------------------------------------ runs of a client

  /** The moves of one client while its upstream stands still. */
  function ClientRun(up: Node, me: Node, moves: seq<ClientMove>): Node
    decreases |moves|
  {
    if moves == [] then me else ClientRun(up, ClientStep(up, me, moves[0]), moves[1..])
  }

  ghost predicate Reaches(up: Node, me: Node, end: Node) {
    exists moves: seq<ClientMove> :: ClientRun(up, me, moves) == end
  }

  lemma Stays(up: Node, me: Node)
    ensures Reaches(up, me, me)
  {
    assert ClientRun(up, me, []) == me;
  }

  lemma Moves(up: Node, me: Node, mv: ClientMove)
    ensures Reaches(up, me, ClientStep(up, me, mv))
  {
    assert [mv][1..] == [];
    assert ClientRun(up, me, [mv]) == ClientStep(up, me, mv);
  }

  lemma {:induction false} RunAppend(up: Node, me: Node, a: seq<ClientMove>, b: seq<ClientMove>)
    ensures ClientRun(up, me, a + b) == ClientRun(up, ClientRun(up, me, a), b)
    decreases |a|
  {
    if a == [] {
      assert a + b == b;
    } else {
      assert (a + b)[1..] == a[1..] + b;
      RunAppend(up, ClientStep(up, me, a[0]), a[1..], b);
    }
  }

  lemma Onwards(up: Node, a: Node, b: Node, c: Node)
    requires Reaches(up, a, b) && Reaches(up, b, c)
    ensures Reaches(up, a, c)
  {
    var m :| ClientRun(up, a, m) == b;
    var n :| ClientRun(up, b, n) == c;
    RunAppend(up, a, m, n);
  }

  // ---------------------------------------------------------- a hidden entity

  /** Stored, and neither logged nor indexed. */
  predicate Hidden(db: Db, q: Qid) { q in db.entities && q !in Logged(db) }

  lemma LoggedElsewhere(db: Db, c: Change, now: nat, q: Qid)
    requires q != c.qid
    ensures Hidden(Apply(db, Write(c), now), q) <==> Hidden(db, q)
  {
    var after := Apply(db, Write(c), now);
    WriteEntities(db, c, now);
    WriteHistory(db, c, now);
    hide Apply;
    if History(after) != History(db) { GrownReplays(History(db), LogEntry(NextId(db.clock, now), c)); }
  }

  /** What the file says of it changes nothing about that. */
  lemma HiddenWrite(db: Db, cs: seq<Change>, harm: Harm, c: Change, now: nat, q: Qid)
    requires Filled(db, cs, harm) && OneValueOf(cs, {q}) && Supplied(cs, c) && Hidden(db, q)
    ensures Hidden(Apply(db, Write(c), now), q)
  {
    if q != c.qid {
      LoggedElsewhere(db, c, now, q);
    } else {
      if Decodable(c) && Decodes(db.entities[q]) { assert Change(q, Some(db.entities[q])) == c; }
      UnloggedWrite(db, c, now);
      assert Logged(Apply(db, Write(c), now)) == Logged(db);
    }
  }

  lemma HiddenDiffers(up: Db, db: Db, cs: seq<Change>, harm: Harm, q: Qid)
    requires Valid(up) && Filled(db, cs, harm) && Hidden(db, q) && db.entities == up.entities
    requires Entries(db.entities[q]) != []
    ensures db.index != up.index
  {
    var e := Entries(db.entities[q])[0];
    AgreesMeans(up.entities, up.index, e, q);
    AgreesMeans(Logged(db), db.index, e, q);
  }

  // ------------------------------------------------------------- one fetch

  /** The harm of a run that cuts at most q. */
  function HarmOf(q: Qid, lost: bool): Harm { if lost then Harm({q}, true) else NO_HARM }

  /** A file of good values, with one for q. */
  predicate GoodFor(up: Node, t: nat, q: Qid) {
    t in up.files && AllDecodable(Records(up.files[t].lines)) && OneValueOf(Records(up.files[t].lines), {q})
  }

  /** A replica in the middle of fetching file t, which may have lost q. */
  ghost predicate Fine(up: Node, me: Node, t: nat, q: Qid, lost: bool) {
    && NodeTidy(me) && LinkOk(up, me, true) && FillOk(up, me, HarmOf(q, lost)) && GoodFor(up, t, q)
    && (lost ==> Hidden(me.db, q))
  }

  lemma QuietStep(up: Node, me: Node, t: nat, q: Qid, lost: bool, mv: ClientMove)
    requires NodeOk(up) && Fine(up, me, t, q, lost) && CleanStream(up, me.client, mv)
    requires mv.Exec? ==> me.client.queue == []
    ensures Fine(up, ClientStep(up, me, mv), t, q, lost) && Reaches(up, me, ClientStep(up, me, mv))
  {
    ClientPasses(up, me, mv, false);
    ClientKeepsLink(up, me, mv, true);
    WeakerLink(up, me, true);
    FillAfter(up, me, mv, HarmOf(q, lost));
    Moves(up, me, mv);
  }

  /** Whether q is lost after a command: a cut value of it is written while it is absent. */
  predicate LosesQ(me: Node, lost: bool)
    requires me.client.queue != []
  {
    var cmd := me.client.queue[0];
    !cmd.FlushAll? && (lost || (cmd.Write? && !Decodable(cmd.change)))
  }

  /** The commands of such a run: cut values only of q, and only while it is absent. */
  predicate CutsOnly(me: Node, t: nat, q: Qid, lost: bool)
    requires me.client.queue != []
  {
    var cmd := me.client.queue[0];
    cmd.Write? ==>
      && FilledFrom(ViewOf(me.db), me.client, t)
      && (!Decodable(cmd.change) ==> cmd.change.qid == q && q !in me.db.entities && !lost)
  }

  lemma CommandHarms(me: Node, t: nat, q: Qid, lost: bool, now: nat)
    requires me.client.queue != [] && CutsOnly(me, t, q, lost)
    ensures HarmAfter(me, ClientDoes(Exec(now)), HarmOf(q, lost)) == HarmOf(q, LosesQ(me, lost))
  {
    var nobody: set<Qid> := {};
    assert nobody + {q} == {q};
  }

  /** Executing a command. */
  lemma CommandStep(up: Node, me: Node, t: nat, q: Qid, lost: bool, now: nat)
    requires NodeOk(up) && Fine(up, me, t, q, lost) && me.client.queue != [] && CutsOnly(me, t, q, lost)
    ensures Fine(up, ExecStep(me, now), t, q, LosesQ(me, lost)) && Reaches(up, me, ExecStep(me, now))
  {
    ClientPasses(up, me, Exec(now), false);
    ClientKeepsLink(up, me, Exec(now), true);
    WeakerLink(up, me, true);
    FillExec(up, me, now, HarmOf(q, lost));
    CommandHarms(me, t, q, lost, now);
    Moves(up, me, Exec(now));
    if LosesQ(me, lost) { CommandHides(up, me, t, q, lost, now); }
  }

  lemma CommandHides(up: Node, me: Node, t: nat, q: Qid, lost: bool, now: nat)
    requires Fine(up, me, t, q, lost) && me.client.queue != [] && CutsOnly(me, t, q, lost) && LosesQ(me, lost)
    ensures Hidden(ExecStep(me, now).db, q)
  {
    hide NodeTidy, LinkOk;
    var cmd, cs := me.client.queue[0], Records(up.files[t].lines);
    if cmd.Write? {
      assert FilledBy(up, me, HarmOf(q, lost), t);
      WriteSupplied(cs, me.client);
      if lost {
        HiddenWrite(me.db, cs, HarmOf(q, lost), cmd.change, now, q);
      } else {
        UnloggedWrite(me.db, cmd.change, now);
        assert Logged(Apply(me.db, cmd, now)) == Logged(me.db);
      }
    } else {
      OtherSame(me.db, cmd, now);
      assert Logged(Apply(me.db, cmd, now)) == Logged(me.db);
    }
  }

  /** A queue of good commands is executed to its end. */
  lemma {:induction false} Drains(up: Node, me: Node, t: nat, q: Qid, lost: bool) returns (end: Node)
    requires NodeOk(up) && Fine(up, me, t, q, lost) && me.client.mode.Fetching? && me.client.mode.etag == t
    requires GoesThrough(ViewOf(me.db), me.client.queue) && AllSane(me.client.queue)
    requires FlushesNothing(me.client.queue)
    ensures Reaches(up, me, end) && Fine(up, end, t, q, lost) && end.client == me.client.(queue := [])
    ensures ViewOf(end.db) == RunView(ViewOf(me.db), me.client.queue)
    decreases |me.client.queue|
  {
    hide Fine, NodeOk, Reaches;
    if me.client.queue == [] {
      end := me;
      Stays(up, me);
    } else {
      var next := ExecStep(me, 0);
      assert Sane(me.client.queue[0]) && !me.client.queue[0].FlushAll?;
      CommandStep(up, me, t, q, lost, 0);
      ViewOfApply(me.db, me.client.queue[0], 0);
      end := Drains(up, next, t, q, lost);
      Onwards(up, me, next, end);
    }
  }

  lemma {:induction false} RunDecodes(v: View, queue: seq<Cmd>)
    requires AllDecode(v.entities) && AllSane(queue)
    ensures AllDecode(RunView(v, queue).entities)
    decreases |queue|
  {
    if queue != [] {
      assert Sane(queue[0]);
      RunDecodes(ApplyView(v, queue[0]), queue[1..]);
    }
  }

  lemma AllReplaceable(m: EntityMap, cs: seq<Change>)
    requires AllDecode(m)
    ensures Replaceable(m, cs)
  {
  }

  lemma PutsFlushNothing(f: Mode)
    requires f.Fetching?
    ensures FlushesNothing(FlushBatch(f).queue)
  {
    PutsAt(f.batch);
  }

  lemma TurnFlushesNothing(file: File, f: Mode, fits: bool, parses: bool)
    requires f.Fetching?
    ensures FlushesNothing(Turn(file, f, fits, parses).queue)
  {
    PutsFlushNothing(f);
    if !f.final && f.at < |file.lines| && !f.cut && fits && f.done.None? {
      if file.lines[f.at].Item? { PutsFlushNothing(ReadItem(f, file.lines[f.at])); }
    }
  }

  /** The replica is at this point of the file, with good values and nothing queued. */
  ghost predicate Reading(up: Node, me: Node, t: nat, q: Qid, lost: bool) {
    && NodeOk(up) && Fine(up, me, t, q, lost) && AllAcceptable(up.files[t].lines)
    && me.client.mode.Fetching? && me.client.mode.etag == t && me.client.queue == []
    && Ongoing(up.files[t], ViewOf(me.db), me.client.mode) && AllDecode(me.db.entities)
  }

  /** A turn over good values goes through. */
  lemma TurnGood(file: File, v: View, f: Mode, c: Client)
    requires f.Fetching? && Ongoing(file, v, f) && !f.final && AllAcceptable(file.lines) && AllDecode(v.entities)
    requires c == FetchLine(file, f)
    ensures c != IDLE && GoesThrough(v, c.queue) && AllSane(c.queue) && FlushesNothing(c.queue)
    ensures c.mode.Fetching? && c.mode.etag == f.etag
    ensures Ongoing(file, RunView(v, c.queue), c.mode) && AllDecode(RunView(v, c.queue).entities)
  {
    AcceptsLine(file, v, f);
    TurnReplaces(file, v, f);
    AllReplaceable(v.entities, Pending(file, f));
    TurnClean(file, f, NextFits(file, f), NextParses(file, f));
    TurnFlushesNothing(file, f, NextFits(file, f), NextParses(file, f));
    NextTurn(file, v, f, c, RunView(v, c.queue));
    RunDecodes(v, c.queue);
  }

  lemma ProceedFetch(up: Node, me: Node)
    requires me.client.mode.Fetching? && me.client.mode.etag in up.files && me.client.queue == []
    ensures ClientStep(up, me, Proceed) == me.(client := FetchLine(up.files[me.client.mode.etag], me.client.mode))
  {
  }

  lemma TurnBegins(up: Node, me: Node, t: nat, q: Qid, lost: bool, next: Node)
    requires NodeOk(up) && Fine(up, me, t, q, lost)
    requires me.client.mode.Fetching? && me.client.mode.etag == t && me.client.queue == []
    requires next == me.(client := FetchLine(up.files[t], me.client.mode))
    ensures Fine(up, next, t, q, lost) && Reaches(up, me, next)
  {
    ProceedFetch(up, me);
    QuietStep(up, me, t, q, lost, Proceed);
  }

  /** One turn of the loop. */
  lemma Turns(up: Node, me: Node, t: nat, q: Qid, lost: bool) returns (end: Node)
    requires Reading(up, me, t, q, lost) && !me.client.mode.final
    ensures var c := FetchLine(up.files[t], me.client.mode);
            && c != IDLE && c.mode.Fetching? && end.client.mode == c.mode
            && ViewOf(end.db) == RunView(ViewOf(me.db), c.queue)
    ensures Reaches(up, me, end) && Reading(up, end, t, q, lost)
  {
    assert t in up.files;
    hide NodeOk, Reaches, Fine;
    var c := FetchLine(up.files[t], me.client.mode);
    TurnGood(up.files[t], ViewOf(me.db), me.client.mode, c);
    var next := me.(client := c);
    TurnBegins(up, me, t, q, lost, next);
    end := Drains(up, next, t, q, lost);
    Onwards(up, me, next, end);
    TurnEnds(up, end, t, q, lost, c, ViewOf(me.db));
  }

  lemma TurnEnds(up: Node, end: Node, t: nat, q: Qid, lost: bool, c: Client, v: View)
    requires NodeOk(up) && Fine(up, end, t, q, lost) && AllAcceptable(up.files[t].lines)
    requires c.mode.Fetching? && c.mode.etag == t && end.client == c.(queue := [])
    requires ViewOf(end.db) == RunView(v, c.queue)
    requires Ongoing(up.files[t], RunView(v, c.queue), c.mode) && AllDecode(RunView(v, c.queue).entities)
    ensures Reading(up, end, t, q, lost)
  {
  }

  // ------------------------------------------------------- up to a checkpoint

  /** Everything stored or read is from these changes. */
  predicate Known(cs: seq<Change>, m: EntityMap, batch: seq<Change>) {
    (forall p :: p in m ==> Writes(cs, p)) && (forall i :: 0 <= i < |batch| ==> Writes(cs, batch[i].qid))
  }

  lemma {:induction false} KnownFlushed(cs: seq<Change>, m: EntityMap, batch: seq<Change>)
    requires Known(cs, m, batch)
    ensures Known(cs, Replay(m, batch), [])
  {
    if batch != [] {
      var n := |batch| - 1;
      assert Writes(cs, batch[n].qid);
      assert Known(cs, m, batch[..n]);
      KnownFlushed(cs, m, batch[..n]);
    }
  }

  lemma KnownMore(lines: seq<Line>, at: nat, m: EntityMap, batch: seq<Change>)
    requires at < |lines| && Known(Records(lines[..at]), m, batch)
    ensures Known(Records(lines[..at + 1]), m, batch)
    ensures lines[at].Item? ==>
              Known(Records(lines[..at + 1]), m, batch + [Change(lines[at].qid, Some(lines[at].raw))])
  {
    var cs, more := Records(lines[..at]), Records(lines[at..at + 1]);
    RecordsFrom(lines, at);
    RecordsOfOne(lines, at);
    forall p | Writes(cs, p) ensures Writes(cs + more, p) { WritesPart(cs, more, p); }
    if lines[at].Item? { assert (cs + more)[|cs|].qid == lines[at].qid; }
  }

  /** A fetch on its way to the line after checkpoint k, where everything read is stored. */
  predicate Towards(file: File, v: View, f: Mode, k: nat)
    requires f.Fetching? && k < |file.lines| && file.lines[k].Checkpoint?
  {
    && f.at <= k + 1 && f.done.None? && !f.final && !f.cut
    && v.meta.etag == Some(f.etag) && v.meta.last.None?
    && Known(Records(file.lines[..f.at]), v.entities, f.batch)
    && (f.at == k + 1 ==>
          f.batch == [] && v.meta.offset == Some(file.lines[k].offset) && v.meta.applied == Some(file.lines[k].before))
  }

  lemma TowardsFlush(file: File, v: View, f: Mode, k: nat)
    requires f.Fetching? && k < |file.lines| && file.lines[k].Checkpoint? && f.at <= k
    requires Towards(file, v, f, k)
    ensures Towards(file, RunView(v, FlushBatch(f).queue), FlushBatch(f).mode, k)
  {
    RunPuts(v, f.batch);
    KnownFlushed(Records(file.lines[..f.at]), v.entities, f.batch);
  }

  lemma TowardsItem(file: File, v: View, f: Mode, k: nat)
    requires f.Fetching? && k < |file.lines| && file.lines[k].Checkpoint? && f.at <= k && file.lines[f.at].Item?
    requires Towards(file, v, f, k)
    ensures Towards(file, v, ReadItem(f, file.lines[f.at]), k) && f.at < k
  {
    KnownMore(file.lines, f.at, v.entities, f.batch);
  }

  lemma RunBooks(v: View, o: int, n: int)
    ensures RunView(v, [SetOffset(o), SetApplied(n)]) == v.(meta := v.meta.(offset := Some(o), applied := Some(n)))
  {
    assert [SetOffset(o), SetApplied(n)][1..] == [SetApplied(n)];
    RunOne(ApplyView(v, SetOffset(o)), SetApplied(n));
  }

  lemma TowardsMark(file: File, v: View, f: Mode, k: nat)
    requires f.Fetching? && k < |file.lines| && file.lines[k].Checkpoint? && f.at <= k
    requires file.lines[f.at].Checkpoint? && f.batch == [] && Towards(file, v, f, k)
    ensures var line := file.lines[f.at];
            Towards(file, RunView(v, [SetOffset(line.offset), SetApplied(line.before)]), f.(at := f.at + 1), k)
  {
    KnownMore(file.lines, f.at, v.entities, []);
    RunBooks(v, file.lines[f.at].offset, file.lines[f.at].before);
  }

  lemma TowardsTurn(file: File, v: View, f: Mode, k: nat, c: Client)
    requires f.Fetching? && k + 1 < |file.lines| && file.lines[k].Checkpoint? && f.at <= k
    requires !file.lines[f.at].Done? && Acceptable(file.lines[f.at]) && Towards(file, v, f, k)
    requires c == FetchLine(file, f) && c.mode.Fetching?
    ensures Towards(file, RunView(v, c.queue), c.mode, k)
  {
    hide Known, Records;
    if file.lines[f.at].Item? {
      var more := ReadItem(f, file.lines[f.at]);
      TowardsItem(file, v, f, k);
      if |more.batch| >= SNAPSHOT_BATCH_SIZE { TowardsFlush(file, v, more, k); }
    } else if f.batch != [] {
      TowardsFlush(file, v, f, k);
    } else {
      TowardsMark(file, v, f, k);
    }
  }

  lemma NotDoneYet(file: File, v: View, f: Mode, k: nat)
    requires f.Fetching? && Ongoing(file, v, f) && AllAcceptable(file.lines)
    requires k + 1 < |file.lines| && file.lines[k].Checkpoint? && Towards(file, v, f, k) && f.at <= k
    ensures !file.lines[f.at].Done? && Acceptable(file.lines[f.at]) && !f.final
  {
  }

  /** One turn towards it. */
  lemma ReadsOn(up: Node, me: Node, t: nat, q: Qid, lost: bool, k: nat) returns (next: Node)
    requires Reading(up, me, t, q, lost) && k + 1 < |up.files[t].lines| && up.files[t].lines[k].Checkpoint?
    requires Towards(up.files[t], ViewOf(me.db), me.client.mode, k) && me.client.mode.at <= k
    ensures Reaches(up, me, next) && Reading(up, next, t, q, lost)
    ensures Towards(up.files[t], ViewOf(next.db), next.client.mode, k)
    ensures var f, g := me.client.mode, next.client.mode;
            g.at > f.at || (g.at == f.at && |g.batch| < |f.batch|)
  {
    var file, f := up.files[t], me.client.mode;
    NotDoneYet(file, ViewOf(me.db), f, k);
    hide Fine, NodeOk, Reaches, Ongoing;
    next := Turns(up, me, t, q, lost);
    TowardsTurn(file, ViewOf(me.db), f, k, FetchLine(file, f));
    FetchMoves(file, f);
  }

  /** A fetch reaches the line after any checkpoint. */
  lemma {:induction false} ReadsTo(up: Node, me: Node, t: nat, q: Qid, lost: bool, k: nat) returns (end: Node)
    requires Reading(up, me, t, q, lost) && k + 1 < |up.files[t].lines| && up.files[t].lines[k].Checkpoint?
    requires Towards(up.files[t], ViewOf(me.db), me.client.mode, k)
    ensures Reaches(up, me, end) && Reading(up, end, t, q, lost) && end.client.mode.at == k + 1
    ensures Towards(up.files[t], ViewOf(end.db), end.client.mode, k)
    decreases |up.files[t].lines| - me.client.mode.at, |me.client.mode.batch|
  {
    assert t in up.files && me.client.mode.Fetching?;
    hide Fine, NodeOk, Reaches, Ongoing, Known;
    if me.client.mode.at == k + 1 {
      end := me;
      Stays(up, me);
    } else {
      var next := ReadsOn(up, me, t, q, lost, k);
      end := ReadsTo(up, next, t, q, lost, k);
      Onwards(up, me, next, end);
    }
  }

  /** A fetch that nothing disturbs any more completes. */
  lemma {:induction false} Finishes(up: Node, me: Node, t: nat, q: Qid, lost: bool) returns (end: Node)
    requires Reading(up, me, t, q, lost)
    ensures Reaches(up, me, end) && Fine(up, end, t, q, lost)
    ensures end.db.meta.last == Some(up.files[t].position) && end.db.entities == Full(up.files[t].lines)
    ensures FilledFrom(ViewOf(end.db), end.client, t)
    decreases Left(up.files[t], me.client.mode), |me.client.mode.batch|, !me.client.mode.final
  {
    hide NodeOk, Reaches, Known;
    if me.client.mode.final {
      end := me;
      Stays(up, me);
      CompletedFetch(up.files[t], ViewOf(me.db), Client(me.client.mode, [], true));
    } else {
      var next := Turns(up, me, t, q, lost);
      FetchMoves(up.files[t], me.client.mode);
      end := Finishes(up, next, t, q, lost);
      Onwards(up, me, next, end);
    }
  }

  // ----------------------------------------------------------------- beginning

  /** The upstream offers this file, and it is the state of its whole changelog. */
  predicate Offers(up: Node, t: nat) {
    && up.current == Some(t) && t in up.files && up.db.log != [] && up.files[t].position == Last(up.db.log)
    && AllAcceptable(up.files[t].lines) && AllDecodable(Records(up.files[t].lines))
  }

  lemma OffersCovered(up: Node, t: nat)
    requires NodeOk(up) && Offers(up, t)
    ensures Covered(up.db.log, up.files[t].position)
  {
    LastCovered(up.db);
  }

  lemma BooksQueue(v: View, queue: seq<Cmd>)
    requires forall i :: 0 <= i < |queue| ==> Bookkeeping(queue[i])
    ensures GoesThrough(v, queue) && AllSane(queue) && FlushesNothing(queue)
  {
    NoWritesRun(v, queue);
  }

  lemma FreshView(t: nat)
    ensures RunView(View(map[], NO_META), Fresh(t).queue) == View(map[], Meta(None, Some(t), Some(0), Some(0)))
  {
    var q := Fresh(t).queue;
    assert q == [SetEtag(t)] + [SetOffset(0), SetApplied(0)];
    RunConcat(View(map[], NO_META), [SetEtag(t)], [SetOffset(0), SetApplied(0)]);
    RunOne(View(map[], NO_META), SetEtag(t));
    RunBooks(View(map[], Meta(None, Some(t), None, None)), 0, 0);
  }

  lemma BeginsOver(up: Node, me: Node, t: nat)
    requires Offers(up, t) && Covered(up.db.log, up.files[t].position) && me.client == IDLE && me.db.meta == NO_META
    ensures ClientStep(up, me, Begin(false)) == me.(client := Client(Starting(t), [FlushAll, SetOther], true))
  {
  }

  lemma ClearSteps(me: Node, t: nat)
    requires me.client == Client(Starting(t), [FlushAll, SetOther], true)
    ensures var flushed := ExecStep(me, 0);
            && flushed.client == Client(Starting(t), [SetOther], true)
            && ExecStep(flushed, 0).client == Client(Starting(t), [], true)
            && ViewOf(ExecStep(flushed, 0).db) == View(map[], NO_META)
  {
    assert [FlushAll, SetOther][1..] == [SetOther] && [SetOther][1..] == [];
  }

  lemma Clears(up: Node, me: Node, t: nat, q: Qid) returns (end: Node)
    requires NodeOk(up) && Fine(up, me, t, q, false) && me.client == Client(Starting(t), [FlushAll, SetOther], true)
    ensures Reaches(up, me, end) && Fine(up, end, t, q, false)
    ensures end.client == Client(Starting(t), [], true) && ViewOf(end.db) == View(map[], NO_META)
  {
    hide Fine, NodeOk, Reaches;
    var flushed := ExecStep(me, 0);
    ClearSteps(me, t);
    CommandStep(up, me, t, q, false, 0);
    CommandStep(up, flushed, t, q, false, 0);
    end := ExecStep(flushed, 0);
    Onwards(up, me, flushed, end);
  }

  lemma NewIsFine(up: Node, me: Node, t: nat, q: Qid)
    requires NodeTidy(me) && GoodFor(up, t, q) && me.client == IDLE && me.db.meta == NO_META
    ensures Fine(up, me, t, q, false)
  {
    hide Tidy, FileTidy, ScanTidy;
  }

  /** A new replica, after its flush. */
  lemma Flushes(up: Node, me: Node, t: nat, q: Qid) returns (end: Node)
    requires NodeOk(up) && NodeTidy(me) && Offers(up, t) && GoodFor(up, t, q)
    requires me.client == IDLE && me.db.meta == NO_META
    ensures Reaches(up, me, end) && Fine(up, end, t, q, false)
    ensures end.client == Client(Starting(t), [], true) && ViewOf(end.db) == View(map[], NO_META)
  {
    hide Fine, NodeOk, Reaches;
    OffersCovered(up, t);
    NewIsFine(up, me, t, q);
    BeginsOver(up, me, t);
    QuietStep(up, me, t, q, false, Begin(false));
    var begun := ClientStep(up, me, Begin(false));
    end := Clears(up, begun, t, q);
    Onwards(up, me, begun, end);
  }

  lemma FreshBooks(up: Node, me: Node, t: nat, q: Qid) returns (end: Node)
    requires NodeOk(up) && Fine(up, me, t, q, false) && me.client == Fresh(t) && ViewOf(me.db) == View(map[], NO_META)
    ensures Reaches(up, me, end) && Fine(up, end, t, q, false) && end.client == Fresh(t).(queue := [])
    ensures ViewOf(end.db) == View(map[], Meta(None, Some(t), Some(0), Some(0)))
  {
    hide Fine, NodeOk, Reaches;
    BooksQueue(ViewOf(me.db), Fresh(t).queue);
    FreshView(t);
    end := Drains(up, me, t, q, false);
  }

  lemma FreshReads(up: Node, end: Node, t: nat, q: Qid)
    requires NodeOk(up) && Offers(up, t) && Fine(up, end, t, q, false) && end.client == Fresh(t).(queue := [])
    requires ViewOf(end.db) == View(map[], Meta(None, Some(t), Some(0), Some(0)))
    ensures Reading(up, end, t, q, false)
  {
    assert FileTidy(up.db, up.files[t]);
    FreshStarts(t, up.files[t]);
    FreshView(t);
  }

  /** A new replica begins with the first line. */
  lemma Begins(up: Node, me: Node, t: nat, q: Qid) returns (end: Node)
    requires NodeOk(up) && NodeTidy(me) && Offers(up, t) && GoodFor(up, t, q)
    requires me.client == IDLE && me.db.meta == NO_META
    ensures Reaches(up, me, end) && Reading(up, end, t, q, false)
    ensures end.client.mode == Fresh(t).mode
    ensures ViewOf(end.db) == View(map[], Meta(None, Some(t), Some(0), Some(0)))
  {
    hide Fine, NodeOk, Reaches, Reading;
    var cleared := Flushes(up, me, t, q);
    var started := ClientStep(up, cleared, Proceed);
    QuietStep(up, cleared, t, q, false, Proceed);
    end := FreshBooks(up, started, t, q);
    Onwards(up, me, cleared, started);
    Onwards(up, me, started, end);
    FreshReads(up, end, t, q);
  }

  // -------------------------------------------------------------- interrupted

  /** An interrupted replica that will resume at checkpoint k of file t. */
  ghost predicate AtRest(up: Node, me: Node, t: nat, q: Qid, lost: bool, k: nat) {
    && NodeOk(up) && Offers(up, t) && Fine(up, me, t, q, lost) && me.client == IDLE
    && 0 < k < |up.files[t].lines| && up.files[t].lines[k].Checkpoint?
    && var line := up.files[t].lines[k];
       me.db.meta == Meta(None, Some(t), Some(line.offset), Some(line.before))
  }

  lemma OffsetPositive(file: File, k: nat)
    requires WellFormedFile(file.lines, file.position) && 0 < k < |file.lines| && file.lines[k].Checkpoint?
    ensures file.lines[k].offset > 0 && FindCheckpoint(file.lines, file.lines[k].offset) == k
    ensures file.lines[k].before == |Records(file.lines[..k])|
  {
    assert file.lines[0].Checkpoint?;
    FindsIt(file.lines, k, file.lines[k].offset);
  }

  function ResumedAt(file: File, t: nat, k: nat): (c: Client)
    requires k < |file.lines| && file.lines[k].Checkpoint?
    ensures c.mode.Fetching? && c.mode.etag == t && c.mode.at == k
  {
    Resumed(t, k, file.lines[k].offset, file.lines[k].before)
  }

  /** After the checkpoint line. */
  function PastMark(file: File, t: nat, k: nat): Client
    requires k < |file.lines| && file.lines[k].Checkpoint?
  {
    Client(Fetching(t, k + 1, file.lines[k].before, 0, [], None, false, false), [], false)
  }

  lemma ResumedBooks(file: File, t: nat, k: nat, v: View)
    requires k < |file.lines| && file.lines[k].Checkpoint?
    requires v.meta == Meta(None, Some(t), Some(file.lines[k].offset), Some(file.lines[k].before))
    ensures var queue := ResumedAt(file, t, k).queue;
            RunView(v, queue) == v && forall i :: 0 <= i < |queue| ==> Bookkeeping(queue[i])
  {
    var o, n := file.lines[k].offset, file.lines[k].before;
    assert ResumedAt(file, t, k).queue == [SetEtag(t)] + [SetOffset(o), SetApplied(n)];
    RunConcat(v, [SetEtag(t)], [SetOffset(o), SetApplied(n)]);
    RunOne(v, SetEtag(t));
    RunBooks(v, o, n);
  }

  lemma BeginsAgain(up: Node, me: Node, t: nat, k: nat)
    requires Offers(up, t) && Covered(up.db.log, up.files[t].position) && me.client == IDLE
    requires k < |up.files[t].lines| && up.files[t].lines[k].Checkpoint?
    requires up.files[t].lines[k].offset > 0 && FindCheckpoint(up.files[t].lines, up.files[t].lines[k].offset) == k
    requires var line := up.files[t].lines[k];
             me.db.meta == Meta(None, Some(t), Some(line.offset), Some(line.before))
    ensures ClientStep(up, me, Begin(false)) == me.(client := ResumedAt(up.files[t], t, k))
  {
  }

  /** It resumes. */
  lemma Resumes(up: Node, me: Node, t: nat, q: Qid, lost: bool, k: nat) returns (end: Node)
    requires AtRest(up, me, t, q, lost, k)
    ensures Reaches(up, me, end) && Fine(up, end, t, q, lost)
    ensures end.client == ResumedAt(up.files[t], t, k).(queue := []) && ViewOf(end.db) == ViewOf(me.db)
  {
    OffersCovered(up, t);
    assert FileTidy(up.db, up.files[t]);
    OffsetPositive(up.files[t], k);
    BeginsAgain(up, me, t, k);
    QuietStep(up, me, t, q, lost, Begin(false));
    var begun := ClientStep(up, me, Begin(false));
    ResumedBooks(up.files[t], t, k, ViewOf(me.db));
    BooksQueue(ViewOf(begun.db), begun.client.queue);
    end := Drains(up, begun, t, q, lost);
    Onwards(up, me, begun, end);
  }

  /** A refused write of q ends the attempt. */
  lemma Refuses(up: Node, me: Node, t: nat, q: Qid, lost: bool, c: Change) returns (end: Node)
    requires NodeOk(up) && Fine(up, me, t, q, lost) && me.client.mode.Fetching? && me.client.mode.etag == t
    requires me.client.queue == [Write(c)] && me.client.must && Fails(me.db.entities, Write(c)) && c.qid == q
    requires Decodable(c) || (q !in me.db.entities && !lost)
    ensures Reaches(up, me, end) && end.client == IDLE && Fine(up, end, t, q, lost || !Decodable(c))
    ensures ViewOf(end.db) == ApplyView(ViewOf(me.db), Write(c))
  {
    hide Fine, NodeOk, Reaches;
    var after := lost || !Decodable(c);
    CommandStep(up, me, t, q, lost, 0);
    ViewOfApply(me.db, Write(c), 0);
    var refused := ExecStep(me, 0);
    assert [Write(c)][1..] == [] && refused.client == Client(Stopping, [], true);
    QuietStep(up, refused, t, q, after, Proceed);
    end := ClientStep(up, refused, Proceed);
    Onwards(up, me, refused, end);
  }

  /** The batch of one entity after a lost connection. */
  lemma FlushesOne(up: Node, me: Node, t: nat, q: Qid, lost: bool, c: Change) returns (end: Node)
    requires NodeOk(up) && Fine(up, me, t, q, lost) && me.client.mode.Fetching? && me.client.mode.etag == t
    requires me.client.queue == [] && me.client.mode.cut && !me.client.mode.final && me.client.mode.batch == [c]
    requires Fails(me.db.entities, Write(c)) && c.qid == q && (Decodable(c) || (q !in me.db.entities && !lost))
    ensures Reaches(up, me, end) && end.client == IDLE && Fine(up, end, t, q, lost || !Decodable(c))
    ensures ViewOf(end.db) == ApplyView(ViewOf(me.db), Write(c))
  {
    assert t in up.files;
    hide Fine, NodeOk, Reaches;
    ProceedFetch(up, me);
    QuietStep(up, me, t, q, lost, Proceed);
    var next := ClientStep(up, me, Proceed);
    assert [c][..0] == [] && Puts([c]) == [Write(c)];
    assert next.client == FlushBatch(me.client.mode);
    end := Refuses(up, next, t, q, lost, c);
    Onwards(up, me, next, end);
  }

  lemma {:induction false} PrefixSize(s: string, n: nat)
    requires n <= |s|
    ensures ByteSize(s[..n]) <= ByteSize(s)
  {
    if n > 0 {
      assert s[..n][1..] == s[1..][..n - 1];
      PrefixSize(s[1..], n - 1);
    }
  }

  /** A cut anywhere inside the mappings of an acceptable line. */
  predicate CutInside(line: Line, chars: nat) {
    line.Item? && |FormatInt(line.qid)| + 1 < chars < |LineText(line)|
  }

  function TornChange(line: Line, chars: nat): Change
    requires CutInside(line, chars)
  {
    Change(line.qid, Some(line.raw[..chars - |FormatInt(line.qid)| - 1]))
  }

  lemma TakesTorn(file: File, f: Mode, chars: nat)
    requires f.Fetching? && f.at < |file.lines| && Acceptable(file.lines[f.at]) && CutInside(file.lines[f.at], chars)
    requires AllDecodable(Records(file.lines))
    ensures var c := TornChange(file.lines[f.at], chars);
            && CutFetch(file, f, chars) == Client(f.(cut := true, batch := f.batch + [c]), [], true)
            && !Decodable(c)
  {
    var line := file.lines[f.at];
    FragmentTakenIff(line, chars);
    PrefixSize(LineText(line), chars);
    ItemsDecode(file.lines);
    TruncatedFails(line.raw, chars - |FormatInt(line.qid)| - 1);
    assert LineText(line)[0] == FormatInt(line.qid)[0];
  }

  lemma CutsFetch(up: Node, me: Node, chars: nat)
    requires me.client.mode.Fetching? && me.client.mode.etag in up.files && me.client.queue == []
    requires !me.client.mode.final && !me.client.mode.cut
    ensures ClientStep(up, me, Cut(chars)) ==
            me.(client := CutFetch(up.files[me.client.mode.etag], me.client.mode, chars))
  {
  }

  /** The connection is lost, and what was received of a line is flushed and refused. */
  lemma BreaksOff(up: Node, me: Node, t: nat, q: Qid, lost: bool, chars: nat, c: Change) returns (end: Node)
    requires NodeOk(up) && Fine(up, me, t, q, lost) && me.client.mode.Fetching? && me.client.mode.etag == t
    requires me.client.queue == [] && !me.client.mode.final && !me.client.mode.cut
    requires CutFetch(up.files[t], me.client.mode, chars) ==
             Client(me.client.mode.(cut := true, batch := [c]), [], true)
    requires Fails(me.db.entities, Write(c)) && c.qid == q && (Decodable(c) || (q !in me.db.entities && !lost))
    ensures Reaches(up, me, end) && end.client == IDLE && Fine(up, end, t, q, lost || !Decodable(c))
    ensures ViewOf(end.db) == ApplyView(ViewOf(me.db), Write(c))
  {
    assert t in up.files;
    hide Fine, NodeOk, Reaches;
    CutsFetch(up, me, chars);
    QuietStep(up, me, t, q, lost, Cut(chars));
    var next := ClientStep(up, me, Cut(chars));
    end := FlushesOne(up, next, t, q, lost, c);
    Onwards(up, me, next, end);
  }

  // ---------------------------------------------------------- the three attempts

  /** A file with an entity line behind a checkpoint, whose entity is not written before it and
      has only this value. */
  predicate BehindCheckpoint(file: File, k: nat, q: Qid, raw: Raw) {
    && 0 < k && k + 1 < |file.lines| && file.lines[k].Checkpoint? && file.lines[k + 1] == Item(q, raw)
    && !Writes(Records(file.lines[..k]), q) && OneValueOf(Records(file.lines), {q})
  }

  lemma StillAbsent(file: File, v: View, f: Mode, k: nat, q: Qid, raw: Raw)
    requires BehindCheckpoint(file, k, q, raw) && f.Fetching? && f.at == k + 1 && Towards(file, v, f, k)
    ensures q !in v.entities
  {
    ControlRecords(file.lines, k);
  }

  lemma TowardsStart(file: File, t: nat, k: nat)
    requires k < |file.lines| && file.lines[k].Checkpoint?
    ensures Towards(file, View(map[], Meta(None, Some(t), Some(0), Some(0))), Fresh(t).mode, k)
  {
  }

  lemma FirstReads(up: Node, me: Node, t: nat, q: Qid, raw: Raw, k: nat) returns (there: Node)
    requires NodeOk(up) && NodeTidy(me) && Offers(up, t) && GoodFor(up, t, q)
    requires me.client == IDLE && me.db.meta == NO_META
    requires BehindCheckpoint(up.files[t], k, q, raw)
    ensures Reaches(up, me, there) && Reading(up, there, t, q, false) && there.client.mode.at == k + 1
    ensures Towards(up.files[t], ViewOf(there.db), there.client.mode, k)
  {
    var begun := Begins(up, me, t, q);
    TowardsStart(up.files[t], t, k);
    there := ReadsTo(up, begun, t, q, false, k);
    Onwards(up, me, begun, there);
  }

  lemma FirstBreaks(up: Node, me: Node, t: nat, q: Qid, raw: Raw, k: nat, chars: nat) returns (end: Node)
    requires NodeOk(up) && Fine(up, me, t, q, false) && Offers(up, t) && BehindCheckpoint(up.files[t], k, q, raw)
    requires CutInside(Item(q, raw), chars) && me.client.mode.Fetching? && me.client.mode.etag == t
    requires me.client.queue == [] && me.client.mode.at == k + 1
    requires Towards(up.files[t], ViewOf(me.db), me.client.mode, k)
    ensures var c := TornChange(Item(q, raw), chars);
            && Reaches(up, me, end) && Fine(up, end, t, q, true) && end.client == IDLE
            && !Decodable(c) && ViewOf(end.db) == ApplyView(ViewOf(me.db), Write(c))
  {
    hide Fine, NodeOk, Reaches;
    var file, c := up.files[t], TornChange(Item(q, raw), chars);
    StillAbsent(file, ViewOf(me.db), me.client.mode, k, q, raw);
    assert Acceptable(file.lines[k + 1]);
    TakesTorn(file, me.client.mode, chars);
    assert [] + [c] == [c];
    end := BreaksOff(up, me, t, q, false, chars, c);
  }

  /** The first attempt: everything up to the checkpoint, then the connection is lost inside the
      mappings of the next line. */
  lemma FirstAttempt(up: Node, me: Node, t: nat, q: Qid, raw: Raw, k: nat, chars: nat) returns (end: Node)
    requires NodeOk(up) && NodeTidy(me) && Offers(up, t) && GoodFor(up, t, q)
    requires me.client == IDLE && me.db.meta == NO_META
    requires BehindCheckpoint(up.files[t], k, q, raw) && CutInside(Item(q, raw), chars)
    ensures Reaches(up, me, end) && AtRest(up, end, t, q, true, k)
    ensures q in end.db.entities && !Decodes(end.db.entities[q]) && AllDecode(end.db.entities - {q})
  {
    var there := FirstReads(up, me, t, q, raw, k);
    end := FirstBreaks(up, there, t, q, raw, k, chars);
    Onwards(up, me, there, end);
  }

  lemma MarkAccepted(file: File, t: nat, k: nat)
    requires k + 1 < |file.lines| && file.lines[k].Checkpoint? && Acceptable(file.lines[k])
    ensures var f := ResumedAt(file, t, k).mode;
            FetchLine(file, f) == PastMark(file, t, k).(queue := ResumedAt(file, t, k).queue[1..])
  {
    assert ResumedAt(file, t, k).queue[1..] == [SetOffset(file.lines[k].offset), SetApplied(file.lines[k].before)];
  }

  /** The checkpoint line is read again and changes nothing. */
  lemma PassesMark(up: Node, me: Node, t: nat, q: Qid, lost: bool, k: nat) returns (end: Node)
    requires NodeOk(up) && Fine(up, me, t, q, lost) && 0 < k && k + 1 < |up.files[t].lines|
    requires up.files[t].lines[k].Checkpoint? && Acceptable(up.files[t].lines[k])
    requires me.client == ResumedAt(up.files[t], t, k).(queue := [])
    requires var line := up.files[t].lines[k];
             me.db.meta == Meta(None, Some(t), Some(line.offset), Some(line.before))
    ensures Reaches(up, me, end) && Fine(up, end, t, q, lost) && ViewOf(end.db) == ViewOf(me.db)
    ensures end.client == PastMark(up.files[t], t, k)
  {
    assert FileTidy(up.db, up.files[t]);
    hide NodeOk, Reaches, LinkOk, FillOk, NodeTidy;
    var file, v := up.files[t], ViewOf(me.db);
    assert FileTidy(up.db, file);
    MarkAccepted(file, t, k);
    ProceedFetch(up, me);
    QuietStep(up, me, t, q, lost, Proceed);
    var next := ClientStep(up, me, Proceed);
    RunBooks(v, file.lines[k].offset, file.lines[k].before);
    BooksQueue(v, next.client.queue);
    end := Drains(up, next, t, q, lost);
    Onwards(up, me, next, end);
  }

  lemma ReadsItem(file: File, f: Mode)
    requires f.Fetching? && !f.final && !f.cut && f.done.None? && f.batch == [] && f.at < |file.lines|
    requires file.lines[f.at].Item? && Acceptable(file.lines[f.at])
    ensures var c := Change(file.lines[f.at].qid, Some(file.lines[f.at].raw));
            FetchLine(file, f) == Client(f.(at := f.at + 1, batch := [c]), [], true)
    ensures var c := FetchLine(file, f);
            CutFetch(file, c.mode, 0) == Client(c.mode.(cut := true), [], true)
  {
    var c := Change(file.lines[f.at].qid, Some(file.lines[f.at].raw));
    assert [] + [c] == [c];
    assert Fragment(file, f.at + 1, 0) == "";
  }

  lemma OldRefuses(m: EntityMap, q: Qid, raw: Raw)
    requires q in m && !Decodes(m[q]) && Decodes(raw)
    ensures Fails(m, Write(Change(q, Some(raw))))
  {
  }

  /** Behind the checkpoint line the whole value is read, and refused because of the old one. */
  lemma RefusesWhole(up: Node, me: Node, t: nat, q: Qid, raw: Raw, k: nat) returns (end: Node)
    requires NodeOk(up) && Fine(up, me, t, q, true) && k + 1 < |up.files[t].lines|
    requires up.files[t].lines[k].Checkpoint? && up.files[t].lines[k + 1] == Item(q, raw)
    requires Acceptable(up.files[t].lines[k + 1]) && Decodes(raw)
    requires me.client == PastMark(up.files[t], t, k)
    requires q in me.db.entities && !Decodes(me.db.entities[q])
    ensures Reaches(up, me, end) && Fine(up, end, t, q, true) && end.client == IDLE
    ensures ViewOf(end.db) == ApplyView(ViewOf(me.db), Write(Change(q, Some(raw))))
  {
    assert t in up.files;
    hide NodeOk, Fine, Reaches, Decodes, Acceptable;
    ReadsItem(up.files[t], me.client.mode);
    ProceedFetch(up, me);
    QuietStep(up, me, t, q, true, Proceed);
    var read := ClientStep(up, me, Proceed);
    OldRefuses(read.db.entities, q, raw);
    end := BreaksOff(up, read, t, q, true, 0, Change(q, Some(raw)));
    Onwards(up, me, read, end);
  }

  /** The second attempt: the whole value is stored, and the attempt fails. */
  lemma SecondAttempt(up: Node, me: Node, t: nat, q: Qid, raw: Raw, k: nat) returns (end: Node)
    requires AtRest(up, me, t, q, true, k) && BehindCheckpoint(up.files[t], k, q, raw)
    requires q in me.db.entities && !Decodes(me.db.entities[q])
    ensures Reaches(up, me, end) && AtRest(up, end, t, q, true, k)
    ensures end.db.entities == me.db.entities[q := raw]
  {
    var file := up.files[t];
    assert Acceptable(file.lines[k]) && Acceptable(file.lines[k + 1]);
    WholeDecodes(file, k + 1);
    hide NodeOk, Fine, Reaches, Decodes, Acceptable, AllAcceptable;
    var resumed := Resumes(up, me, t, q, true, k);
    var passed := PassesMark(up, resumed, t, q, true, k);
    end := RefusesWhole(up, passed, t, q, raw, k);
    Onwards(up, me, resumed, passed);
    Onwards(up, me, passed, end);
  }

  lemma WholeDecodes(file: File, i: nat)
    requires i < |file.lines| && file.lines[i].Item? && AllDecodable(Records(file.lines))
    ensures Decodes(file.lines[i].raw)
  {
    ItemsDecode(file.lines);
  }

  lemma ResumedReads(up: Node, me: Node, t: nat, q: Qid, lost: bool, k: nat, end: Node)
    requires AtRest(up, me, t, q, lost, k) && AllDecode(me.db.entities)
    requires Fine(up, end, t, q, lost) && ViewOf(end.db) == ViewOf(me.db)
    requires end.client == ResumedAt(up.files[t], t, k).(queue := [])
    ensures Reading(up, end, t, q, lost)
  {
    var file, v := up.files[t], ViewOf(me.db);
    assert FileTidy(up.db, file);
    OffsetPositive(file, k);
    ResumedBooks(file, t, k, v);
    ResumedStarts(t, file, v, file.lines[k].before, ResumedAt(file, t, k));
  }

  /** The third attempt completes. */
  lemma ThirdAttempt(up: Node, me: Node, t: nat, q: Qid, k: nat) returns (end: Node)
    requires AtRest(up, me, t, q, true, k) && AllDecode(me.db.entities)
    ensures Reaches(up, me, end) && Fine(up, end, t, q, true) && FilledFrom(ViewOf(end.db), end.client, t)
    ensures end.db.meta.last == Some(up.files[t].position)
  {
    var resumed := Resumes(up, me, t, q, true, k);
    ResumedReads(up, me, t, q, true, k, resumed);
    end := Finishes(up, resumed, t, q, true);
    Onwards(up, me, resumed, end);
  }

  lemma WholeAgain(m: EntityMap, q: Qid, raw: Raw)
    requires AllDecode(m - {q}) && Decodes(raw)
    ensures AllDecode(m[q := raw])
  {
    var after := m[q := raw];
    forall p | p in after ensures Decodes(after[p]) {
      if p != q { assert p in m - {q}; }
    }
  }

  lemma LaterAttempts(up: Node, me: Node, t: nat, q: Qid, raw: Raw, k: nat) returns (end: Node)
    requires AtRest(up, me, t, q, true, k) && BehindCheckpoint(up.files[t], k, q, raw) && Decodes(raw)
    requires q in me.db.entities && !Decodes(me.db.entities[q]) && AllDecode(me.db.entities - {q})
    ensures Reaches(up, me, end) && Fine(up, end, t, q, true) && FilledFrom(ViewOf(end.db), end.client, t)
    ensures end.db.meta.last == Some(up.files[t].position)
  {
    var whole := SecondAttempt(up, me, t, q, raw, k);
    WholeAgain(me.db.entities, q, raw);
    end := ThirdAttempt(up, whole, t, q, k);
    Onwards(up, me, whole, end);
  }

  lemma HiddenAtEnd(up: Node, end: Node, t: nat, q: Qid, k: nat)
    requires NodeOk(up) && Fine(up, end, t, q, true) && FilledFrom(ViewOf(end.db), end.client, t)
    requires end.db.entities == up.db.entities && k + 1 < |up.files[t].lines|
    requires up.files[t].lines[k + 1].Item? && up.files[t].lines[k + 1].qid == q
    requires Entries(up.files[t].lines[k + 1].raw) != []
    ensures end.db.index != up.db.index
  {
    var cs := Records(up.files[t].lines);
    assert FilledBy(up, end, HarmOf(q, true), t);
    ItemRecorded(up.files[t].lines, k + 1);
    assert AllDecode(up.db.entities);
    assert Change(q, Some(end.db.entities[q])) == Change(q, Some(up.files[t].lines[k + 1].raw));
    HiddenDiffers(up.db, end.db, cs, HarmOf(q, true), q);
  }

  lemma EndsDamaged(up: Node, end: Node, t: nat, q: Qid, k: nat)
    requires NodeOk(up) && Offers(up, t) && Fine(up, end, t, q, true) && FilledFrom(ViewOf(end.db), end.client, t)
    requires end.db.meta.last == Some(up.files[t].position) && k + 1 < |up.files[t].lines|
    requires up.files[t].lines[k + 1].Item? && up.files[t].lines[k + 1].qid == q
    requires Entries(up.files[t].lines[k + 1].raw) != []
    ensures AtEnd(up, end) && end.db.entities == up.db.entities && end.db.index != up.db.index
  {
    LinkConverges(up, end);
    HiddenAtEnd(up, end, t, q, k);
  }

  /** Every file with more than one frame has lines that can be damaged, and nothing notices. For
      every acceptable file with an entity line right behind a later checkpoint, and every place
      inside its mappings: a new replica whose download is lost there resumes, completes, and is
      then at the end of its upstream's changelog, with the upstream's entities and another
      index. */
  lemma TornRun(up: Node, me: Node, t: nat, q: Qid, raw: Raw, k: nat, chars: nat) returns (end: Node)
    requires NodeOk(up) && Offers(up, t)
    requires NodeTidy(me) && me.client == IDLE && me.db.meta == NO_META
    requires BehindCheckpoint(up.files[t], k, q, raw) && Entries(raw) != [] && CutInside(Item(q, raw), chars)
    ensures Reaches(up, me, end) && AtEnd(up, end)
    ensures end.db.entities == up.db.entities && end.db.index != up.db.index
  {
    var torn := FirstAttempt(up, me, t, q, raw, k, chars);
    WholeDecodes(up.files[t], k + 1);
    end := LaterAttempts(up, torn, t, q, raw, k);
    Onwards(up, me, torn, end);
    EndsDamaged(up, end, t, q, k);
  }
}
