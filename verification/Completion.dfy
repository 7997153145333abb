/** What the replica does when nothing goes wrong any more: a fetch completes the file from
    wherever it stands, and a covered replica follows its upstream to the end. */
module Completion {
  import opened Text
  import opened Mappings
  import opened EntityMaps
  import opened ReverseIndex
  import opened Store
  import opened Stream
  import opened Snapshot
  import opened Replica
  import opened Link
  import opened Chain

  // ---------------------------------------------------------------- the fetch

  /** No command of a pipeline is answered with an error. */
  predicate GoesThrough(v: View, queue: seq<Cmd>)
    decreases |queue|
  {
    queue == [] || (!Fails(v.entities, queue[0]) && GoesThrough(ApplyView(v, queue[0]), queue[1..]))
  }

  /** The fetch loop from a state on, with every command executed; a pipeline with a command
      that fails ends the attempt. */
  function FetchRest(file: File, v: View, f: Mode): View
    requires f.Fetching?
    decreases if f.at <= |file.lines| then |file.lines| - f.at else 0, |f.batch|, !f.final
  {
    var c := FetchLine(file, f);
    if c == IDLE then v
    else if c.must && !GoesThrough(v, c.queue) then RunView(v, c.queue)
    else
      FetchMoves(file, f);
      FetchRest(file, RunView(v, c.queue), c.mode)
  }

  // ------------------------------------------ values that cannot be replaced

  /** Every stored value these writes replace decodes. */
  predicate Replaceable(m: EntityMap, cs: seq<Change>) {
    forall i :: 0 <= i < |cs| && cs[i].qid in m ==> Decodes(m[cs[i].qid])
  }

  predicate NoWrites(queue: seq<Cmd>) { forall i :: 0 <= i < |queue| ==> !queue[i].Write? }

  lemma {:induction false} NoWritesRun(v: View, queue: seq<Cmd>)
    requires NoWrites(queue) && forall i :: 0 <= i < |queue| ==> !queue[i].FlushAll?
    ensures GoesThrough(v, queue) && RunView(v, queue).entities == v.entities
    decreases |queue|
  {
    if queue != [] {
      assert !queue[0].Write? && !queue[0].FlushAll?;
      NoWritesRun(ApplyView(v, queue[0]), queue[1..]);
    }
  }

  lemma {:induction false} ThroughMore(v: View, queue: seq<Cmd>, cmd: Cmd)
    ensures GoesThrough(v, queue + [cmd]) <==> GoesThrough(v, queue) && !Fails(RunView(v, queue).entities, cmd)
    decreases |queue|
  {
    if queue == [] {
      assert [] + [cmd] == [cmd] && [cmd][1..] == [];
      assert GoesThrough(ApplyView(v, cmd), []);
    } else {
      assert (queue + [cmd])[1..] == queue[1..] + [cmd];
      ThroughMore(ApplyView(v, queue[0]), queue[1..], cmd);
    }
  }

  /** What writes of good values leave at an entity. */
  lemma {:induction false} GoodOrSame(m: EntityMap, cs: seq<Change>, q: Qid)
    requires AllDecodable(cs)
    ensures var w := Get(Replay(m, cs), q);
            if Writes(cs, q) then w.Some? ==> Decodes(w.value) else w == Get(m, q)
  {
    if cs != [] {
      var n := |cs| - 1;
      GoodOrSame(m, cs[..n], q);
      assert Decodable(cs[n]);
      if cs[n].qid != q && Writes(cs, q) {
        var i :| 0 <= i < |cs| && cs[i].qid == q;
        assert cs[..n][i].qid == q;
      }
      if Writes(cs[..n], q) {
        var i :| 0 <= i < n && cs[..n][i].qid == q;
        assert cs[i].qid == q;
      }
    }
  }

  lemma ReplaceableParts(m: EntityMap, a: seq<Change>, b: seq<Change>)
    ensures Replaceable(m, a + b) <==> Replaceable(m, a) && Replaceable(m, b)
  {
    if Replaceable(m, a + b) {
      forall i | 0 <= i < |a| && a[i].qid in m ensures Decodes(m[a[i].qid]) { assert (a + b)[i] == a[i]; }
      forall i | 0 <= i < |b| && b[i].qid in m ensures Decodes(m[b[i].qid]) { assert (a + b)[|a| + i] == b[i]; }
    }
  }

  /** After the first writes the rest can be replaced iff it could before. */
  lemma ReplaceableAfter(m: EntityMap, a: seq<Change>, b: seq<Change>)
    requires AllDecodable(a) && Replaceable(m, a)
    ensures Replaceable(Replay(m, a), b) <==> Replaceable(m, b)
  {
    forall i | 0 <= i < |b|
      ensures (b[i].qid in Replay(m, a) ==> Decodes(Replay(m, a)[b[i].qid])) <==>
              (b[i].qid in m ==> Decodes(m[b[i].qid])) {
      var q := b[i].qid;
      GoodOrSame(m, a, q);
      if Writes(a, q) {
        var j :| 0 <= j < |a| && a[j].qid == q;
        assert q in m ==> Decodes(m[q]);
      } else {
        assert Get(Replay(m, a), q) == Get(m, q);
      }
    }
  }

  /** A batch of good values goes through iff it replaces only values that decode. */
  lemma {:induction false} PutsGoThroughIff(v: View, batch: seq<Change>)
    requires AllDecodable(batch)
    ensures GoesThrough(v, Puts(batch)) <==> Replaceable(v.entities, batch)
  {
    if batch != [] {
      var n := |batch| - 1;
      var a, c := batch[..n], batch[n];
      assert batch == a + [c] && Decodable(c);
      PutsGoThroughIff(v, a);
      RunPuts(v, a);
      ThroughMore(v, Puts(a), Write(c));
      ReplaceableParts(v.entities, a, [c]);
      if Replaceable(v.entities, a) { ReplaceableAfter(v.entities, a, [c]); }
      FailsIff(Replay(v.entities, a), c);
    }
  }

  lemma FailsIff(m: EntityMap, c: Change)
    requires Decodable(c)
    ensures Fails(m, Write(c)) <==> !Replaceable(m, [c])
  {
    assert [c][0] == c;
    if c.qid in m && Decodes(m[c.qid]) { assert Replaceable(m, [c]); }
    if c.qid !in m { assert Replaceable(m, [c]); }
  }

  /** What a fetch still has to write. */
  function Pending(file: File, f: Mode): seq<Change>
    requires f.Fetching? && f.at <= |file.lines|
  {
    f.batch + Records(file.lines[f.at..])
  }

  /** A turn of the loop queues some of it, or nothing. */
  lemma TurnPends(file: File, f: Mode, fits: bool, parses: bool) returns (b: seq<Change>)
    requires f.Fetching? && f.at <= |file.lines| && AllDecodable(Records(file.lines)) && AllDecodable(f.batch)
    requires Turn(file, f, fits, parses) != IDLE
    ensures var c := Turn(file, f, fits, parses);
            && c.mode.at <= |file.lines| && AllDecodable(b) && Pending(file, f) == b + Pending(file, c.mode)
            && (b != [] ==> c.must && c.queue == Puts(b))
            && (b == [] ==> NoWrites(c.queue) && forall i :: 0 <= i < |c.queue| ==> !c.queue[i].FlushAll?)
  {
    var c := Turn(file, f, fits, parses);
    b := [];
    if f.at < |file.lines| && c.mode.at == f.at + 1 {
      if file.lines[f.at].Item? {
        ItemsDecode(file.lines);
        ItemRecords(file.lines, f.at, f.batch);
        var batch := f.batch + [Change(file.lines[f.at].qid, Some(file.lines[f.at].raw))];
        if c.mode.batch == [] { b := batch; }
      } else {
        ControlRecords(file.lines, f.at);
      }
    } else if f.batch != [] {
      b := f.batch;
    }
    assert c.mode.batch == [] || b == [];
    assert [] + Records(file.lines[c.mode.at..]) == Records(file.lines[c.mode.at..]);
    assert [] + Pending(file, c.mode) == Pending(file, c.mode);
  }

  function Left(file: File, f: Mode): nat
    requires f.Fetching?
  {
    if f.at <= |file.lines| then |file.lines| - f.at else 0
  }

  /** Every turn of the loop reads on, empties the batch, or sets the final metadata. */
  lemma FetchMoves(file: File, f: Mode)
    requires f.Fetching? && FetchLine(file, f) != IDLE
    ensures var g := FetchLine(file, f).mode;
            g.Fetching? && (Left(file, g) < Left(file, f)
              || (Left(file, g) == Left(file, f) && |g.batch| < |f.batch|)
              || (Left(file, g) == Left(file, f) && |g.batch| == |f.batch| && g.final && !f.final))
  {
  }

  lemma {:induction false} RunQueueOk(file: File, v: View, c: Client)
    requires c.mode.Fetching? && FetchOk(file, v, c)
    ensures FetchOk(file, RunView(v, c.queue), Client(c.mode, [], true))
    decreases |c.queue|
  {
    if c.queue == [] {
      NothingQueued(file, v, c);
    } else {
      ExecOk(file, v, c);
      RunQueueOk(file, ApplyView(v, c.queue[0]), c.(queue := c.queue[1..]));
    }
  }

  lemma AcceptableFrom(lines: seq<Line>, at: nat)
    requires at < |lines|
    ensures AllAcceptable(lines[at..]) <==> Acceptable(lines[at]) && AllAcceptable(lines[at + 1..])
  {
    var rest, more := lines[at..], lines[at + 1..];
    assert rest[0] == lines[at] && rest[1..] == more;
    if Acceptable(lines[at]) && AllAcceptable(more) {
      forall i | 0 <= i < |rest| ensures Acceptable(rest[i]) {
        if i > 0 { assert rest[i] == more[i - 1]; }
      }
    }
  }

  /** The store of a fetch of good values that goes on. */
  predicate Ongoing(file: File, v: View, f: Mode)
    requires f.Fetching?
  {
    && FetchOk(file, v, Client(f, [], true)) && Counts(file, f) && !f.cut
    && AllDecodable(Records(file.lines)) && AllDecodable(f.batch) && (f.final ==> v.meta.last.Some?)
  }

  /** The client can take every line that is left, and every value it replaces decodes. */
  predicate CanFinish(file: File, v: View, f: Mode)
    requires f.Fetching? && f.at <= |file.lines|
  {
    AllAcceptable(file.lines[f.at..]) && Replaceable(v.entities, Pending(file, f))
  }

  lemma NextTurn(file: File, v: View, f: Mode, c: Client, w: View)
    requires f.Fetching? && Ongoing(file, v, f) && !f.final
    requires c == FetchLine(file, f) && c != IDLE && GoesOn(file, c) && w == RunView(v, c.queue)
    ensures Ongoing(file, w, c.mode)
  {
    hide FetchOk, WellFormedFile;
    FetchLineOk(file, v, f);
    RunQueueOk(file, v, c);
    TurnClean(file, f, NextFits(file, f), NextParses(file, f));
    if c.mode.final { FinalStored(file, v, f); }
  }

  /** A turn goes through iff the values it replaces decode, and leaves what is to be replaced. */
  lemma TurnReplaces(file: File, v: View, f: Mode)
    requires f.Fetching? && Ongoing(file, v, f)
    requires FetchLine(file, f) != IDLE && FetchLine(file, f).mode.at <= |file.lines|
    ensures var c := FetchLine(file, f);
            if GoesThrough(v, c.queue) then
              Replaceable(v.entities, Pending(file, f)) <==>
              Replaceable(RunView(v, c.queue).entities, Pending(file, c.mode))
            else c.must && !Replaceable(v.entities, Pending(file, f)) && RunView(v, c.queue).meta == v.meta
  {
    var c := FetchLine(file, f);
    var b := TurnPends(file, f, NextFits(file, f), NextParses(file, f));
    ReplaceableParts(v.entities, b, Pending(file, c.mode));
    if b == [] {
      NoWritesRun(v, c.queue);
      assert [] + Pending(file, c.mode) == Pending(file, c.mode);
    } else {
      PutsGoThroughIff(v, b);
      RunPuts(v, b);
      if Replaceable(v.entities, b) { ReplaceableAfter(v.entities, b, Pending(file, c.mode)); }
    }
  }

  /** From every state of a fetch whose counter is in order, however it was interrupted before,
      the rest of the loop ends with the position stored and exactly the map of all lines applied
      in order once, iff the client can take every line that is left (none has a negative id,
      none is above the limit) and none of them replaces a value that does not decode. */
  lemma {:induction false} FetchCompletesIff(file: File, v: View, f: Mode)
    requires f.Fetching? && Ongoing(file, v, f)
    ensures CanFinish(file, v, f) ==>
              FetchRest(file, v, f).meta.last == Some(file.position) &&
              FetchRest(file, v, f).entities == Full(file.lines)
    ensures !CanFinish(file, v, f) ==> FetchRest(file, v, f).meta.last.None?
    decreases Left(file, f), |f.batch|, !f.final
  {
    var c := FetchLine(file, f);
    if f.final {
      CompletedFetch(file, v, Client(f, [], true));
    } else if f.at < |file.lines| && !Acceptable(file.lines[f.at]) {
      RefusesLine(file, f);
      if c == IDLE {
        AcceptableFrom(file.lines, f.at);
      } else {
        FlushGoesOn(file, f);
        TurnOn(file, v, f);
      }
    } else {
      AcceptsLine(file, v, f);
      TurnOn(file, v, f);
    }
  }

  /** One turn further, and the rest by induction. */
  lemma {:induction false} TurnOn(file: File, v: View, f: Mode)
    requires f.Fetching? && Ongoing(file, v, f) && !f.final
    requires FetchLine(file, f) != IDLE && GoesOn(file, FetchLine(file, f))
    ensures CanFinish(file, v, f) ==>
              FetchRest(file, v, f).meta.last == Some(file.position) &&
              FetchRest(file, v, f).entities == Full(file.lines)
    ensures !CanFinish(file, v, f) ==> FetchRest(file, v, f).meta.last.None?
    decreases Left(file, f), |f.batch|, !f.final, 0
  {
    var c := FetchLine(file, f);
    TurnReplaces(file, v, f);
    if GoesThrough(v, c.queue) {
      FetchMoves(file, f);
      NextTurn(file, v, f, c, RunView(v, c.queue));
      TurnSteps(file, f);
      if c.mode.at == f.at + 1 { AcceptableFrom(file.lines, f.at); }
      FetchCompletesIff(file, RunView(v, c.queue), c.mode);
    }
  }

  /** A turn reads on only over a line the client can take. */
  lemma TurnSteps(file: File, f: Mode)
    requires f.Fetching? && FetchLine(file, f) != IDLE
    ensures var g := FetchLine(file, f).mode;
            g.at == f.at || (g.at == f.at + 1 && f.at < |file.lines| && Acceptable(file.lines[f.at]))
  {
  }

  lemma FinalStored(file: File, v: View, f: Mode)
    requires f.Fetching? && FetchOk(file, v, Client(f, [], true)) && !f.cut && !f.final
    requires FetchLine(file, f) != IDLE && FetchLine(file, f).mode.final
    ensures RunView(v, FetchLine(file, f).queue).meta.last.Some?
  {
    FinishOk(file, v, f, NextFits(file, f), NextParses(file, f));
  }

  function FreshRest(etag: nat, file: File): View {
    FetchRest(file, RunView(View(map[], NO_META), Fresh(etag).queue), Fresh(etag).mode)
  }

  lemma FreshStarts(etag: nat, file: File)
    requires WellFormedFile(file.lines, file.position) && AllDecodable(Records(file.lines))
    ensures var c := Fresh(etag);
            Ongoing(file, RunView(View(map[], NO_META), c.queue), c.mode)
  {
    FreshOk(etag, file, View(map[], NO_META));
    RunQueueOk(file, View(map[], NO_META), Fresh(etag));
  }

  lemma ResumedStarts(etag: nat, file: File, v: View, base: int, c: Client)
    requires WellFormedFile(file.lines, file.position) && AllDecodable(Records(file.lines))
    requires v.meta.last.None? && v.meta.etag == Some(etag) && HasOffset(v) && v.meta.applied == Some(base)
    requires var k := FindCheckpoint(file.lines, v.meta.offset.value);
             k < |file.lines| && CatchesUp(file.lines, k, v.entities)
    requires c == Resumed(etag, FindCheckpoint(file.lines, v.meta.offset.value), v.meta.offset.value, base)
    ensures FetchOk(file, RunView(v, c.queue), Client(c.mode, [], true))
    ensures RunView(v, c.queue).entities == v.entities && RunView(v, c.queue).meta.last.None?
    ensures base == |Records(file.lines[..c.mode.at])| ==> Ongoing(file, RunView(v, c.queue), c.mode)
    ensures base != |Records(file.lines[..c.mode.at])| ==> Torn(file, c.mode)
  {
    ResumedOk(etag, file, v, base);
    RunQueueOk(file, v, c);
    ResumedCounts(file, etag, c.mode.at, v.meta.offset.value, base);
    RunBookkeeping(v, c.queue);
  }

  /** An interrupted download that resumes stores its position iff the stored counter belongs to
      the stored offset, the client can take every line that is left, and none of them replaces a
      value that an earlier cut left undecodable. Then it ends with the entities of an
      uninterrupted one; with a torn checkpoint it changes nothing. */
  lemma ResumeCompletesIff(etag: nat, file: File, v: View, base: int, c: Client, w: View)
    requires WellFormedFile(file.lines, file.position) && AllDecodable(Records(file.lines))
    requires v.meta.last.None? && v.meta.etag == Some(etag) && HasOffset(v) && v.meta.applied == Some(base)
    requires var k := FindCheckpoint(file.lines, v.meta.offset.value);
             k < |file.lines| && CatchesUp(file.lines, k, v.entities)
    requires c == Resumed(etag, FindCheckpoint(file.lines, v.meta.offset.value), v.meta.offset.value, base)
    requires w == FetchRest(file, RunView(v, c.queue), c.mode)
    ensures w.meta.last.Some? <==>
            && base == |Records(file.lines[..c.mode.at])|
            && AllAcceptable(file.lines[c.mode.at..]) && Replaceable(v.entities, Records(file.lines[c.mode.at..]))
    ensures w.meta.last.Some? ==> w.meta.last == Some(file.position) && w.entities == Full(file.lines)
    ensures AllAcceptable(file.lines) ==> FreshRest(etag, file).entities == Full(file.lines)
    ensures base != |Records(file.lines[..c.mode.at])| ==> w.entities == v.entities
  {
    ResumedStarts(etag, file, v, base, c);
    if base == |Records(file.lines[..c.mode.at])| {
      FetchCompletesIff(file, RunView(v, c.queue), c.mode);
      assert [] + Records(file.lines[c.mode.at..]) == Records(file.lines[c.mode.at..]);
    } else {
      TornRejected(file, c.mode);
    }
    FreshCompletes(etag, file);
  }

  lemma FreshCompletes(etag: nat, file: File)
    requires WellFormedFile(file.lines, file.position) && AllDecodable(Records(file.lines))
    ensures AllAcceptable(file.lines) ==> FreshRest(etag, file).entities == Full(file.lines)
  {
    var start, f := RunView(View(map[], NO_META), Fresh(etag).queue), Fresh(etag).mode;
    FreshStarts(etag, file);
    RunBookkeeping(View(map[], NO_META), Fresh(etag).queue);
    hide Ongoing, FetchOk, FetchRest, RunView, WellFormedFile;
    assert file.lines[0..] == file.lines && start.entities == map[];
    assert AllAcceptable(file.lines) ==> CanFinish(file, start, f);
    FetchCompletesIff(file, start, f);
  }

  // --------------------------------------------------------------- the stream

  /** One event, from the server's read to the stored cursor. */
  function FollowOne(up: Node, me: Node, now: nat): Node {
    var served := ClientStep(up, me, Serve(1));
    var queued := ClientStep(up, served, Proceed);
    ClientStep(up, ClientStep(up, queued, Exec(now)), Exec(now))
  }

  function Round(up: Node, now: nat): Node -> Node { (me: Node) => FollowOne(up, me, now) }

  function Follow(up: Node, me: Node, n: nat, now: nat): Node { Iterate(Round(up, now), me, n) }

  /** A stream that has nothing in flight: the server's position is the stored cursor. */
  predicate Following(me: Node, cursor: nat) {
    me.client == Client(Streaming([], cursor, true), [], true) && me.db.meta.last == Some(cursor)
  }

  /** A replica of a sound node, which may be sound itself. */
  ghost predicate BothOk(up: Node, me: Node, sound: bool) {
    NodeOk(up) && NodeTidy(me) && (sound ==> NodeOk(me)) && LinkOk(up, me, true)
  }

  lemma StepKeepsBoth(up: Node, me: Node, mv: ClientMove, sound: bool)
    requires BothOk(up, me, sound) && !mv.Cut?
    requires mv.Exec? && me.client.queue != [] ==> Sane(me.client.queue[0])
    ensures BothOk(up, ClientStep(up, me, mv), sound)
  {
    ClientPasses(up, me, mv, sound);
    ClientKeepsLink(up, me, mv, true);
  }

  /** The two commands of an event that still counts are sane, and neither is refused. */
  lemma EventGoesThrough(up: Node, me: Node, sound: bool)
    requires BothOk(up, me, sound) && me.client.mode.Streaming? && me.client.mode.open && me.client.queue != []
    ensures Sane(me.client.queue[0]) && !Fails(me.db.entities, me.client.queue[0])
  {
    assert Decodable(me.client.mode.inflight[0].change);
    assert Aligned(up.db, me.db.meta.last.value, me.client.mode.inflight, me.client.mode.cursor);
  }

  lemma Executing(up: Node, me: Node, now: nat, sound: bool)
    requires BothOk(up, me, sound) && me.client.mode.Streaming? && me.client.mode.open && me.client.queue != []
    ensures var next := ClientStep(up, me, Exec(now));
            && next.client == Executed(me.client) && next.db == Apply(me.db, me.client.queue[0], now)
            && BothOk(up, next, sound)
  {
    EventGoesThrough(up, me, sound);
    StepKeepsBoth(up, me, Exec(now), sound);
  }

  lemma EventDone(up: Node, me: Node, e: LogEntry, cursor: nat, now: nat, sound: bool)
    requires BothOk(up, me, sound)
    requires me.client == Client(Streaming([e], cursor, true), [Write(e.change), SetLast(e.id)], true)
    ensures var done := ClientStep(up, ClientStep(up, me, Exec(now)), Exec(now));
            && done.client == Client(Streaming([], cursor, true), [], true) && done.db.meta.last == Some(e.id)
            && BothOk(up, done, sound)
  {
    hide BothOk;
    var q := me.client.queue;
    var half := ClientStep(up, me, Exec(now));
    Executing(up, me, now, sound);
    assert q[1..] == [SetLast(e.id)];
    assert half.client == Client(Streaming([e], cursor, true), [SetLast(e.id)], true);
    Executing(up, half, now, sound);
    assert [SetLast(e.id)][1..] == [] && [e][1..] == [];
  }

  lemma ServedOne(up: Node, me: Node, cursor: nat, e: LogEntry)
    requires Following(me, cursor) && After(up.db.log, cursor) != [] && e == After(up.db.log, cursor)[0]
    ensures ClientStep(up, me, Serve(1)) == me.(client := Client(Streaming([e], e.id, true), [], true))
  {
    assert Read(up.db.log, cursor, Min(STREAM_READ_COUNT, 1)) == [e];
    assert [] + [e] == [e];
  }

  lemma FollowsOne(up: Node, me: Node, cursor: nat, now: nat, sound: bool)
    requires BothOk(up, me, sound) && Following(me, cursor) && After(up.db.log, cursor) != []
    requires Wire.EventFits(After(up.db.log, cursor)[0])
    ensures Following(FollowOne(up, me, now), After(up.db.log, cursor)[0].id)
    ensures BothOk(up, FollowOne(up, me, now), sound)
  {
    var e := After(up.db.log, cursor)[0];
    ServedOne(up, me, cursor, e);
    var served := ClientStep(up, me, Serve(1));
    var queued := ClientStep(up, served, Proceed);
    StepKeepsBoth(up, me, Serve(1), sound);
    StepKeepsBoth(up, served, Proceed, sound);
    Queued(up, served, e);
    EventDone(up, queued, e, e.id, now, sound);
  }

  lemma Queued(up: Node, served: Node, e: LogEntry)
    requires served.client == Client(Streaming([e], e.id, true), [], true) && Wire.EventFits(e)
    ensures ClientStep(up, served, Proceed).client ==
            Client(Streaming([e], e.id, true), [Write(e.change), SetLast(e.id)], true)
  {
  }

  lemma PastFirst(log: seq<LogEntry>, cursor: nat)
    requires Increasing(log) && After(log, cursor) != []
    ensures After(log, After(log, cursor)[0].id) == After(log, cursor)[1..]
    ensures After(log, cursor)[0].id > cursor
  {
    var all := After(log, cursor);
    AfterAdvance(log, cursor, [all[0]], all[1..]);
    AfterMembers(log, cursor);
    assert all[0] in all;
  }

  /** Where the replica is after n rounds. */
  ghost predicate FollowedTo(up: Node, me: Node, cursor: nat, n: nat, at: nat, sound: bool) {
    && BothOk(up, me, sound) && Following(me, at) && at >= cursor
    && n <= |After(up.db.log, cursor)| && After(up.db.log, at) == After(up.db.log, cursor)[n..]
  }

  lemma FollowsNext(up: Node, me: Node, cursor: nat, n: nat, at: nat, now: nat, sound: bool)
    requires FollowedTo(up, me, cursor, n, at, sound) && n < |After(up.db.log, cursor)|
    requires Wire.EventFits(After(up.db.log, cursor)[n])
    ensures FollowedTo(up, FollowOne(up, me, now), cursor, n + 1, After(up.db.log, at)[0].id, sound)
  {
    IncreasingParts(up.db.removed, up.db.log);
    PastFirst(up.db.log, at);
    FollowsOne(up, me, at, now, sound);
    assert After(up.db.log, cursor)[n..][1..] == After(up.db.log, cursor)[n + 1..];
  }

  lemma FollowMore(up: Node, me: Node, n: nat, now: nat, before: Node)
    requires n > 0 && before == Follow(up, me, n - 1, now)
    ensures Follow(up, me, n, now) == FollowOne(up, before, now)
  {
  }

  lemma {:induction false} FollowsAll(up: Node, me: Node, cursor: nat, n: nat, now: nat, sound: bool)
    returns (m: Node, at: nat)
    requires FollowedTo(up, me, cursor, 0, cursor, sound) && n <= |After(up.db.log, cursor)|
    requires Wire.EventsFit(After(up.db.log, cursor)[..n])
    ensures m == Follow(up, me, n, now) && FollowedTo(up, m, cursor, n, at, sound)
    decreases n
  {
    m, at := me, cursor;
    if n > 0 {
      var all := After(up.db.log, cursor);
      assert all[..n][n - 1] == all[n - 1] && all[..n - 1] == all[..n][..n - 1];
      var before, was := FollowsAll(up, me, cursor, n - 1, now, sound);
      FollowsNext(up, before, cursor, n - 1, was, now, sound);
      FollowMore(up, me, n, now, before);
      m, at := FollowOne(up, before, now), After(up.db.log, was)[0].id;
    }
  }

  lemma NothingLeft(up: Node, me: Node, cursor: nat, sound: bool)
    requires BothOk(up, me, sound) && Following(me, cursor) && After(up.db.log, cursor) == []
    ensures me.db.entities == up.db.entities && (sound ==> SameStore(up, me))
  {
    assert StreamOk(up.db, ViewOf(me.db), me.client);
    AfterSkips(up.db.removed, up.db.log, cursor);
    SameEntities(up.db, ViewOf(me.db), cursor);
    if sound { IndexUnique(up.db.entities, up.db.index, me.db.index); }
  }

  lemma SameEntities(db: Db, v: View, cursor: nat)
    requires CursorOk(db, v) && v.meta.last == Some(cursor) && cursor > db.floor && After(History(db), cursor) == []
    ensures v.entities == db.entities
  {
    assert Since(db, cursor) == [];
  }

  // ------------------------------------------------- an event that does not fit

  lemma IdleStep(up: Node, me: Node, mv: ClientMove)
    requires me.client == IDLE && (mv.Serve? || mv.Proceed? || mv.Exec?)
    ensures ClientStep(up, me, mv) == me
  {
  }

  lemma IdleRound(up: Node, me: Node, now: nat)
    requires me.client == IDLE
    ensures FollowOne(up, me, now) == me
  {
    IdleStep(up, me, Serve(1));
    IdleStep(up, me, Proceed);
    IdleStep(up, me, Exec(now));
  }

  lemma GivenUp(up: Node, served: Node, e: LogEntry)
    requires served.client == Client(Streaming([e], e.id, true), [], true) && !Wire.EventFits(e)
    ensures ClientStep(up, served, Proceed).client == IDLE && ClientStep(up, served, Proceed).db == served.db
  {
    assert !NextEventFits(served.client);
  }

  /** A round with an event that does not fit ends the connection and changes nothing. */
  lemma StuckRound(up: Node, me: Node, cursor: nat, now: nat, e: LogEntry)
    requires Following(me, cursor) && After(up.db.log, cursor) != [] && e == After(up.db.log, cursor)[0]
    requires !Wire.EventFits(e)
    ensures FollowOne(up, me, now).client == IDLE && FollowOne(up, me, now).db == me.db
  {
    var served := ClientStep(up, me, Serve(1));
    ServedOne(up, me, cursor, e);
    GivenUp(up, served, e);
    IdleStep(up, ClientStep(up, served, Proceed), Exec(now));
  }

  lemma IdleRounds(up: Node, me: Node, m: nat, n: nat, now: nat, at: Node)
    requires m <= n && at == Follow(up, me, m, now) && at.client == IDLE
    ensures Follow(up, me, n, now) == at
  {
    IdleRound(up, at, now);
    IterateFixed(Round(up, now), me, m, n);
  }

  /** Where a connection leads: over the events that fit, and no further. */
  lemma StuckAt(up: Node, connected: Node, cursor: nat, n: nat, now: nat, end: Node, sound: bool)
    requires FollowedTo(up, connected, cursor, 0, cursor, sound) && end == Follow(up, connected, n, now)
    requires Leading(After(up.db.log, cursor), Wire.EventFits) < n <= |After(up.db.log, cursor)|
    ensures end.client == IDLE && end.db.meta.last.Some?
    ensures After(up.db.log, end.db.meta.last.value) != []
  {
    var all := After(up.db.log, cursor);
    var m := Leading(all, Wire.EventFits);
    var followed, at := FollowsAll(up, connected, cursor, m, now, sound);
    StuckRound(up, followed, at, now, all[m]);
    FollowMore(up, connected, m + 1, now, followed);
    IdleRounds(up, connected, m + 1, n, now, FollowOne(up, followed, now));
  }

  lemma LastIsEnd(up: Node, id: nat)
    requires Valid(up.db) && up.db.log != []
    ensures id == Last(up.db.log) ==> After(up.db.log, id) == []
  {
    IncreasingParts(up.db.removed, up.db.log);
    if id == Last(up.db.log) { AfterNothing(up.db.log, id); }
  }

  lemma Connects(up: Node, me: Node, last: nat, sound: bool)
    requires BothOk(up, me, sound) && me.client == IDLE && me.db.meta.last == Some(last) && Covered(up.db.log, last)
    ensures FollowedTo(up, ClientStep(up, me, Begin(false)), last, 0, last, sound)
  {
    StepKeepsBoth(up, me, Begin(false), sound);
    assert After(up.db.log, last)[0..] == After(up.db.log, last);
  }

  lemma FollowsToTheEnd(up: Node, connected: Node, last: nat, now: nat, sound: bool)
    requires FollowedTo(up, connected, last, 0, last, sound) && Wire.EventsFit(After(up.db.log, last))
    ensures var end := Follow(up, connected, |After(up.db.log, last)|, now);
            end.db.entities == up.db.entities && (sound ==> SameStore(up, end))
  {
    var all := After(up.db.log, last);
    assert all[..|all|] == all;
    var followed, at := FollowsAll(up, connected, last, |all|, now, sound);
    NothingLeft(up, followed, at, sound);
  }

  lemma StaysBehind(up: Node, connected: Node, last: nat, now: nat, end: Node, sound: bool)
    requires FollowedTo(up, connected, last, 0, last, sound)
    requires !Wire.EventsFit(After(up.db.log, last)) && up.db.log != []
    requires end == Follow(up, connected, |After(up.db.log, last)|, now)
    ensures end.client == IDLE && !AtEnd(up, end)
  {
    StuckAt(up, connected, last, |After(up.db.log, last)|, now, end, sound);
    LastIsEnd(up, end.db.meta.last.value);
  }

  lemma AfterDecodes(log: seq<LogEntry>, cursor: nat)
    requires LogDecodes(log)
    ensures LogDecodes(After(log, cursor))
  {
    AfterIsSuffix(log, cursor);
  }

  lemma LogOfHistory(db: Db)
    requires LogDecodes(History(db))
    ensures LogDecodes(db.log)
  {
    forall i | 0 <= i < |db.log| ensures Decodable(db.log[i].change) {
      assert History(db)[|db.removed| + i] == db.log[i];
    }
  }

  /** A replica whose cursor its upstream still covers catches up: once connected, one round for
      each entry after the cursor gives it the entities of its upstream, and if its own store was
      sound the index too, iff the text served for these entries passes the client's scanner.
      Otherwise the connection ends before the first that does not, and so does every later one. */
  lemma CoveredCatchesUpIff(up: Node, me: Node, now: nat, last: nat, end: Node)
    requires NodeOk(up) && NodeTidy(me) && LinkOk(up, me, true) && me.client == IDLE
    requires me.db.meta.last == Some(last) && Covered(up.db.log, last)
    requires end == Follow(up, ClientStep(up, me, Begin(false)), |After(up.db.log, last)|, now)
    ensures !Wire.Arrived(Wire.EventChunks(After(up.db.log, last))).tooLong ==>
              end.db.entities == up.db.entities && (NodeOk(me) ==> SameStore(up, end))
    ensures Wire.Arrived(Wire.EventChunks(After(up.db.log, last))).tooLong ==>
              end.client == IDLE && !AtEnd(up, end)
  {
    var sound := NodeOk(me);
    Connects(up, me, last, sound);
    LogOfHistory(up.db);
    AfterDecodes(up.db.log, last);
    Wire.ServedFitsIff(After(up.db.log, last));
    if Wire.EventsFit(After(up.db.log, last)) {
      FollowsToTheEnd(up, ClientStep(up, me, Begin(false)), last, now, sound);
    } else {
      StaysBehind(up, ClientStep(up, me, Begin(false)), last, now, end, sound);
    }
  }
}
