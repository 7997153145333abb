/** connectStream as the loop it is: the events of the lines that arrive, each applied and
    then recorded as the cursor, in one pipeline that may break after any command. */
module StreamClient {
  import opened Text
  import opened Mappings
  import opened EntityMaps
  import opened Store
  import opened StreamIds
  import opened Kvrocks
  import opened Replica
  import opened Completion
  import opened SnapshotFetch
  import opened Wire

  // ----------------------------------------------------------- the commands

  /** The pipeline of one event: the write, then the cursor. */
  function EventCmds(e: LogEntry): seq<Cmd> { [Write(e.change), SetLast(e.id)] }

  function StreamCmds(es: seq<LogEntry>): seq<Cmd> {
    if es == [] then [] else StreamCmds(es[..|es| - 1]) + EventCmds(es[|es| - 1])
  }

  lemma {:induction false} StreamCmdsConcat(a: seq<LogEntry>, b: seq<LogEntry>)
    ensures StreamCmds(a + b) == StreamCmds(a) + StreamCmds(b)
  {
    if b == [] {
      assert a + b == a;
    } else {
      assert (a + b)[..|a + b| - 1] == a + b[..|b| - 1];
      StreamCmdsConcat(a, b[..|b| - 1]);
    }
  }

  lemma StreamCmdsAppend(es: seq<LogEntry>, e: LogEntry)
    ensures StreamCmds(es + [e]) == StreamCmds(es) + EventCmds(e)
  {
    assert (es + [e])[..|es|] == es;
  }

  lemma {:induction false} StreamCmdsLength(es: seq<LogEntry>)
    ensures |StreamCmds(es)| == 2 * |es|
  {
    if es != [] { StreamCmdsLength(es[..|es| - 1]); }
  }

  function CursorAfter(last: Option<nat>, es: seq<LogEntry>): Option<nat> {
    if es == [] then last else Some(es[|es| - 1].id)
  }

  lemma RunEvent(v: View, e: LogEntry)
    ensures RunView(v, EventCmds(e)) == View(ApplyChange(v.entities, e.change), v.meta.(last := Some(e.id)))
  {
    assert EventCmds(e)[1..] == [SetLast(e.id)];
    RunOne(ApplyView(v, Write(e.change)), SetLast(e.id));
  }

  lemma {:induction false} WholeEvents(v: View, es: seq<LogEntry>)
    ensures RunView(v, StreamCmds(es)) ==
            View(Replay(v.entities, Changes(es)), v.meta.(last := CursorAfter(v.meta.last, es)))
  {
    if es != [] {
      var n := |es| - 1;
      WholeEvents(v, es[..n]);
      RunConcat(v, StreamCmds(es[..n]), EventCmds(es[n]));
      RunEvent(RunView(v, StreamCmds(es[..n])), es[n]);
      ReplayAppend(v.entities, Changes(es[..n]), es[n].change);
    }
  }

  /** The first half of the (n+1)-th pipeline follows the pipelines before it. */
  lemma CmdsAt(es: seq<LogEntry>, n: nat)
    requires n < |es|
    ensures 2 * n + 1 < |StreamCmds(es)|
    ensures StreamCmds(es)[..2 * n] == StreamCmds(es[..n])
    ensures StreamCmds(es)[..2 * n + 1] == StreamCmds(es[..n]) + [Write(es[n].change)]
  {
    var before, e, rest := StreamCmds(es[..n]), EventCmds(es[n]), StreamCmds(es[n + 1..]);
    StreamCmdsLength(es[..n]);
    StreamCmdsAppend(es[..n], es[n]);
    StreamCmdsConcat(es[..n] + [es[n]], es[n + 1..]);
    assert es[..n] + [es[n]] + es[n + 1..] == es;
    assert StreamCmds(es) == before + e + rest;
  }

  lemma HalfEvent(v: View, es: seq<LogEntry>, e: LogEntry)
    ensures RunView(v, StreamCmds(es) + [Write(e.change)]) ==
            View(Replay(v.entities, Changes(es + [e])), v.meta.(last := CursorAfter(v.meta.last, es)))
  {
    WholeEvents(v, es);
    RunConcat(v, StreamCmds(es), [Write(e.change)]);
    RunOne(RunView(v, StreamCmds(es)), Write(e.change));
    assert (es + [e])[..|es|] == es;
    ReplayAppend(v.entities, Changes(es), e.change);
  }

  /** The first m changes are applied, and the cursor of the first n is stored. */
  predicate StoredAt(v: View, es: seq<LogEntry>, w: View, n: nat, m: nat) {
    && n <= |es| && m <= |es|
    && w == View(Replay(v.entities, Changes(es[..m])), v.meta.(last := CursorAfter(v.meta.last, es[..n])))
  }

  lemma BrokenBetween(v: View, es: seq<LogEntry>, n: nat)
    requires n <= |es|
    ensures 2 * n <= |StreamCmds(es)|
    ensures RunView(v, StreamCmds(es)[..2 * n]) ==
            View(Replay(v.entities, Changes(es[..n])), v.meta.(last := CursorAfter(v.meta.last, es[..n])))
  {
    StreamCmdsLength(es);
    WholeEvents(v, es[..n]);
    if n == |es| {
      assert es[..n] == es && StreamCmds(es)[..2 * n] == StreamCmds(es);
    } else {
      CmdsAt(es, n);
    }
  }

  lemma BrokenWithin(v: View, es: seq<LogEntry>, n: nat)
    requires n < |es|
    ensures 2 * n + 1 <= |StreamCmds(es)|
    ensures RunView(v, StreamCmds(es)[..2 * n + 1]) ==
            View(Replay(v.entities, Changes(es[..n + 1])), v.meta.(last := CursorAfter(v.meta.last, es[..n])))
  {
    CmdsAt(es, n);
    HalfEvent(v, es[..n], es[n]);
    assert es[..n] + [es[n]] == es[..n + 1];
  }

  /** Wherever a connection breaks, the stored cursor names the last event whose change is
      applied, or the one before it: the entities may lead the cursor by one event, and the
      cursor never leads the entities. */
  lemma CursorNeverLeads(v: View, es: seq<LogEntry>, k: nat)
    requires k <= |StreamCmds(es)|
    ensures exists n: nat, m: nat :: n <= m <= n + 1 && StoredAt(v, es, RunView(v, StreamCmds(es)[..k]), n, m)
  {
    StreamCmdsLength(es);
    var n: nat := k / 2;
    var w := RunView(v, StreamCmds(es)[..k]);
    if k == 2 * n {
      BrokenBetween(v, es, n);
      assert StoredAt(v, es, w, n, n);
    } else {
      BrokenWithin(v, es, n);
      assert StoredAt(v, es, w, n, n + 1);
    }
  }

  // ------------------------------------------------------------- deliveries

  function EntryOf(d: Delivery): LogEntry {
    LogEntry(Rank(d.id), Change(d.qid, if d.raw == "" then None else Some(d.raw)))
  }

  predicate AllGood(ds: seq<Delivery>) { forall i :: 0 <= i < |ds| ==> Decodable(EntryOf(ds[i]).change) }

  function EntriesOf(ds: seq<Delivery>): (es: seq<LogEntry>)
    ensures |es| == |ds| && forall i :: 0 <= i < |es| ==> es[i] == EntryOf(ds[i])
  {
    seq(|ds|, i requires 0 <= i < |ds| => EntryOf(ds[i]))
  }

  function Sent(chunks: seq<Chunk>): seq<LogEntry> {
    if chunks == [] then [] else (if chunks[0].Event? then [chunks[0].entry] else []) + Sent(chunks[1..])
  }

  predicate IdsFit(chunks: seq<Chunk>) {
    forall i :: 0 <= i < |chunks| && chunks[i].Event? ==> chunks[i].entry.id < BASE * BASE
  }

  lemma DeliveredEntry(e: LogEntry)
    requires e.id < BASE * BASE && Decodable(e.change)
    ensures EntryOf(DeliveryOf(e)) == e
  {
    RankIdText(e.id);
    if e.change.mappings.Some? { RawIsOneLine(e.change.mappings.value); }
  }

  lemma EntriesConcat(a: seq<Delivery>, b: seq<Delivery>)
    ensures EntriesOf(a + b) == EntriesOf(a) + EntriesOf(b)
  {
  }

  lemma {:induction false} DeliveredEntries(chunks: seq<Chunk>)
    requires AllWireable(chunks) && IdsFit(chunks)
    ensures EntriesOf(Deliveries(chunks)) == Sent(chunks)
  {
    if chunks != [] {
      DeliveredEntries(chunks[1..]);
      EntriesConcat(EventOf(chunks[0]), Deliveries(chunks[1..]));
      if chunks[0].Event? {
        assert Wireable(chunks[0]);
        DeliveredEntry(chunks[0].entry);
      }
    }
  }

  lemma EntriesPrefix(a: seq<Delivery>, b: seq<Delivery>)
    requires a <= b
    ensures EntriesOf(a) <= EntriesOf(b)
  {
  }

  /** What arrives of a response that breaks off within line k. */
  function CutLines(chunks: seq<Chunk>, k: nat, j: nat): seq<string>
    requires k < |StreamLines(chunks)| && j <= |StreamLines(chunks)[k]|
  {
    ScanLines(CutText(StreamLines(chunks), k, j), STREAM_LINE_LIMIT).lines
  }

  /** End to end, text included: the log entries the client applies are those the server sent,
      if every line is below the limit; after a cut they are a beginning of them, unless what
      is left of the last line is taken for a change. */
  lemma EntriesCross(chunks: seq<Chunk>, k: nat, j: nat)
    requires AllWireable(chunks) && IdsFit(chunks)
    requires k < |StreamLines(chunks)| && j <= |StreamLines(chunks)[k]| && FitTo(StreamLines(chunks), k, j)
    ensures AllFit(StreamLines(chunks), STREAM_LINE_LIMIT) ==>
              EntriesOf(Received(Arrived(chunks).lines)) == Sent(chunks)
    ensures j == 0 || !TakenData(StreamLines(chunks)[k][..j]) ==>
              EntriesOf(Received(CutLines(chunks, k, j))) <= Sent(chunks)
  {
    WireRoundTrip(chunks);
    DeliveredEntries(chunks);
    if j == 0 || !TakenData(StreamLines(chunks)[k][..j]) {
      CutDelivers(chunks, k, j);
      EntriesPrefix(Received(CutLines(chunks, k, j)), Deliveries(chunks));
    }
  }

  // ------------------------------------------------------------ connectStream

  /** The first i lines read: what they delivered, and the fields they left. */
  ghost predicate ReadTo(lines: seq<string>, i: nat, fields: Fields, taken: seq<Delivery>)
    requires i <= |lines|
  {
    && Received(lines) == taken + Deliver(fields, Kinds(lines[i..]))
    && ResetIn(lines) == FindReset(fields, Kinds(lines[i..]))
  }

  lemma KindOn(f: Fields, kind: Kind, after: seq<Kind>, taken: seq<Delivery>)
    ensures var act, next := ActOn(f, kind), Feed(f, kind);
            && FindReset(f, [kind] + after) == (if act.Reset? then Some(act.data) else FindReset(next, after))
            && taken + Deliver(f, [kind] + after) ==
               if act.Reset? then taken
               else (if act.Take? then taken + [act.d] else taken) + Deliver(next, after)
  {
    OneLine(f, kind, after);
    assert taken + [] == taken;
    if ActOn(f, kind).Take? { Regroup(taken, [ActOn(f, kind).d], Deliver(Feed(f, kind), after)); }
  }

  lemma KindsFrom(lines: seq<string>, i: nat)
    requires i < |lines|
    ensures Kinds(lines[i..]) == [Classify(lines[i])] + Kinds(lines[i + 1..])
  {
  }

  lemma ReadOn(lines: seq<string>, i: nat, fields: Fields, taken: seq<Delivery>)
    requires i < |lines| && ReadTo(lines, i, fields, taken)
    ensures var kind := Classify(lines[i]);
            match ActOn(fields, kind)
            case Go => ReadTo(lines, i + 1, Feed(fields, kind), taken)
            case Take(d) => ReadTo(lines, i + 1, Feed(fields, kind), taken + [d])
            case Reset(data) => Received(lines) == taken && ResetIn(lines) == Some(data)
  {
    KindsFrom(lines, i);
    KindOn(fields, Classify(lines[i]), Kinds(lines[i + 1..]), taken);
  }

  /** What was taken is the beginning of what the lines deliver. */
  lemma TakenSoFar(lines: seq<string>, i: nat, fields: Fields, taken: seq<Delivery>)
    requires i <= |lines| && ReadTo(lines, i, fields, taken)
    ensures EntriesOf(taken) <= EntriesOf(Received(lines))
    ensures i == |lines| ==> taken == Received(lines) && ResetIn(lines).None?
  {
    EntriesPrefix(taken, Received(lines));
    if i == |lines| { assert Kinds(lines[i..]) == [] && taken + [] == taken; }
  }

  // ------------------------------------------------------ how it can end

  lemma {:induction false} ThroughConcat(v: View, a: seq<Cmd>, b: seq<Cmd>)
    ensures GoesThrough(v, a + b) <==> GoesThrough(v, a) && GoesThrough(RunView(v, a), b)
    decreases |a|
  {
    if a == [] {
      assert a + b == b;
    } else {
      assert (a + b)[1..] == a[1..] + b;
      ThroughConcat(ApplyView(v, a[0]), a[1..], b);
    }
  }

  /** A store that holds these changes, and the id of the last of them as its cursor. */
  function AfterEvents(v: View, es: seq<LogEntry>): View {
    View(Replay(v.entities, Changes(es)), v.meta.(last := CursorAfter(v.meta.last, es)))
  }

  /** Every one of these events was applied and recorded: its pipeline was answered, and no
      command of it refused. */
  ghost predicate AllApplied(net: nat -> Trip, at: nat, v: View, es: seq<LogEntry>) {
    NoneLost(net, at, at + |es|) && GoesThrough(v, StreamCmds(es))
  }

  /** The pipeline of event n was lost or refused, after all events before it were applied and
      recorded; of its two commands, as many ran as the network let through. */
  ghost predicate FailedAt(net: nat -> Trip, at: nat, made: nat, v: View, w: View, es: seq<LogEntry>, n: nat) {
    && n < |es| && made == at + n + 1 && AllApplied(net, at, v, es[..n])
    && var before := AfterEvents(v, es[..n]);
       && w == RunView(before, EventCmds(es[n])[..Ran(net(at + n), 2)])
       && (net(at + n).Lost? || !GoesThrough(before, EventCmds(es[n])))
  }

  /** All events were applied and recorded, and then the flush of the reset broke. */
  ghost predicate ResetBroke(net: nat -> Trip, at: nat, made: nat, v: View, w: View, es: seq<LogEntry>) {
    && AllApplied(net, at, v, es) && !NoneLost(net, at + |es|, made)
    && (w == AfterEvents(v, es) || w == View(map[], NO_META))
  }

  datatype StreamEnd = Closed | Failed | Seeding | Flushed

  /** How a connection ends when no pipeline fails. */
  function ProperEnd(lines: seq<string>, broken: bool, stateOf: string -> string): StreamEnd {
    match ResetIn(lines)
    case Some(data) => if stateOf(data) == "seeding" then Seeding else Flushed
    case None => if broken then Failed else Closed
  }

  /** How a connection can end that found the store like v and left it like w, its pipelines being
      those from `at` up to `made`: everything was applied and recorded, and then the store flushed
      if a reset asks for it; or one pipeline failed, after all before it went through. */
  ghost predicate Ended(lines: seq<string>, broken: bool, stateOf: string -> string, net: nat -> Trip, at: nat,
                        made: nat, v: View, w: View, end: StreamEnd) {
    var es, proper := EntriesOf(Received(lines)), ProperEnd(lines, broken, stateOf);
    || (end == proper && AllApplied(net, at, v, es) &&
        w == if end.Flushed? then View(map[], NO_META) else AfterEvents(v, es))
    || (end.Failed? && proper.Flushed? && ResetBroke(net, at, made, v, w, es))
    || (end.Failed? && exists n :: FailedAt(net, at, made, v, w, es, n))
  }

  lemma FailureShows(net: nat -> Trip, at: nat, made: nat, v: View, w: View, es: seq<LogEntry>, n: nat)
    requires FailedAt(net, at, made, v, w, es, n)
    ensures !NoneLost(net, at, made) || !GoesThrough(v, StreamCmds(es))
  {
    if NoneLost(net, at, made) {
      assert net(at + n).Answered?;
      WholeEvents(v, es[..n]);
      StreamCmdsAppend(es[..n], es[n]);
      assert es == (es[..n] + [es[n]]) + es[n + 1..];
      StreamCmdsConcat(es[..n] + [es[n]], es[n + 1..]);
      ThroughConcat(v, StreamCmds(es[..n] + [es[n]]), StreamCmds(es[n + 1..]));
      ThroughConcat(v, StreamCmds(es[..n]), EventCmds(es[n]));
    }
  }

  /** When no pipeline is lost and none refused, everything was applied. */
  lemma EndsProperly(lines: seq<string>, broken: bool, stateOf: string -> string, net: nat -> Trip, at: nat, made: nat,
                     v: View, w: View, end: StreamEnd)
    requires Ended(lines, broken, stateOf, net, at, made, v, w, end)
    requires NoneLost(net, at, made) && GoesThrough(v, StreamCmds(EntriesOf(Received(lines))))
    ensures end == ProperEnd(lines, broken, stateOf)
    ensures w == if end.Flushed? then View(map[], NO_META) else AfterEvents(v, EntriesOf(Received(lines)))
  {
    var es := EntriesOf(Received(lines));
    if n :| FailedAt(net, at, made, v, w, es, n) { FailureShows(net, at, made, v, w, es, n); }
  }

  /** On a store of good values no event with good values is refused. */
  lemma {:induction false} GoodEventsGoThrough(v: View, es: seq<LogEntry>)
    requires AllDecode(v.entities) && LogDecodes(es)
    ensures GoesThrough(v, StreamCmds(es)) && AllDecode(AfterEvents(v, es).entities)
  {
    if es != [] {
      var n := |es| - 1;
      assert LogDecodes(es[..n]) && Decodable(es[n].change);
      GoodEventsGoThrough(v, es[..n]);
      WholeEvents(v, es[..n]);
      WholeEvents(v, es);
      ThroughConcat(v, StreamCmds(es[..n]), EventCmds(es[n]));
      GoodEventGoesThrough(AfterEvents(v, es[..n]), es[n]);
      RunConcat(v, StreamCmds(es[..n]), EventCmds(es[n]));
      RunEvent(AfterEvents(v, es[..n]), es[n]);
    }
  }

  lemma GoodEventGoesThrough(v: View, e: LogEntry)
    requires AllDecode(v.entities) && Decodable(e.change)
    ensures GoesThrough(v, EventCmds(e)) && AllDecode(ApplyChange(v.entities, e.change))
  {
    assert EventCmds(e)[1..] == [SetLast(e.id)] && [SetLast(e.id)][1..] == [];
    assert GoesThrough(ApplyView(ApplyView(v, Write(e.change)), SetLast(e.id)), []);
  }

  // ------------------------------------------------------------ the methods

  method QueueEvent(pipe: Pipe, d: Delivery)
    requires !pipe.err && pipe.queued == []
    modifies pipe
    ensures !pipe.err && pipe.queued == EventCmds(EntryOf(d))
  {
    QidRoundTrip(d.qid);
    if d.raw != "" {
      pipe.UpsertRawEntity(IntToQid(d.qid), d.raw);
    } else {
      pipe.DeleteEntity(IntToQid(d.qid));
    }
    pipe.Queue(SetLast(Rank(d.id)));
  }

  /** One change event: upsert or delete, then the cursor, in one pipeline. It fails exactly when
      the pipeline is lost or its write refused; if it is not lost, both commands run. */
  method TakeEvent(server: Server, d: Delivery, now: int -> nat) returns (ok: bool, ghost done: nat)
    modifies server
    ensures server.calls == old(server.calls) + 1 && done == Ran(server.net(old(server.calls)), 2)
    ensures ok <==> server.net(old(server.calls)).Answered? &&
                    GoesThrough(ViewOf(old(server.Value())), EventCmds(EntryOf(d)))
    ensures ViewOf(server.Value()) == RunView(ViewOf(old(server.Value())), EventCmds(EntryOf(d))[..done])
    ensures old(Valid(server.Value())) && Decodable(EntryOf(d).change) ==> Valid(server.Value())
  {
    ghost var before, cmds := server.Value(), EventCmds(EntryOf(d));
    var pipe := new Pipe();
    QueueEvent(pipe, d);
    var applied: nat;
    ok, applied := pipe.Exec(server, now);
    done := applied;
    ViewOfPrefix(before, cmds, now, applied);
    SucceedsIff(before, cmds, now, 2);
    assert cmds[..2] == cmds;
  }

  /** connectStream over the lines that arrive. It applies and records exactly the events the lines
      deliver, in order, up to the first pipeline that fails, and then does what a reset asks for.
      `stateOf` reads the upstream state from the data of a reset, and `broken` says that the
      scanner ended with an error: a lost connection, or a line above its limit. A failure has one
      of these causes, and if no pipeline was lost and none refused, everything is applied. */
  method ConnectStream(server: Server, lines: seq<string>, broken: bool, stateOf: string -> string, now: int -> nat)
    returns (end: StreamEnd)
    modifies server
    ensures server.calls >= old(server.calls)
    ensures Ended(lines, broken, stateOf, server.net, old(server.calls), server.calls, ViewOf(old(server.Value())),
                  ViewOf(server.Value()), end)
    ensures NoneLost(server.net, old(server.calls), server.calls) && old(Valid(server.Value())) &&
            AllGood(Received(lines)) ==>
              && end == ProperEnd(lines, broken, stateOf)
              && ViewOf(server.Value()) ==
                 (if end.Flushed? then View(map[], NO_META)
                  else AfterEvents(ViewOf(old(server.Value())), EntriesOf(Received(lines))))
              && (!end.Flushed? && Received(lines) != [] ==>
                    server.meta.last == Some(Rank(Received(lines)[|Received(lines)| - 1].id)))
    ensures old(Valid(server.Value())) && AllGood(Received(lines)) ==> Valid(server.Value())
  {
    ghost var v, at := ViewOf(server.Value()), server.calls;
    if Valid(server.Value()) && AllGood(Received(lines)) { GoodEventsGoThrough(v, EntriesOf(Received(lines))); }
    NothingYet(server.net, at, v);
    hide Valid, AllApplied, AfterEvents, Ended, GoesThrough, ProperEnd, AllGood;
    var stop := ReadStream(server, lines, broken, stateOf, at, v, now);
    end := if stop.Some? then stop.value else if broken then Failed else Closed;
    if stop.None? { EndOfLines(lines, broken, stateOf, server, at, v, end); }
    if NoneLost(server.net, at, server.calls) && old(Valid(server.Value())) && AllGood(Received(lines)) {
      EndsProperly(lines, broken, stateOf, server.net, at, server.calls, v, ViewOf(server.Value()), end);
    }
  }

  /** The loop over the lines, up to the first that ends the connection. */
  method ReadStream(server: Server, lines: seq<string>, ghost broken: bool, stateOf: string -> string, ghost at: nat,
                    ghost v: View, now: int -> nat)
    returns (stop: Option<StreamEnd>)
    requires Here(server, at, v, []) && server.calls >= at
    modifies server
    ensures server.calls >= at
    ensures stop.Some? ==>
              Ended(lines, broken, stateOf, server.net, at, server.calls, v, ViewOf(server.Value()), stop.value)
    ensures stop.None? ==> ResetIn(lines).None? && Here(server, at, v, Received(lines))
    ensures old(Valid(server.Value())) && AllGood(Received(lines)) ==> Valid(server.Value())
  {
    hide Valid, Here, Ended, AllGood;
    var fields, i := AT_START, 0;
    ghost var taken: seq<Delivery> := [];
    assert lines[0..] == lines;
    stop := None;
    while i < |lines|
      invariant i <= |lines| && ReadTo(lines, i, fields, taken) && Here(server, at, v, taken)
      invariant server.calls >= at && stop.None?
      invariant old(Valid(server.Value())) && AllGood(Received(lines)) ==> Valid(server.Value())
    {
      stop, fields, taken := TakeLine(server, lines, broken, i, fields, taken, stateOf, at, v, now);
      if stop.Some? { return; }
      i := i + 1;
    }
    TakenSoFar(lines, i, fields, taken);
  }

  lemma NothingYet(net: nat -> Trip, at: nat, v: View)
    ensures AllApplied(net, at, v, []) && AfterEvents(v, []) == v
  {
  }

  /** The store after these deliveries were applied and recorded, one pipeline each. */
  ghost predicate Here(server: Server, at: nat, v: View, taken: seq<Delivery>)
    reads server
  {
    && server.calls == at + |taken| && AllApplied(server.net, at, v, EntriesOf(taken))
    && ViewOf(server.Value()) == AfterEvents(v, EntriesOf(taken))
  }

  lemma EndOfLines(lines: seq<string>, broken: bool, stateOf: string -> string, server: Server, at: nat, v: View,
                   end: StreamEnd)
    requires ResetIn(lines).None? && Here(server, at, v, Received(lines)) && end == if broken then Failed else Closed
    ensures Ended(lines, broken, stateOf, server.net, at, server.calls, v, ViewOf(server.Value()), end)
  {
  }

  /** The loop body: one line. */
  method TakeLine(server: Server, lines: seq<string>, ghost broken: bool, i: nat, before: Fields,
                  ghost had: seq<Delivery>, stateOf: string -> string, ghost at: nat, ghost v: View, now: int -> nat)
    returns (stop: Option<StreamEnd>, fields: Fields, ghost taken: seq<Delivery>)
    requires i < |lines| && ReadTo(lines, i, before, had) && Here(server, at, v, had)
    modifies server
    ensures server.calls >= at
    ensures stop.Some? ==>
              Ended(lines, broken, stateOf, server.net, at, server.calls, v, ViewOf(server.Value()), stop.value)
    ensures stop.None? ==> ReadTo(lines, i + 1, fields, taken) && Here(server, at, v, taken)
    ensures old(Valid(server.Value())) && AllGood(Received(lines)) ==> Valid(server.Value())
  {
    var kind := Classify(lines[i]);
    var act := ActOn(before, kind);
    ReadOn(lines, i, before, had);
    stop, fields, taken := None, Feed(before, kind), had;
    match act {
      case Go =>
      case Take(d) =>
        taken := had + [d];
        var ok := ApplyNext(server, lines, i + 1, fields, had, d, at, v, now);
        if !ok { stop := Some(Failed); }
      case Reset(data) =>
        var end := EndWithReset(server, lines, broken, data, stateOf, at, v, now);
        stop := Some(end);
    }
  }

  lemma TakenGood(lines: seq<string>, i: nat, fields: Fields, taken: seq<Delivery>, d: Delivery)
    requires i <= |lines| && ReadTo(lines, i, fields, taken + [d]) && AllGood(Received(lines))
    ensures Decodable(EntryOf(d).change)
  {
    assert Received(lines)[|taken|] == d;
  }

  /** One more event went through. */
  lemma AppliedMore(net: nat -> Trip, at: nat, v: View, es: seq<LogEntry>, e: LogEntry)
    requires AllApplied(net, at, v, es) && net(at + |es|).Answered?
    requires GoesThrough(AfterEvents(v, es), EventCmds(e))
    ensures AllApplied(net, at, v, es + [e])
    ensures AfterEvents(v, es + [e]) == RunView(AfterEvents(v, es), EventCmds(e))
  {
    WholeEvents(v, es);
    StreamCmdsAppend(es, e);
    ThroughConcat(v, StreamCmds(es), EventCmds(e));
    RunEvent(AfterEvents(v, es), e);
    assert (es + [e])[..|es|] == es;
    ReplayAppend(v.entities, Changes(es), e.change);
  }

  lemma EventFailed(net: nat -> Trip, at: nat, made: nat, v: View, w: View, es: seq<LogEntry>, n: nat)
    requires n < |es| && made == at + n + 1 && AllApplied(net, at, v, es[..n])
    requires w == RunView(AfterEvents(v, es[..n]), EventCmds(es[n])[..Ran(net(at + n), 2)])
    requires net(at + n).Lost? || !GoesThrough(AfterEvents(v, es[..n]), EventCmds(es[n]))
    ensures FailedAt(net, at, made, v, w, es, n)
  {
  }

  /** The next delivery, applied after everything before it. */
  method ApplyNext(server: Server, ghost lines: seq<string>, ghost i: nat, ghost fields: Fields,
                   ghost taken: seq<Delivery>, d: Delivery, ghost at: nat, ghost v: View, now: int -> nat)
    returns (ok: bool)
    requires i <= |lines| && ReadTo(lines, i, fields, taken + [d]) && Here(server, at, v, taken)
    modifies server
    ensures !ok ==>
              FailedAt(server.net, at, server.calls, v, ViewOf(server.Value()), EntriesOf(Received(lines)), |taken|)
    ensures ok ==> Here(server, at, v, taken + [d])
    ensures server.calls >= at
    ensures old(Valid(server.Value())) && AllGood(Received(lines)) ==> Valid(server.Value())
  {
    ghost var es, e := EntriesOf(taken), EntryOf(d);
    TakenSoFar(lines, i, fields, taken + [d]);
    assert (taken + [d])[|taken|] == d && EntriesOf(taken + [d]) == es + [e];
    ghost var all := EntriesOf(Received(lines));
    assert all[..|es|] == es && all[|es|] == e;
    if AllGood(Received(lines)) { TakenGood(lines, i, fields, taken, d); }
    hide AllApplied, ReadTo, GoesThrough, RunView, Valid, AfterEvents, EventCmds, FailedAt;
    ghost var k;
    ok, k := TakeEvent(server, d, now);
    if ok {
      AppliedMore(server.net, at, v, es, e);
      BothRun(e);
    } else {
      EventFailed(server.net, at, server.calls, v, ViewOf(server.Value()), all, |taken|);
    }
  }

  lemma BothRun(e: LogEntry)
    ensures EventCmds(e)[..2] == EventCmds(e)
  {
  }

  /** A reset line: keep serving while the upstream is seeding, otherwise start over. */
  method EndWithReset(server: Server, ghost lines: seq<string>, ghost broken: bool, data: string,
                      stateOf: string -> string, ghost at: nat, ghost v: View, now: int -> nat)
    returns (end: StreamEnd)
    requires ResetIn(lines) == Some(data) && Here(server, at, v, Received(lines))
    modifies server
    ensures server.calls >= at
    ensures end == Seeding <==> stateOf(data) == "seeding"
    ensures end == Seeding ==> server.Value() == old(server.Value())
    ensures end == Flushed <==>
              stateOf(data) != "seeding" && NoneLost(server.net, old(server.calls), server.calls)
    ensures Ended(lines, broken, stateOf, server.net, at, server.calls, v, ViewOf(server.Value()), end)
    ensures old(Valid(server.Value())) ==> Valid(server.Value())
  {
    if stateOf(data) == "seeding" { return Seeding; }
    ghost var w := ViewOf(server.Value());
    var ok;
    ghost var k;
    ok, k := FlushData(server, now);
    ClearedView(w, k);
    end := if ok then Flushed else Failed;
  }
}
