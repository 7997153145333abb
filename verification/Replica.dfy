/** The replica client as a machine of single steps: one line, one Redis command, one
    failure at a time. Crashes and broken pipelines can fall between any two steps. */
module Replica {
  import opened Text
  import opened Mappings
  import opened EntityMaps
  import opened Store
  import opened Snapshot

  const SNAPSHOT_BATCH_SIZE: nat := 500

  /** A published snapshot, by ETag. Published files never change. */
  datatype File = File(position: nat, lines: seq<Line>)

  type Files = map<nat, File>

  /** The part of the local store the client decides by. */
  datatype View = View(entities: EntityMap, meta: Meta)

  function ViewOf(db: Db): View { View(db.entities, db.meta) }

  function ApplyView(v: View, cmd: Cmd): View {
    match cmd
    case Write(c) => v.(entities := ApplyChange(v.entities, c))
    case FlushAll => View(map[], NO_META)
    case SetLast(id) => v.(meta := v.meta.(last := Some(id)))
    case SetEtag(t) => v.(meta := v.meta.(etag := Some(t)))
    case SetOffset(o) => v.(meta := v.meta.(offset := Some(o)))
    case SetApplied(n) => v.(meta := v.meta.(applied := Some(n)))
    case ClearProgress => v.(meta := v.meta.(etag := None, offset := None, applied := None))
    case SetCount(_) => v
    case SetOther => v
  }

  lemma ViewOfApply(db: Db, cmd: Cmd, now: nat)
    ensures ViewOf(Apply(db, cmd, now)) == ApplyView(ViewOf(db), cmd)
  {
    if cmd.Write? { WriteEntities(db, cmd.change, now); }
  }

  function RunView(v: View, cmds: seq<Cmd>): View
    decreases |cmds|
  {
    if cmds == [] then v else RunView(ApplyView(v, cmds[0]), cmds[1..])
  }

  // ------------------------------------------------------------- the client

  /** What the client is doing. While fetching it has consumed lines[..at] of the file, of
      which `batch` is not queued yet; `base` and `applied` are its entity counters. While
      streaming, `inflight` are the events sent to it and not yet finished, and `cursor` is
      the server's position, with `open` as long as the server may read on. Stopping runs what
      is queued and then gives the attempt up. */
  datatype Mode =
    | Idle
    | Starting(etag: nat)
    | Fetching(
        etag: nat, at: nat, base: int, applied: int, batch: seq<Change>, done: Option<nat>, cut: bool, final: bool)
    | Streaming(inflight: seq<LogEntry>, cursor: nat, open: bool)
    | Resetting
    | Stopping

  /** `queue` is the rest of the pipeline being executed; a failing pipeline ends the
      attempt when it `must` succeed, and is ignored otherwise. */
  datatype Client = Client(mode: Mode, queue: seq<Cmd>, must: bool)

  const IDLE := Client(Idle, [], true)

  function Fresh(etag: nat): Client {
    Client(Fetching(etag, 0, 0, 0, [], None, false, false), [SetEtag(etag), SetOffset(0), SetApplied(0)], false)
  }

  function Resumed(etag: nat, at: nat, offset: int, base: int): Client {
    Client(Fetching(etag, at, base, 0, [], None, false, false),
           [SetEtag(etag), SetOffset(offset), SetApplied(base)], false)
  }

  /** flushBatch. */
  function FlushBatch(f: Mode): Client
    requires f.Fetching?
  {
    Client(f.(applied := f.applied + |f.batch|, batch := []), Puts(f.batch), true)
  }

  /** One turn of the fetch loop once the pending pipeline went through: the next line, or
      the end of the input. A line that does not fit ends the input; one that does not parse
      ends the attempt, a control line only after the batch is flushed. */
  function Turn(file: File, f: Mode, fits: bool, parses: bool): (c: Client)
    requires f.Fetching?
    ensures c == IDLE || (c.mode.Fetching? && c.mode.etag == f.etag)
  {
    if f.final then IDLE
    else if f.at < |file.lines| && !f.cut && fits then
      if f.done.Some? then IDLE
      else
        match file.lines[f.at]
        case Item(q, raw) =>
          var more := f.(at := f.at + 1, batch := f.batch + [Change(q, Some(raw))]);
          if !parses then IDLE
          else if |more.batch| >= SNAPSHOT_BATCH_SIZE then FlushBatch(more)
          else Client(more, [], true)
        case Checkpoint(offset, before) =>
          if f.batch != [] then FlushBatch(f)
          else if !parses || f.base + f.applied != before then IDLE
          else Client(f.(at := f.at + 1), [SetOffset(offset), SetApplied(before)], false)
        case Done(position, count) =>
          if f.batch != [] then FlushBatch(f)
          else if !parses || f.base + f.applied != count then IDLE
          else Client(f.(at := f.at + 1, done := Some(position)), [], true)
    else if f.batch != [] then FlushBatch(f)
    else if f.cut || f.done.None? || f.at < |file.lines| then IDLE
    else Client(f.(final := true),
                [SetLast(f.done.value), SetOther, SetOther, SetCount(f.base + f.applied), ClearProgress], true)
  }

  predicate NextFits(file: File, f: Mode)
    requires f.Fetching?
  {
    f.at < |file.lines| && Fits(file.lines[f.at])
  }

  predicate NextParses(file: File, f: Mode)
    requires f.Fetching?
  {
    f.at < |file.lines| && Printable(file.lines[f.at])
  }

  function FetchLine(file: File, f: Mode): (c: Client)
    requires f.Fetching?
    ensures c == IDLE || (c.mode.Fetching? && c.mode.etag == f.etag)
  {
    Turn(file, f, NextFits(file, f), NextParses(file, f))
  }

  /** What was received of the line at which the download broke off. */
  function Fragment(file: File, at: nat, chars: nat): string {
    if at < |file.lines| && chars < |LineText(file.lines[at])| then LineText(file.lines[at])[..chars] else ""
  }

  /** A download that breaks off. The scanner hands over what it has of the next line, and the
      loop judges it like a whole line: taken as an entity, refused at once, or (nothing, or a
      control line) the end of the input. */
  function CutFetch(file: File, f: Mode, chars: nat): Client
    requires f.Fetching?
  {
    var text := Fragment(file, f.at, chars);
    if text == "" || ByteSize(text) >= SNAPSHOT_LINE_LIMIT || text[0] == '{' then Client(f.(cut := true), [], true)
    else
      match ParseLine(text)
      case Some(Item(q, torn)) => Client(f.(cut := true, batch := f.batch + [Change(q, Some(torn))]), [], true)
      case _ => IDLE
  }

  /** The fragment is not taken for an entity: it is not digits, a space and something more. */
  predicate CleanFragment(file: File, at: nat, chars: nat) {
    var text := Fragment(file, at, chars);
    text == "" || ByteSize(text) >= SNAPSHOT_LINE_LIMIT || ParseLine(text).None?
  }

  // ------------------------------------------------------- persistent safety

  /** All lines of a file, applied in order, once. */
  function Full(lines: seq<Line>): EntityMap { Replay(map[], Records(lines)) }

  predicate ResumesAt(lines: seq<Line>, k: nat, offset: int) {
    k < |lines| && lines[k].Checkpoint? && lines[k].offset == offset
  }

  /** The line a byte offset starts at, when it is the offset of a checkpoint. */
  function FindCheckpoint(lines: seq<Line>, offset: int): (k: nat)
    ensures k <= |lines|
    ensures k < |lines| ==> ResumesAt(lines, k, offset)
    ensures forall i :: 0 <= i < k ==> !ResumesAt(lines, i, offset)
  {
    if lines == [] || ResumesAt(lines, 0, offset) then 0
    else
      var k := 1 + FindCheckpoint(lines[1..], offset);
      assert forall i :: 1 <= i < k ==> !ResumesAt(lines[1..], i - 1, offset) && lines[i] == lines[1..][i - 1];
      k
  }

  lemma FindsIt(lines: seq<Line>, k: nat, offset: int)
    requires OffsetsGrow(lines) && ResumesAt(lines, k, offset)
    ensures FindCheckpoint(lines, offset) == k
  {
    var found := FindCheckpoint(lines, offset);
    assert found <= k;
  }

  /** Replaying the lines from k on completes the file. */
  predicate CatchesUp(lines: seq<Line>, k: nat, entities: EntityMap)
    requires k <= |lines|
  {
    Replay(entities, Records(lines[k..])) == Full(lines)
  }

  predicate HasOffset(v: View) { v.meta.offset.Some? && v.meta.offset.value > 0 }

  /** What a stored checkpoint promises: applying the lines from its offset on completes
      the file, however much of them is already applied. */
  predicate ResumeOk(files: Files, v: View) {
    v.meta.last.None? && v.meta.etag.Some? && HasOffset(v) ==>
      && v.meta.etag.value in files
      && var lines := files[v.meta.etag.value].lines;
         var k := FindCheckpoint(lines, v.meta.offset.value);
         k < |lines| && CatchesUp(lines, k, v.entities)
  }

  /** The same during a fetch: the stored checkpoint is behind the read position, and the
      entities read but not queued will be read again from it. */
  predicate ResumeCovers(lines: seq<Line>, at: nat, batch: seq<Change>, v: View) {
    HasOffset(v) ==>
      var k := FindCheckpoint(lines, v.meta.offset.value);
      && k < |lines| && k <= at && CatchesUp(lines, k, v.entities)
      && forall c :: c in batch ==> Writes(Records(lines[k..]), c.qid)
  }

  /** The local store between two commands of a fetch. */
  predicate Steady(file: File, f: Mode, v: View)
    requires f.Fetching?
  {
    match v.meta.last
    case None =>
      (v.meta.etag.Some? ==> v.meta.etag.value == f.etag) && ResumeCovers(file.lines, f.at, f.batch, v)
    case Some(id) => f.final && id == file.position && v.entities == Full(file.lines)
  }

  lemma SteadyResumes(files: Files, f: Mode, v: View)
    requires f.Fetching? && f.etag in files && Steady(files[f.etag], f, v)
    ensures ResumeOk(files, v)
  {
  }

  /** Steady before each command of the queue, and after the last. */
  predicate QueueSteady(file: File, f: Mode, v: View, queue: seq<Cmd>)
    requires f.Fetching?
    decreases |queue|
  {
    Steady(file, f, v) && (queue == [] || QueueSteady(file, f, ApplyView(v, queue[0]), queue[1..]))
  }

  predicate Bookkeeping(cmd: Cmd) { cmd.SetEtag? || cmd.SetOffset? || cmd.SetApplied? }

  predicate Counts(file: File, f: Mode)
    requires f.Fetching? && f.at <= |file.lines|
  {
    f.base + f.applied + |f.batch| == |Records(file.lines[..f.at])|
  }

  /** A resumed attempt whose stored counter does not belong to the stored offset. */
  predicate Torn(file: File, f: Mode)
    requires f.Fetching?
  {
    && f.applied == 0 && f.batch == [] && f.done.None? && !f.final
    && f.at < |file.lines| && file.lines[f.at].Checkpoint? && file.lines[f.at].before != f.base
  }

  /** The invariant of a fetch. */
  predicate FetchOk(file: File, v: View, c: Client)
    requires c.mode.Fetching?
  {
    var f := c.mode;
    && WellFormedFile(file.lines, file.position) && f.at <= |file.lines|
    && QueueSteady(file, f, v, c.queue)
    && Replay(RunView(v, c.queue).entities, f.batch + Records(file.lines[f.at..])) == Full(file.lines)
    && (!c.must ==> forall i :: 0 <= i < |c.queue| ==> Bookkeeping(c.queue[i]))
    && (Counts(file, f) || Torn(file, f) || f.cut)
    && f.done == (if f.at == |file.lines| then Some(file.position) else None)
    && (f.final ==> f.done.Some? && f.batch == [] && !f.cut)
  }

  /** Everything on its way to the store fits on a line. */
  predicate PlainClient(c: Client) {
    (forall i :: 0 <= i < |c.queue| ==> PlainCmd(c.queue[i])) && (c.mode.Fetching? ==> AllPlain(c.mode.batch))
  }

  /** Nothing that does not decode is on its way to the store. */
  predicate CleanClient(c: Client) {
    AllSane(c.queue) && (c.mode.Fetching? ==> AllDecodable(c.mode.batch))
  }

  // ----------------------------------------------------------------- the file

  lemma RecordsFrom(lines: seq<Line>, k: nat)
    requires k < |lines|
    ensures Records(lines[k..]) == Records(lines[k..k + 1]) + Records(lines[k + 1..])
    ensures Records(lines[..k + 1]) == Records(lines[..k]) + Records(lines[k..k + 1])
  {
    RecordsConcat(lines[k..k + 1], lines[k + 1..]);
    assert lines[k..k + 1] + lines[k + 1..] == lines[k..];
    RecordsConcat(lines[..k], lines[k..k + 1]);
    assert lines[..k] + lines[k..k + 1] == lines[..k + 1];
  }

  lemma RecordsOfOne(lines: seq<Line>, k: nat)
    requires k < |lines|
    ensures Records(lines[k..k + 1]) ==
            if lines[k].Item? then [Change(lines[k].qid, Some(lines[k].raw))] else []
  {
    RecordsAppend([], lines[k]);
    assert [] + [lines[k]] == lines[k..k + 1];
  }

  /** An entity line from k on is written by the records from k on. */
  lemma LineWrites(lines: seq<Line>, k: nat, i: nat)
    requires k <= i < |lines| && lines[i].Item?
    ensures Writes(Records(lines[k..]), lines[i].qid)
  {
    var before, after := Records(lines[k..i]), Records(lines[i + 1..]);
    RecordsConcat(lines[k..i], lines[i..]);
    assert lines[k..i] + lines[i..] == lines[k..];
    RecordsFrom(lines, i);
    RecordsOfOne(lines, i);
    assert Records(lines[k..])[|before|].qid == lines[i].qid;
  }

  // ---------------------------------------------------------- queue lemmas

  lemma {:induction false} RunPuts(v: View, batch: seq<Change>)
    ensures RunView(v, Puts(batch)) == v.(entities := Replay(v.entities, batch))
  {
    if batch != [] {
      var n := |batch| - 1;
      RunPuts(v, batch[..n]);
      RunConcat(v, Puts(batch[..n]), [Write(batch[n])]);
      RunOne(RunView(v, Puts(batch[..n])), Write(batch[n]));
    }
  }

  lemma RunOne(v: View, cmd: Cmd)
    ensures RunView(v, [cmd]) == ApplyView(v, cmd)
  {
    assert [cmd][1..] == [];
  }

  lemma {:induction false} RunConcat(v: View, a: seq<Cmd>, b: seq<Cmd>)
    ensures RunView(v, a + b) == RunView(RunView(v, a), b)
    decreases |a|
  {
    if a == [] {
      assert a + b == b;
    } else {
      assert (a + b)[1..] == a[1..] + b;
      RunConcat(ApplyView(v, a[0]), a[1..], b);
    }
  }

  lemma {:induction false} RunBookkeeping(v: View, queue: seq<Cmd>)
    requires forall i :: 0 <= i < |queue| ==> Bookkeeping(queue[i])
    ensures RunView(v, queue).entities == v.entities && RunView(v, queue).meta.last == v.meta.last
    decreases |queue|
  {
    if queue != [] { RunBookkeeping(ApplyView(v, queue[0]), queue[1..]); }
  }

  /** Queued writes of entities that a resume would write again keep the store steady. */
  lemma {:induction false} PutsSteady(file: File, f: Mode, v: View, cmds: seq<Cmd>)
    requires f.Fetching? && v.meta.last.None? && Steady(file, f, v)
    requires forall i :: 0 <= i < |cmds| ==> cmds[i].Write?
    requires HasOffset(v) ==>
               var k := FindCheckpoint(file.lines, v.meta.offset.value);
               forall i :: 0 <= i < |cmds| ==> Writes(Records(file.lines[k..]), cmds[i].change.qid)
    ensures QueueSteady(file, f, v, cmds)
    decreases |cmds|
  {
    if cmds != [] {
      if HasOffset(v) {
        var k := FindCheckpoint(file.lines, v.meta.offset.value);
        ReplayAbsorbs(v.entities, cmds[0].change, Records(file.lines[k..]));
      }
      PutsSteady(file, f, ApplyView(v, cmds[0]), cmds[1..]);
    }
  }

  /** Once the position is stored and the file complete, the final bookkeeping is harmless. */
  lemma {:induction false} FinalSteady(file: File, f: Mode, v: View, cmds: seq<Cmd>)
    requires f.Fetching? && f.final && v.meta.last == Some(file.position) && v.entities == Full(file.lines)
    requires forall i :: 0 <= i < |cmds| ==> cmds[i].SetOther? || cmds[i].SetCount? || cmds[i].ClearProgress?
    ensures QueueSteady(file, f, v, cmds)
    ensures RunView(v, cmds).entities == v.entities && RunView(v, cmds).meta.last == v.meta.last
    decreases |cmds|
  {
    if cmds != [] { FinalSteady(file, f, ApplyView(v, cmds[0]), cmds[1..]); }
  }

  // ------------------------------------------------ every step of a fetch

  /** A fetch that starts on a flushed store. */
  lemma FreshOk(etag: nat, file: File, v: View)
    requires WellFormedFile(file.lines, file.position)
    requires v.entities == map[] && v.meta == NO_META
    ensures FetchOk(file, v, Fresh(etag))
  {
    var c := Fresh(etag);
    var v1 := ApplyView(v, SetEtag(etag));
    var v2 := ApplyView(v1, SetOffset(0));
    var v3 := ApplyView(v2, SetApplied(0));
    assert c.queue[1..] == [SetOffset(0), SetApplied(0)] && c.queue[1..][1..] == [SetApplied(0)];
    assert c.queue[1..][1..][1..] == [];
    assert QueueSteady(file, c.mode, v3, []);
    assert QueueSteady(file, c.mode, v2, [SetApplied(0)]);
    assert QueueSteady(file, c.mode, v1, c.queue[1..]);
    RunBookkeeping(v, c.queue);
    assert file.lines[0..] == file.lines && [] + Records(file.lines) == Records(file.lines);
  }

  lemma {:induction false} UnchangedSteady(file: File, f: Mode, v: View, cmds: seq<Cmd>)
    requires f.Fetching? && Steady(file, f, v)
    requires forall i :: 0 <= i < |cmds| ==> ApplyView(v, cmds[i]) == v
    ensures QueueSteady(file, f, v, cmds) && RunView(v, cmds) == v
    decreases |cmds|
  {
    if cmds != [] {
      assert ApplyView(v, cmds[0]) == v;
      UnchangedSteady(file, f, v, cmds[1..]);
    }
  }

  lemma StoresSame(v: View, etag: nat, offset: int, base: int)
    requires v.meta.etag == Some(etag) && v.meta.offset == Some(offset) && v.meta.applied == Some(base)
    ensures var q := [SetEtag(etag), SetOffset(offset), SetApplied(base)];
            forall i :: 0 <= i < |q| ==> ApplyView(v, q[i]) == v && Bookkeeping(q[i])
  {
  }

  /** The counter of a resumed attempt fits its checkpoint, or the attempt is torn. */
  lemma ResumedCounts(file: File, etag: nat, k: nat, offset: int, base: int)
    requires WellFormedFile(file.lines, file.position) && ResumesAt(file.lines, k, offset)
    ensures var f := Resumed(etag, k, offset, base).mode;
            (Counts(file, f) || Torn(file, f)) && f.at < |file.lines| && f.done.None?
  {
  }

  /** A fetch that resumes at the stored checkpoint, whether or not the stored counter fits. */
  lemma ResumedOk(etag: nat, file: File, v: View, base: int)
    requires WellFormedFile(file.lines, file.position)
    requires v.meta.last.None? && v.meta.etag == Some(etag) && HasOffset(v) && v.meta.applied == Some(base)
    requires var k := FindCheckpoint(file.lines, v.meta.offset.value);
             k < |file.lines| && CatchesUp(file.lines, k, v.entities)
    ensures FetchOk(file, v, Resumed(etag, FindCheckpoint(file.lines, v.meta.offset.value), v.meta.offset.value, base))
  {
    var k, o := FindCheckpoint(file.lines, v.meta.offset.value), v.meta.offset.value;
    var c := Resumed(etag, k, o, base);
    StoresSame(v, etag, o, base);
    ResumedCounts(file, etag, k, o, base);
    assert Steady(file, c.mode, v);
    UnchangedSteady(file, c.mode, v, c.queue);
    assert [] + Records(file.lines[k..]) == Records(file.lines[k..]);
  }

  function ReadItem(f: Mode, line: Line): Mode
    requires f.Fetching? && line.Item?
  {
    f.(at := f.at + 1, batch := f.batch + [Change(line.qid, Some(line.raw))])
  }

  lemma ItemSteady(file: File, v: View, f: Mode)
    requires f.Fetching? && f.at < |file.lines| && file.lines[f.at].Item?
    requires v.meta.last.None? && Steady(file, f, v)
    ensures Steady(file, ReadItem(f, file.lines[f.at]), v)
  {
    if HasOffset(v) {
      LineWrites(file.lines, FindCheckpoint(file.lines, v.meta.offset.value), f.at);
    }
  }

  lemma ItemRecords(lines: seq<Line>, at: nat, batch: seq<Change>)
    requires at < |lines| && lines[at].Item?
    ensures var c := Change(lines[at].qid, Some(lines[at].raw));
            && (batch + [c]) + Records(lines[at + 1..]) == batch + Records(lines[at..])
            && |Records(lines[..at + 1])| == |Records(lines[..at])| + 1
  {
    RecordsFrom(lines, at);
    RecordsOfOne(lines, at);
  }

  /** Reading an entity line. */
  lemma ItemOk(file: File, v: View, f: Mode)
    requires f.Fetching? && !f.final && !f.cut && f.done.None? && f.at < |file.lines| && file.lines[f.at].Item?
    requires FetchOk(file, v, Client(f, [], true))
    ensures FetchOk(file, v, Client(ReadItem(f, file.lines[f.at]), [], true))
  {
    ItemSteady(file, v, f);
    ItemRecords(file.lines, f.at, f.batch);
    assert f.at < |file.lines| - 1;
  }

  /** Queueing the batch. */
  lemma FlushOk(file: File, v: View, f: Mode)
    requires f.Fetching? && !f.final && FetchOk(file, v, Client(f, [], true))
    ensures FetchOk(file, v, FlushBatch(f))
  {
    var c := FlushBatch(f);
    var rest := Records(file.lines[f.at..]);
    PutsAt(f.batch);
    RunPuts(v, f.batch);
    ReplayConcat(v.entities, f.batch, rest);
    assert [] + rest == rest;
    forall i | 0 <= i < |c.queue| ensures c.queue[i].change in f.batch {
      assert c.queue[i].change == f.batch[i];
    }
    PutsSteady(file, c.mode, v, c.queue);
  }

  lemma ControlRecords(lines: seq<Line>, at: nat)
    requires at < |lines| && !lines[at].Item?
    ensures Records(lines[at + 1..]) == Records(lines[at..])
    ensures Records(lines[..at + 1]) == Records(lines[..at])
  {
    RecordsFrom(lines, at);
    RecordsOfOne(lines, at);
  }

  lemma CheckpointSteady(file: File, v: View, f: Mode, o: nat, n: int)
    requires f.Fetching? && f.batch == [] && f.at > 0 && f.at <= |file.lines| && OffsetsGrow(file.lines)
    requires ResumesAt(file.lines, f.at - 1, o) && CatchesUp(file.lines, f.at - 1, v.entities)
    requires v.meta.last.None? && Steady(file, f, v)
    ensures QueueSteady(file, f, v, [SetOffset(o), SetApplied(n)])
  {
    var v1 := ApplyView(v, SetOffset(o));
    MarkSteady(file, v, f, o);
    TwoSteady(file, f, v, SetOffset(o), SetApplied(n));
  }

  lemma MarkSteady(file: File, v: View, f: Mode, o: nat)
    requires f.Fetching? && f.batch == [] && f.at > 0 && f.at <= |file.lines| && OffsetsGrow(file.lines)
    requires ResumesAt(file.lines, f.at - 1, o) && CatchesUp(file.lines, f.at - 1, v.entities)
    requires v.meta.last.None? && Steady(file, f, v)
    ensures Steady(file, f, ApplyView(v, SetOffset(o)))
    ensures forall n :: Steady(file, f, ApplyView(ApplyView(v, SetOffset(o)), SetApplied(n)))
  {
    hide CatchesUp;
    FindsIt(file.lines, f.at - 1, o);
  }

  lemma TwoSteady(file: File, f: Mode, v: View, a: Cmd, b: Cmd)
    requires f.Fetching? && Steady(file, f, v)
    requires Steady(file, f, ApplyView(v, a)) && Steady(file, f, ApplyView(ApplyView(v, a), b))
    ensures QueueSteady(file, f, v, [a, b])
  {
    hide Steady, ApplyView;
    assert [a, b][1..] == [b] && [b][1..] == [];
    assert QueueSteady(file, f, ApplyView(ApplyView(v, a), b), []);
    assert QueueSteady(file, f, ApplyView(v, a), [b]);
  }

  /** Accepting a checkpoint line. */
  lemma CheckpointOk(file: File, v: View, f: Mode)
    requires f.Fetching? && !f.final && !f.cut && f.done.None? && f.at < |file.lines| && file.lines[f.at].Checkpoint?
    requires f.batch == [] && f.base + f.applied == file.lines[f.at].before
    requires FetchOk(file, v, Client(f, [], true))
    ensures FetchOk(file, v, Turn(file, f, true, true))
  {
    var c, line := Turn(file, f, true, true), file.lines[f.at];
    ControlRecords(file.lines, f.at);
    assert f.batch + Records(file.lines[f.at..]) == Records(file.lines[f.at..]);
    CheckpointSteady(file, v, c.mode, line.offset, line.before);
    RunBookkeeping(v, c.queue);
    assert f.at < |file.lines| - 1;
  }

  /** Accepting the done line. */
  lemma DoneOk(file: File, v: View, f: Mode)
    requires f.Fetching? && !f.final && !f.cut && f.done.None? && f.at < |file.lines| && file.lines[f.at].Done?
    requires f.batch == [] && f.base + f.applied == file.lines[f.at].count
    requires FetchOk(file, v, Client(f, [], true))
    ensures FetchOk(file, v, Turn(file, f, true, true))
  {
    ControlRecords(file.lines, f.at);
    assert f.at == |file.lines| - 1;
    assert file.lines[..f.at + 1] == file.lines;
  }

  /** The final pipeline stores the position and leaves nothing of the progress. */
  lemma FinalMeta(v: View, position: nat, n: int)
    ensures RunView(v, [SetLast(position), SetOther, SetOther, SetCount(n), ClearProgress]).meta ==
            Meta(Some(position), None, None, None)
  {
    var q := [SetLast(position), SetOther, SetOther, SetCount(n), ClearProgress];
    var w := ApplyView(v, q[0]);
    assert q[1..] == [SetOther, SetOther, SetCount(n), ClearProgress];
    assert q[1..][1..] == [SetOther, SetCount(n), ClearProgress];
    assert q[1..][1..][1..] == [SetCount(n), ClearProgress];
    assert q[1..][1..][1..][1..] == [ClearProgress];
    RunOne(w, ClearProgress);
    assert RunView(w, [SetCount(n), ClearProgress]) == RunView(w, [ClearProgress]);
    assert RunView(w, q[1..][1..]) == RunView(w, [SetCount(n), ClearProgress]);
  }

  /** Setting the final metadata. */
  lemma FinishOk(file: File, v: View, f: Mode, fits: bool, parses: bool)
    requires f.Fetching? && !f.final && !f.cut && f.done.Some? && f.batch == []
    requires FetchOk(file, v, Client(f, [], true))
    ensures FetchOk(file, v, Turn(file, f, fits, parses))
    ensures RunView(v, Turn(file, f, fits, parses).queue).meta == Meta(Some(file.position), None, None, None)
    ensures Turn(file, f, fits, parses).queue ==
            [SetLast(file.position), SetOther, SetOther, SetCount(|Records(file.lines)|), ClearProgress]
  {
    var c := Turn(file, f, fits, parses);
    assert file.lines[..f.at] == file.lines;
    assert file.lines[f.at..] == [] && f.batch + Records([]) == [];
    assert v.entities == Full(file.lines);
    var v1 := ApplyView(v, c.queue[0]);
    FinalSteady(file, c.mode, v1, c.queue[1..]);
    FinalMeta(v, file.position, |Records(file.lines)|);
    assert Steady(file, c.mode, v);
  }

  /** Every turn of the loop keeps the invariant, or gives the attempt up. */
  lemma TurnOk(file: File, v: View, f: Mode, fits: bool, parses: bool)
    requires f.Fetching? && FetchOk(file, v, Client(f, [], true))
    ensures var c := Turn(file, f, fits, parses);
            c == IDLE || (c.mode.Fetching? && FetchOk(file, v, c))
  {
    if f.final {
    } else if f.at < |file.lines| && !f.cut && fits {
      if f.done.None? {
        match file.lines[f.at]
        case Item(q, raw) =>
          var more := f.(at := f.at + 1, batch := f.batch + [Change(q, Some(raw))]);
          ItemOk(file, v, f);
          if |more.batch| >= SNAPSHOT_BATCH_SIZE { FlushOk(file, v, more); }
        case Checkpoint(_, before) =>
          if f.batch != [] { FlushOk(file, v, f); }
          else if parses && f.base + f.applied == before { CheckpointOk(file, v, f); }
        case Done(_, count) =>
          if f.batch != [] { FlushOk(file, v, f); }
          else if parses && f.base + f.applied == count { DoneOk(file, v, f); }
      }
    } else if f.batch != [] {
      FlushOk(file, v, f);
    } else if !f.cut && f.done.Some? && f.at == |file.lines| {
      FinishOk(file, v, f, fits, parses);
    }
  }

  lemma FetchLineOk(file: File, v: View, f: Mode)
    requires f.Fetching? && FetchOk(file, v, Client(f, [], true))
    ensures FetchLine(file, f) == IDLE || (FetchLine(file, f).mode.Fetching? && FetchOk(file, v, FetchLine(file, f)))
  {
    TurnOk(file, v, f, NextFits(file, f), NextParses(file, f));
  }

  /** Executing one queued command keeps the invariant. */
  lemma ExecOk(file: File, v: View, c: Client)
    requires c.mode.Fetching? && c.queue != [] && FetchOk(file, v, c)
    ensures FetchOk(file, ApplyView(v, c.queue[0]), c.(queue := c.queue[1..]))
  {
  }

  /** Dropping the rest of a pipeline that need not succeed keeps the invariant: a torn
      checkpoint write leaves an offset that is good by itself. */
  lemma DropOk(file: File, v: View, c: Client)
    requires c.mode.Fetching? && !c.must && FetchOk(file, v, c)
    ensures FetchOk(file, v, c.(queue := []))
  {
    RunBookkeeping(v, c.queue);
  }

  lemma {:induction false} SteadySameMode(file: File, f: Mode, g: Mode, v: View, queue: seq<Cmd>)
    requires f.Fetching? && g.Fetching? && f.etag == g.etag && f.at == g.at && f.batch == g.batch && f.final == g.final
    requires QueueSteady(file, f, v, queue)
    ensures QueueSteady(file, g, v, queue)
    decreases |queue|
  {
    if queue != [] { SteadySameMode(file, f, g, ApplyView(v, queue[0]), queue[1..]); }
  }

  lemma TakenLine(file: File, at: nat, chars: nat)
    requires Fragment(file, at, chars) != "" && ParseLine(Fragment(file, at, chars)).Some?
    ensures at < |file.lines| && file.lines[at].Item?
    ensures ParseLine(Fragment(file, at, chars)).value.Item?
    ensures ParseLine(Fragment(file, at, chars)).value.qid == file.lines[at].qid
  {
    FragmentTakenIff(file.lines[at], chars);
  }

  /** The line that was cut is read again, so taking its beginning first makes no difference. */
  lemma TornAbsorbed(m: EntityMap, batch: seq<Change>, c: Change, rest: seq<Change>)
    requires Writes(rest, c.qid)
    ensures Replay(m, (batch + [c]) + rest) == Replay(m, batch + rest)
  {
    ReplayConcat(m, batch + [c], rest);
    ReplayConcat(m, batch, rest);
    ReplayAppend(m, batch, c);
    ReplayAbsorbs(Replay(m, batch), c, rest);
  }

  lemma TornOk(file: File, v: View, f: Mode, c: Change)
    requires f.Fetching? && !f.final && FetchOk(file, v, Client(f, [], true))
    requires f.at < |file.lines| && file.lines[f.at].Item? && file.lines[f.at].qid == c.qid
    ensures FetchOk(file, v, Client(f.(cut := true, batch := f.batch + [c]), [], true))
  {
    LineWrites(file.lines, f.at, f.at);
    TornAbsorbed(v.entities, f.batch, c, Records(file.lines[f.at..]));
    if HasOffset(v) { LineWrites(file.lines, FindCheckpoint(file.lines, v.meta.offset.value), f.at); }
  }

  /** Wherever the connection is lost, what is stored stays resumable. */
  lemma CutOk(file: File, v: View, f: Mode, chars: nat)
    requires f.Fetching? && !f.final && FetchOk(file, v, Client(f, [], true))
    ensures var c := CutFetch(file, f, chars);
            c == IDLE || (c.mode.Fetching? && c.mode.etag == f.etag && FetchOk(file, v, c))
  {
    var c := CutFetch(file, f, chars);
    if c != IDLE {
      if c.mode.batch == f.batch {
        SteadySameMode(file, f, f.(cut := true), v, []);
      } else {
        TakenLine(file, f.at, chars);
        TornOk(file, v, f, c.mode.batch[|f.batch|]);
      }
    }
  }

  // ------------------------------------------------ values on their way

  lemma PutsSane(batch: seq<Change>)
    requires AllDecodable(batch)
    ensures AllSane(Puts(batch))
  {
    PutsAt(batch);
  }

  /** No turn of the loop makes anything up: from a well-formed file only values that decode
      are queued. */
  lemma TurnClean(file: File, f: Mode, fits: bool, parses: bool)
    requires f.Fetching? && AllDecodable(Records(file.lines)) && AllDecodable(f.batch)
    ensures CleanClient(Turn(file, f, fits, parses))
  {
    PutsSane(f.batch);
    if f.at < |file.lines| && file.lines[f.at].Item? {
      var batch := f.batch + [Change(file.lines[f.at].qid, Some(file.lines[f.at].raw))];
      ItemsDecode(file.lines);
      assert AllDecodable(batch);
      PutsSane(batch);
    }
  }

  lemma PutsPlain(batch: seq<Change>)
    requires AllPlain(batch)
    ensures forall i :: 0 <= i < |Puts(batch)| ==> PlainCmd(Puts(batch)[i])
  {
    PutsAt(batch);
  }

  lemma TurnPlain(file: File, f: Mode, fits: bool, parses: bool)
    requires f.Fetching? && AllPlain(Records(file.lines)) && AllPlain(f.batch)
    ensures PlainClient(Turn(file, f, fits, parses))
  {
    PutsPlain(f.batch);
    if f.at < |file.lines| && file.lines[f.at].Item? {
      var batch := f.batch + [Change(file.lines[f.at].qid, Some(file.lines[f.at].raw))];
      ItemsPlain(file.lines);
      assert AllPlain(batch);
      PutsPlain(batch);
    }
  }

  lemma CutPlain(file: File, f: Mode, chars: nat)
    requires f.Fetching? && AllPlain(Records(file.lines)) && AllPlain(f.batch)
    ensures PlainClient(CutFetch(file, f, chars))
  {
    var text := Fragment(file, f.at, chars);
    if text != "" && ParseLine(text).Some? {
      FragmentTakenIff(file.lines[f.at], chars);
      ItemsPlain(file.lines);
      assert Plain(ParseLine(text).value.raw);
    }
  }

  lemma TornFails(file: File, at: nat, chars: nat)
    requires AllDecodable(Records(file.lines)) && !CleanFragment(file, at, chars)
    ensures var torn := ParseLine(Fragment(file, at, chars));
            at < |file.lines| && torn.Some? && torn.value.Item? && !Decodes(torn.value.raw)
  {
    FragmentTakenIff(file.lines[at], chars);
    ItemsDecode(file.lines);
    var raw := file.lines[at].raw;
    TruncatedFails(raw, chars - |FormatInt(file.lines[at].qid)| - 1);
  }

  /** A cut is clean exactly when its fragment is not taken for an entity: the beginning of a
      value never decodes. */
  lemma CutCleanIff(file: File, f: Mode, chars: nat)
    requires f.Fetching? && AllDecodable(Records(file.lines)) && AllDecodable(f.batch)
    ensures CleanClient(CutFetch(file, f, chars)) <==> CleanFragment(file, f.at, chars)
  {
    if !CleanFragment(file, f.at, chars) {
      TornFails(file, f.at, chars);
      var text := Fragment(file, f.at, chars);
      var torn := ParseLine(text).value;
      var batch := f.batch + [Change(torn.qid, Some(torn.raw))];
      assert !Decodable(batch[|f.batch|]);
      FragmentTakenIff(file.lines[f.at], chars);
      assert text[0] != '{';
    }
  }

  // -------------------------------------------------------------- results

  /** A fetch that stored its position has reached the done line, matched its count, and
      left exactly the map of all lines applied in order once. */
  lemma CompletedFetch(file: File, v: View, c: Client)
    requires c.mode.Fetching? && FetchOk(file, v, c) && v.meta.last.Some?
    ensures v.meta.last.value == file.position && v.entities == Full(file.lines)
    ensures c.mode.done == Some(file.position) && c.mode.base + c.mode.applied == |Records(file.lines)|
  {
    assert file.lines[..c.mode.at] == file.lines;
  }

  /** A torn checkpoint never gets past its first line. */
  lemma TornRejected(file: File, f: Mode)
    requires f.Fetching? && Torn(file, f)
    ensures FetchLine(file, f) == IDLE
  {
  }

  predicate NoRepeats(cs: seq<Change>) { forall i, j :: 0 <= i < j < |cs| ==> cs[i].qid != cs[j].qid }

  predicate PutsOnly(cs: seq<Change>) { forall i :: 0 <= i < |cs| ==> cs[i].mappings.Some? }

  lemma {:induction false} StoredIff(cs: seq<Change>, q: Qid)
    requires PutsOnly(cs)
    ensures q in Replay(map[], cs) <==> Writes(cs, q)
  {
    if cs != [] {
      var n := |cs| - 1;
      StoredIff(cs[..n], q);
      if Writes(cs[..n], q) { WritesPart(cs[..n], [cs[n]], q); }
      assert cs[..n] + [cs[n]] == cs;
      if Writes(cs, q) && cs[n].qid != q {
        var i :| 0 <= i < |cs| && cs[i].qid == q;
        assert cs[..n][i].qid == q;
      }
    }
  }

  lemma WritesPart(a: seq<Change>, b: seq<Change>, q: Qid)
    requires Writes(a, q)
    ensures Writes(a + b, q)
  {
    var i :| 0 <= i < |a| && a[i].qid == q;
    assert (a + b)[i].qid == q;
  }

  lemma NoRepeatsMore(cs: seq<Change>, c: Change)
    ensures NoRepeats(cs + [c]) <==> NoRepeats(cs) && !Writes(cs, c.qid)
  {
    var all := cs + [c];
    if NoRepeats(all) {
      forall i, j | 0 <= i < j < |cs| ensures cs[i].qid != cs[j].qid { assert all[i] == cs[i] && all[j] == cs[j]; }
      forall i | 0 <= i < |cs| ensures cs[i].qid != c.qid { assert all[i] == cs[i] && all[|cs|] == c; }
    }
  }

  lemma {:induction false} StoredCount(cs: seq<Change>)
    requires PutsOnly(cs)
    ensures |Replay(map[], cs)| <= |cs|
    ensures |Replay(map[], cs)| == |cs| <==> NoRepeats(cs)
  {
    if cs != [] {
      var n := |cs| - 1;
      StoredCount(cs[..n]);
      StoredIff(cs[..n], cs[n].qid);
      CountAdded(Replay(map[], cs[..n]), cs[n].qid, cs[n].mappings.value);
      NoRepeatsMore(cs[..n], cs[n]);
      assert cs[..n] + [cs[n]] == cs;
    }
  }

  lemma {:induction false} RecordsPut(lines: seq<Line>)
    ensures PutsOnly(Records(lines))
  {
    if lines != [] { RecordsPut(lines[..|lines| - 1]); }
  }

  /** What entity_count becomes at the end of a fetch: the number of entity lines. That is the
      number of entities iff no id repeats in the file, and more otherwise. */
  lemma EntityCountIff(file: File)
    ensures |Full(file.lines)| <= |Records(file.lines)|
    ensures |Full(file.lines)| == |Records(file.lines)| <==> NoRepeats(Records(file.lines))
  {
    RecordsPut(file.lines);
    StoredCount(Records(file.lines));
  }

  predicate GoesOn(file: File, c: Client) {
    c.mode.Fetching? && c.mode.at <= |file.lines| && Counts(file, c.mode)
  }

  lemma FlushGoesOn(file: File, f: Mode)
    requires f.Fetching? && f.at <= |file.lines| && Counts(file, f)
    ensures GoesOn(file, FlushBatch(f))
  {
  }

  lemma AcceptsItem(file: File, f: Mode)
    requires f.Fetching? && !f.final && !f.cut && f.done.None? && f.at < |file.lines| && file.lines[f.at].Item?
    requires Counts(file, f)
    ensures GoesOn(file, Turn(file, f, true, true))
  {
    var more := ReadItem(f, file.lines[f.at]);
    ItemRecords(file.lines, f.at, f.batch);
    assert Counts(file, more);
    FlushGoesOn(file, more);
  }

  lemma AcceptsControl(file: File, f: Mode)
    requires f.Fetching? && !f.final && !f.cut && f.done.None? && f.at < |file.lines| && !file.lines[f.at].Item?
    requires WellFormedFile(file.lines, file.position) && Counts(file, f)
    ensures GoesOn(file, Turn(file, f, true, true))
  {
    ControlRecords(file.lines, f.at);
    FlushGoesOn(file, f);
    if file.lines[f.at].Done? {
      assert f.at == |file.lines| - 1;
      assert file.lines[..f.at + 1] == file.lines;
    }
  }

  lemma AcceptsEnd(file: File, f: Mode, fits: bool, parses: bool)
    requires f.Fetching? && !f.final && !f.cut && f.done.Some? && f.at == |file.lines| && Counts(file, f)
    ensures GoesOn(file, Turn(file, f, fits, parses))
  {
    FlushGoesOn(file, f);
  }

  /** The client accepts what it can read: with the counter in order, a line of a well-formed
      file makes it give up only if it does not fit or does not parse. */
  lemma AcceptsLine(file: File, v: View, f: Mode)
    requires f.Fetching? && FetchOk(file, v, Client(f, [], true)) && Counts(file, f) && !f.cut
    requires f.at < |file.lines| ==> Acceptable(file.lines[f.at])
    ensures FetchLine(file, f) == IDLE <==> f.final
    ensures !f.final ==> GoesOn(file, FetchLine(file, f))
  {
    if !f.final {
      if f.at == |file.lines| {
        AcceptsEnd(file, f, NextFits(file, f), NextParses(file, f));
      } else if file.lines[f.at].Item? {
        AcceptsItem(file, f);
      } else {
        AcceptsControl(file, f);
      }
    }
  }

  /** And a line it cannot read ends the attempt, at most after one flush. */
  lemma RefusesLine(file: File, f: Mode)
    requires f.Fetching? && !f.final && f.at < |file.lines| && !Acceptable(file.lines[f.at])
    ensures var c := FetchLine(file, f);
            c == IDLE || (f.batch != [] && c == FlushBatch(f))
  {
  }
}
