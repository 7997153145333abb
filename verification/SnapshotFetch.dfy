/** fetchSnapshot as the loop it is, run against a store whose pipelines may break after
    any command. It keeps the invariant of the client machine at every line, and as long as no
    pipeline is lost each turn is exactly a turn of that machine. */
module SnapshotFetch {
  import opened Text
  import opened EntityMaps
  import opened Store
  import opened Snapshot
  import opened Replica
  import opened Kvrocks
  import opened Completion

  // -------------------------------------------------------------- pipelines

  /** The effect of the first k commands of a pipeline on what the client decides by. */
  lemma {:induction false} ViewOfPrefix(db: Db, cmds: seq<Cmd>, now: int -> nat, k: nat)
    requires k <= |cmds|
    ensures ViewOf(ApplyPrefix(db, cmds, now, k)) == RunView(ViewOf(db), cmds[..k])
  {
    if k > 0 {
      ViewOfPrefix(db, cmds, now, k - 1);
      ViewOfApply(ApplyPrefix(db, cmds, now, k - 1), cmds[k - 1], now(k - 1));
      assert cmds[..k] == cmds[..k - 1] + [cmds[k - 1]];
      RunConcat(ViewOf(db), cmds[..k - 1], [cmds[k - 1]]);
      RunOne(RunView(ViewOf(db), cmds[..k - 1]), cmds[k - 1]);
    }
  }

  lemma RunFirst(v: View, queue: seq<Cmd>, k: nat)
    requires 0 < k <= |queue|
    ensures RunView(v, queue[..k]) == RunView(ApplyView(v, queue[0]), queue[1..][..k - 1])
    ensures queue[1..][k - 1..] == queue[k..]
  {
    assert queue[..k][1..] == queue[1..][..k - 1];
  }

  lemma {:induction false} ExecPrefixOk(file: File, v: View, c: Client, k: nat)
    requires c.mode.Fetching? && k <= |c.queue| && FetchOk(file, v, c)
    ensures FetchOk(file, RunView(v, c.queue[..k]), c.(queue := c.queue[k..]))
    decreases k
  {
    if k == 0 {
      assert c.queue[..0] == [] && c.queue[0..] == c.queue;
    } else {
      ExecOk(file, v, c);
      RunFirst(v, c.queue, k);
      ExecPrefixOk(file, ApplyView(v, c.queue[0]), c.(queue := c.queue[1..]), k - 1);
    }
  }

  lemma NothingRun(v: View)
    ensures RunView(v, []) == v && GoesThrough(v, [])
  {
  }

  lemma SucceedsNext(db: Db, cmds: seq<Cmd>, now: int -> nat, k: nat)
    requires k < |cmds|
    ensures Succeeds(db, cmds, now, k + 1) <==>
            Succeeds(db, cmds, now, k) && !Fails(ApplyPrefix(db, cmds, now, k).entities, cmds[k])
  {
    hide ApplyPrefix, Fails;
  }

  /** What a pipeline is answered can be told from what the client decides by. */
  lemma {:induction false} SucceedsIff(db: Db, cmds: seq<Cmd>, now: int -> nat, k: nat)
    requires k <= |cmds|
    ensures Succeeds(db, cmds, now, k) <==> GoesThrough(ViewOf(db), cmds[..k])
  {
    hide Fails, ApplyPrefix, GoesThrough, RunView, Succeeds;
    if k == 0 {
      NothingRan(db, cmds, now);
      NothingRun(ViewOf(db));
      assert cmds[..0] == [];
    } else {
      SucceedsIff(db, cmds, now, k - 1);
      SucceedsNext(db, cmds, now, k - 1);
      ViewOfPrefix(db, cmds, now, k - 1);
      assert cmds[..k] == cmds[..k - 1] + [cmds[k - 1]];
      ThroughMore(ViewOf(db), cmds[..k - 1], cmds[k - 1]);
    }
  }

  /** Queue the commands of one pipeline and execute it. */
  method Execute(server: Server, cmds: seq<Cmd>, now: int -> nat) returns (ok: bool, ghost done: nat)
    modifies server
    ensures done <= |cmds| && server.calls == old(server.calls) + if cmds == [] then 0 else 1
    ensures done == if cmds == [] then 0 else Ran(server.net(old(server.calls)), |cmds|)
    ensures ok <==> NoneLost(server.net, old(server.calls), server.calls) &&
                    GoesThrough(ViewOf(old(server.Value())), cmds)
    ensures server.Value() == ApplyPrefix(old(server.Value()), cmds, now, done)
    ensures ViewOf(server.Value()) == RunView(ViewOf(old(server.Value())), cmds[..done])
    ensures old(Valid(server.Value())) && AllSane(cmds) ==> Valid(server.Value())
  {
    hide Valid, ApplyPrefix, RunView, GoesThrough, Succeeds;
    ghost var before := server.Value();
    var pipe := new Pipe();
    for i := 0 to |cmds|
      invariant fresh(pipe) && !pipe.err && pipe.queued == cmds[..i]
      invariant server.Value() == before && server.calls == old(server.calls)
    {
      pipe.Queue(cmds[i]);
    }
    assert cmds[..|cmds|] == cmds;
    var applied: nat;
    ok, applied := pipe.Exec(server, now);
    done := applied;
    ViewOfPrefix(before, cmds, now, applied);
    SucceedsIff(before, cmds, now, |cmds|);
    NothingRun(ViewOf(before));
  }

  /** The pipeline of a client step. Whether or not it goes through, what it leaves is
      steady; if it must and does, or need not, the fetch goes on. If it is not lost, all of it
      runs, and it fails exactly when one of its commands does. */
  method ExecuteStep(server: Server, ghost file: File, c: Client, now: int -> nat) returns (ok: bool)
    requires c.mode.Fetching? && FetchOk(file, ViewOf(server.Value()), c)
    modifies server
    ensures Steady(file, c.mode, ViewOf(server.Value()))
    ensures ok || !c.must ==> FetchOk(file, ViewOf(server.Value()), c.(queue := []))
    ensures ok ==> server.Value() == ApplyPrefix(old(server.Value()), c.queue, now, |c.queue|)
    ensures server.calls >= old(server.calls)
    ensures NoneLost(server.net, old(server.calls), server.calls) ==>
              ViewOf(server.Value()) == RunView(ViewOf(old(server.Value())), c.queue)
    ensures ok <==> NoneLost(server.net, old(server.calls), server.calls) &&
                    GoesThrough(ViewOf(old(server.Value())), c.queue)
    ensures !c.must ==> server.entities == old(server.entities)
    ensures old(Valid(server.Value())) && AllSane(c.queue) ==> Valid(server.Value())
  {
    ghost var v := ViewOf(server.Value());
    ghost var k: nat;
    ok, k := Execute(server, c.queue, now);
    ExecPrefixOk(file, v, c, k);
    if !c.must {
      DropOk(file, RunView(v, c.queue[..k]), c.(queue := c.queue[k..]));
      RunBookkeeping(v, c.queue[..k]);
    }
    if k == |c.queue| { assert c.queue[..k] == c.queue && c.queue[k..] == []; }
  }

  // -------------------------------------------------------------- the start

  /** FlushDB, and then a pipeline for the schema version. */
  method FlushData(server: Server, now: int -> nat) returns (ok: bool, ghost done: nat)
    modifies server
    ensures done <= 2 && old(server.calls) < server.calls <= old(server.calls) + 2
    ensures ok <==> NoneLost(server.net, old(server.calls), server.calls)
    ensures ok ==> done == 2 && server.calls == old(server.calls) + 2
    ensures ViewOf(server.Value()) == RunView(ViewOf(old(server.Value())), [FlushAll, SetOther][..done])
    ensures old(Valid(server.Value())) ==> Valid(server.Value())
  {
    ghost var v := ViewOf(server.Value());
    ghost var more: nat;
    ok, done := Execute(server, [FlushAll], now);
    assert [FlushAll, SetOther][..done] == [FlushAll][..done];
    assert GoesThrough(v, [FlushAll]) by { assert [FlushAll][1..] == []; }
    if ok {
      ok, more := Execute(server, [SetOther], now);
      assert [SetOther][1..] == [] && [FlushAll][..1] == [FlushAll];
      assert [FlushAll, SetOther][..1 + more] == [FlushAll] + [SetOther][..more];
      RunConcat(v, [FlushAll], [SetOther][..more]);
      done := 1 + more;
    }
  }

  /** Starting over: all of it, or nothing that matters. */
  method StartOver(server: Server, ghost files: Files, now: int -> nat) returns (ok: bool)
    requires server.meta.last.None? && ResumeOk(files, ViewOf(server.Value()))
    modifies server
    ensures ResumeOk(files, ViewOf(server.Value())) && server.meta.last.None?
    ensures ok ==> ViewOf(server.Value()) == View(map[], NO_META) && server.calls == old(server.calls) + 2
    ensures ok <==> NoneLost(server.net, old(server.calls), server.calls)
    ensures old(server.calls) < server.calls <= old(server.calls) + 2
    ensures old(Valid(server.Value())) ==> Valid(server.Value())
  {
    ghost var v := ViewOf(server.Value());
    ghost var done: nat;
    ok, done := FlushData(server, now);
    ClearedView(v, done);
  }

  /** A download of this file was interrupted behind its start. */
  predicate CanResume(v: View, etag: nat) { v.meta.etag == Some(etag) && HasOffset(v) && v.meta.applied.Some? }

  /** What the store of the client holds when an attempt begins, and its first step. */
  function Basis(v: View, etag: nat): View { if CanResume(v, etag) then v else View(map[], NO_META) }

  function FirstStep(file: File, v: View, etag: nat): (c: Client)
    ensures c.mode.Fetching? && c.mode.etag == etag && c.mode.batch == [] && c.mode.at <= |file.lines|
    ensures !c.mode.final && !c.mode.cut
  {
    if CanResume(v, etag) then
      Resumed(etag, FindCheckpoint(file.lines, v.meta.offset.value), v.meta.offset.value, v.meta.applied.value)
    else Fresh(etag)
  }

  /** Where a fetch begins: at the stored checkpoint when the server still has that file,
      otherwise on a flushed store at the start of the file. An interrupted download always
      resumes, with the entities and the count it has; a fresh one begins unless the flush breaks. */
  method BeginFetch(server: Server, ghost files: Files, etag: nat, file: File, now: int -> nat)
    returns (start: Option<Mode>)
    requires etag in files && files[etag] == file && WellFormedFile(file.lines, file.position)
    requires server.meta.last.None? && ResumeOk(files, ViewOf(server.Value()))
    modifies server
    ensures server.calls >= old(server.calls)
    ensures old(CanResume(ViewOf(server.Value()), etag)) ==>
              && server.entities == old(server.entities) && start.Some? && start.value.Fetching?
              && start.value.at == FindCheckpoint(file.lines, old(server.meta.offset.value)) < |file.lines|
              && start.value.base == old(server.meta.applied.value)
    ensures !old(CanResume(ViewOf(server.Value()), etag)) ==>
              && (start.Some? <==> NoneLost(server.net, old(server.calls), old(server.calls) + 2))
              && (start.Some? ==> start.value.Fetching? && start.value.at == start.value.base == 0)
              && (start.Some? ==> server.entities == map[])
    ensures start.None? ==> !NoneLost(server.net, old(server.calls), server.calls)
    ensures ResumeOk(files, ViewOf(server.Value())) && server.meta.last.None?
    ensures start.Some? ==> start.value == FirstStep(file, old(ViewOf(server.Value())), etag).mode
    ensures start.Some? ==> FetchOk(file, ViewOf(server.Value()), Client(start.value, [], true))
    ensures start.Some? && NoneLost(server.net, old(server.calls), server.calls) ==>
              var v := old(ViewOf(server.Value()));
              ViewOf(server.Value()) == RunView(Basis(v, etag), FirstStep(file, v, etag).queue)
    ensures old(Valid(server.Value())) ==> Valid(server.Value())
  {
    var prev := server.meta;
    var resume := prev.etag.Some? && prev.offset.Some? && prev.offset.value > 0 && prev.applied.Some?;
    var c: Client;
    if resume && prev.etag.value == etag {
      c := Resumed(etag, FindCheckpoint(file.lines, prev.offset.value), prev.offset.value, prev.applied.value);
      ResumedOk(etag, file, ViewOf(server.Value()), prev.applied.value);
    } else {
      var cleared := StartOver(server, files, now);
      if !cleared { return None; }
      c := Fresh(etag);
      FreshOk(etag, file, ViewOf(server.Value()));
    }
    StoreStart(server, files, file, c, now);
    start := Some(c.mode);
  }

  /** Persist where the attempt starts; a failure is ignored. */
  method StoreStart(server: Server, ghost files: Files, ghost file: File, c: Client, now: int -> nat)
    requires c.mode.Fetching? && !c.mode.final && !c.must && AllSane(c.queue)
    requires c.mode.etag in files && files[c.mode.etag] == file && FetchOk(file, ViewOf(server.Value()), c)
    modifies server
    ensures ResumeOk(files, ViewOf(server.Value())) && server.meta.last.None?
    ensures FetchOk(file, ViewOf(server.Value()), Client(c.mode, [], true))
    ensures server.entities == old(server.entities) && server.calls >= old(server.calls)
    ensures NoneLost(server.net, old(server.calls), server.calls) ==>
              ViewOf(server.Value()) == RunView(ViewOf(old(server.Value())), c.queue)
    ensures old(Valid(server.Value())) ==> Valid(server.Value())
  {
    var _ := ExecuteStep(server, file, c, now);
    SteadyResumes(files, c.mode, ViewOf(server.Value()));
  }

  lemma ClearedView(v: View, k: nat)
    requires k <= 2
    ensures RunView(v, [FlushAll, SetOther][..k]) == if k == 0 then v else View(map[], NO_META)
  {
    var q := [FlushAll, SetOther];
    if k > 0 {
      RunFirst(v, q, k);
      assert q[1..] == [SetOther];
      if k == 1 {
        assert q[1..][..0] == [];
      } else {
        assert q[1..][..1] == [SetOther];
        RunOne(ApplyView(v, FlushAll), SetOther);
      }
    }
  }

  /** Of a file with good values, only good values are in the batch. */
  predicate GoodBatch(file: File, f: Mode)
    requires f.Fetching?
  {
    AllDecodable(Records(file.lines)) ==> AllDecodable(f.batch)
  }

  lemma FinalCount(db: Db, position: nat, n: int, now: int -> nat)
    ensures var cmds := [SetLast(position), SetOther, SetOther, SetCount(n), ClearProgress];
            var end := ApplyPrefix(db, cmds, now, 5);
            end.count == n && end.entities == db.entities && end.meta == Meta(Some(position), None, None, None)
  {
    var cmds := [SetLast(position), SetOther, SetOther, SetCount(n), ClearProgress];
    var a, b := ApplyPrefix(db, cmds, now, 1), ApplyPrefix(db, cmds, now, 2);
    assert ApplyPrefix(db, cmds, now, 0) == db;
    assert a.entities == db.entities && b == a && ApplyPrefix(db, cmds, now, 3) == b;
    assert ApplyPrefix(db, cmds, now, 4) == b.(count := n);
  }

  // ------------------------------------------------- turns of the machine

  /** One turn of the machine with every command executed: where it goes on, or that it ends. */
  predicate OneTurn(file: File, v: View, f: Mode, w: View, next: Option<Mode>)
    requires f.Fetching?
  {
    var c := FetchLine(file, f);
    if c == IDLE then next.None? && w == v
    else w == RunView(v, c.queue) && next == if c.must && !GoesThrough(v, c.queue) then None else Some(c.mode)
  }

  lemma TurnRest(file: File, v: View, f: Mode, w: View, next: Option<Mode>)
    requires f.Fetching? && OneTurn(file, v, f, w, next) && (next.Some? ==> next.value.Fetching?)
    ensures FetchRest(file, v, f) == if next.Some? then FetchRest(file, w, next.value) else w
  {
    if next.Some? { FetchMoves(file, f); }
  }

  /** After the last line that can be read the position is stored iff the batch goes through and
      the done line was among them. */
  lemma EndRest(file: File, v: View, f: Mode)
    requires f.Fetching? && !f.final && !f.cut && FetchOk(file, v, Client(f, [], true))
    requires f.at == |file.lines| || !NextFits(file, f)
    ensures FetchRest(file, v, f).meta.last.Some? <==> GoesThrough(v, Puts(f.batch)) && f.at == |file.lines|
    decreases |f.batch|
  {
    var c := FetchLine(file, f);
    RunPuts(v, f.batch);
    if f.batch != [] {
      hide FetchOk;
      assert c == FlushBatch(f);
      FetchLineOk(file, v, f);
      if GoesThrough(v, c.queue) {
        FetchMoves(file, f);
        RunQueueOk(file, v, c);
        EndRest(file, RunView(v, c.queue), c.mode);
      } else {
        NotYet(file, v, f);
      }
    } else if f.at == |file.lines| {
      NoWritesRun(v, c.queue);
      FinalStored(file, v, f);
    }
  }

  lemma NotYet(file: File, v: View, f: Mode)
    requires f.Fetching? && !f.final && FetchOk(file, v, Client(f, [], true))
    ensures v.meta.last.None?
  {
  }

  /** What a download needs to complete when nothing breaks: that the client can take every line
      it reads, and to resume, that the stored count belongs to the stored offset and that no line
      that is left replaces a value that does not decode. */
  predicate Completes(file: File, v: View, etag: nat) {
    if CanResume(v, etag) then
      var k := FindCheckpoint(file.lines, v.meta.offset.value);
      && v.meta.applied.value == |Records(file.lines[..k])|
      && AllAcceptable(file.lines[k..]) && Replaceable(v.entities, Records(file.lines[k..]))
    else AllAcceptable(file.lines)
  }

  lemma BegunCompletes(files: Files, etag: nat, file: File, v: View)
    requires etag in files && files[etag] == file && WellFormedFile(file.lines, file.position)
    requires AllDecodable(Records(file.lines)) && v.meta.last.None? && ResumeOk(files, v)
    ensures var c := FirstStep(file, v, etag);
            FetchRest(file, RunView(Basis(v, etag), c.queue), c.mode).meta.last.Some? <==> Completes(file, v, etag)
  {
    var c, b := FirstStep(file, v, etag), Basis(v, etag);
    if CanResume(v, etag) {
      ResumeCompletesIff(etag, file, v, v.meta.applied.value, c, FetchRest(file, RunView(v, c.queue), c.mode));
    } else {
      FreshStarts(etag, file);
      RunBookkeeping(b, c.queue);
      assert file.lines[0..] == file.lines;
      FetchCompletesIff(file, RunView(b, c.queue), c.mode);
    }
  }

  lemma ResumedGoesOn(files: Files, etag: nat, file: File, v: View, c: Client)
    requires etag in files && files[etag] == file && WellFormedFile(file.lines, file.position)
    requires AllDecodable(Records(file.lines)) && v.meta.last.None? && ResumeOk(files, v) && Completes(file, v, etag)
    requires CanResume(v, etag) && c == FirstStep(file, v, etag)
    ensures CanGoOn(file, RunView(v, c.queue), c.mode)
  {
    ResumedStarts(etag, file, v, v.meta.applied.value, c);
    hide Ongoing, RunView, WellFormedFile, CatchesUp;
    assert [] + Records(file.lines[c.mode.at..]) == Records(file.lines[c.mode.at..]);
  }

  lemma FreshEmpty(etag: nat, file: File)
    requires WellFormedFile(file.lines, file.position)
    ensures RunView(View(map[], NO_META), Fresh(etag).queue).entities == map[]
    ensures StartsAtMark(file, Fresh(etag).mode)
  {
    RunBookkeeping(View(map[], NO_META), Fresh(etag).queue);
  }

  lemma FreshGoesOn(etag: nat, file: File, w: View)
    requires WellFormedFile(file.lines, file.position) && AllDecodable(Records(file.lines))
    requires AllAcceptable(file.lines) && w == RunView(View(map[], NO_META), Fresh(etag).queue)
    ensures CanGoOn(file, w, Fresh(etag).mode)
  {
    hide Ongoing, RunView, WellFormedFile, AllAcceptable, FetchOk;
    FreshStarts(etag, file);
    FreshEmpty(etag, file);
    assert file.lines[0..] == file.lines;
  }

  lemma BegunGoesOn(files: Files, etag: nat, file: File, v: View)
    requires etag in files && files[etag] == file && WellFormedFile(file.lines, file.position)
    requires AllDecodable(Records(file.lines)) && v.meta.last.None? && ResumeOk(files, v) && Completes(file, v, etag)
    ensures var c, w := FirstStep(file, v, etag), RunView(Basis(v, etag), FirstStep(file, v, etag).queue);
            CanGoOn(file, w, c.mode)
  {
    hide WellFormedFile, ResumeOk, CanGoOn, RunView, CanResume, Replaceable;
    if CanResume(v, etag) {
      ResumedGoesOn(files, etag, file, v, FirstStep(file, v, etag));
    } else {
      FreshGoesOn(etag, file, RunView(View(map[], NO_META), Fresh(etag).queue));
    }
  }

  lemma BegunEtag(file: File, v: View, etag: nat)
    ensures RunView(Basis(v, etag), FirstStep(file, v, etag).queue).meta.etag == Some(etag)
  {
    var q := FirstStep(file, v, etag).queue;
    assert q[1..] == [q[1], q[2]];
    RunTwo(ApplyView(Basis(v, etag), q[0]), q[1], q[2]);
  }

  predicate StartsAtMark(file: File, f: Mode)
    requires f.Fetching?
  {
    f.at < |file.lines| && file.lines[f.at].Checkpoint?
  }

  lemma StillReading(file: File, f: Mode)
    requires f.Fetching? && !f.final && !f.cut && f.at < |file.lines| && Acceptable(file.lines[f.at])
    ensures NextFits(file, f) && (FetchLine(file, f) != IDLE ==> !FetchLine(file, f).mode.final)
  {
  }

  /** Over a line of a fetch that can finish, the machine goes on. */
  lemma GoesOnOver(file: File, v: View, f: Mode)
    requires f.Fetching? && Ongoing(file, v, f) && !f.final && f.at < |file.lines| && CanFinish(file, v, f)
    ensures var c := FetchLine(file, f);
            && c != IDLE && GoesThrough(v, c.queue) && c.mode.at <= |file.lines| && !c.mode.final
            && Ongoing(file, RunView(v, c.queue), c.mode) && CanFinish(file, RunView(v, c.queue), c.mode)
    ensures NextFits(file, f)
  {
    hide FetchOk, WellFormedFile, AllAcceptable, Counts, Replaceable, FetchLine, RunView, GoesThrough;
    var c := FetchLine(file, f);
    AcceptableFrom(file.lines, f.at);
    AcceptsLine(file, v, f);
    TurnSteps(file, f);
    StillReading(file, f);
    TurnReplaces(file, v, f);
    NextTurn(file, v, f, c, RunView(v, c.queue));
  }

  /** The last checkpoint among the first lines, and that it is stored. */
  predicate LastMark(lines: seq<Line>, k: nat, at: nat) {
    k < at <= |lines| && lines[k].Checkpoint? && forall i :: k < i < at ==> !lines[i].Checkpoint?
  }

  predicate StoresMark(lines: seq<Line>, meta: Meta, k: nat)
    requires k < |lines| && lines[k].Checkpoint?
  {
    meta.offset == Some(lines[k].offset) && meta.applied == Some(lines[k].before)
  }

  /** The progress stored is that of the last checkpoint before this line. */
  ghost predicate MarkedTo(file: File, v: View, at: nat) {
    exists k :: LastMark(file.lines, k, at) && StoresMark(file.lines, v.meta, k)
  }

  lemma RunTwo(v: View, a: Cmd, b: Cmd)
    ensures RunView(v, [a, b]) == ApplyView(ApplyView(v, a), b)
  {
    assert [a, b][1..] == [b];
    RunOne(ApplyView(v, a), b);
  }

  /** What a turn queues before the final one: the batch, a checkpoint, or nothing. */
  lemma TurnQueues(file: File, v: View, f: Mode)
    requires f.Fetching? && !f.final && !f.cut && f.at < |file.lines| && FetchLine(file, f) != IDLE && NextFits(file, f)
    ensures var c, line := FetchLine(file, f), file.lines[f.at];
            var w := RunView(v, c.queue);
            && (c.mode.at == f.at || c.mode.at == f.at + 1)
            && if line.Checkpoint? && c.mode.at != f.at
               then w.meta == v.meta.(offset := Some(line.offset), applied := Some(line.before))
               else w.meta == v.meta
  {
    hide RunView, WellFormedFile;
    var line := file.lines[f.at];
    RunPuts(v, f.batch);
    NothingRun(v);
    match line
    case Item(q, raw) => RunPuts(v, f.batch + [Change(q, Some(raw))]);
    case Checkpoint(offset, before) => RunTwo(v, SetOffset(offset), SetApplied(before));
    case Done(_, _) =>
  }

  /** A turn that reads on over a checkpoint stores it, and no other turn touches what is stored. */
  lemma TurnMarks(file: File, v: View, f: Mode)
    requires f.Fetching? && !f.final && !f.cut && f.at < |file.lines| && FetchLine(file, f) != IDLE && NextFits(file, f)
    requires MarkedTo(file, v, f.at) || file.lines[f.at].Checkpoint?
    ensures var c := FetchLine(file, f);
            var w := RunView(v, c.queue);
            && (c.mode.at == f.at ==> w.meta == v.meta)
            && (c.mode.at != f.at ==> c.mode.at == f.at + 1 && MarkedTo(file, w, f.at + 1))
            && w.meta.etag == v.meta.etag
  {
    hide FetchLine, RunView, NextFits;
    var line, w := file.lines[f.at], RunView(v, FetchLine(file, f).queue);
    TurnQueues(file, v, f);
    if FetchLine(file, f).mode.at != f.at {
      if line.Checkpoint? {
        assert LastMark(file.lines, f.at, f.at + 1) && StoresMark(file.lines, w.meta, f.at);
      } else {
        var k :| LastMark(file.lines, k, f.at) && StoresMark(file.lines, v.meta, k);
        assert LastMark(file.lines, k, f.at + 1) && StoresMark(file.lines, w.meta, k);
      }
    }
  }

  /** Where a loop from `start` on is, when nothing stops it. */
  ghost predicate Unstopped(file: File, start: Mode, v: View, f: Mode)
    requires start.Fetching? && f.Fetching?
  {
    && Ongoing(file, v, f) && !f.final && f.at <= |file.lines| && CanFinish(file, v, f) && f.at >= start.at
    && (f.at > start.at ==> MarkedTo(file, v, f.at))
  }

  predicate CanGoOn(file: File, v: View, start: Mode)
    requires start.Fetching?
  {
    Ongoing(file, v, start) && !start.final && start.at <= |file.lines| && CanFinish(file, v, start) &&
    StartsAtMark(file, start)
  }

  lemma UnstoppedStart(file: File, start: Mode, v: View)
    requires start.Fetching? && CanGoOn(file, v, start)
    ensures Unstopped(file, start, v, start) && StartsAtMark(file, start)
  {
  }

  lemma UnstoppedEnd(file: File, start: Mode, v: View, f: Mode)
    requires start.Fetching? && f.Fetching? && Unstopped(file, start, v, f)
    ensures f.at < |file.lines| ==> NextFits(file, f)
  {
    if f.at < |file.lines| { GoesOnOver(file, v, f); }
  }

  lemma UnstoppedTurn(file: File, start: Mode, v: View, f: Mode, w: View, next: Option<Mode>)
    requires start.Fetching? && f.Fetching? && StartsAtMark(file, start) && Unstopped(file, start, v, f)
    requires f.at < |file.lines| && OneTurn(file, v, f, w, next)
    ensures next.Some? && next.value.Fetching? && Unstopped(file, start, w, next.value)
    ensures w.meta.etag == v.meta.etag
  {
    hide Ongoing, CanFinish, GoesThrough, FetchLine, MarkedTo;
    GoesOnOver(file, v, f);
    assert !f.cut by { StillWhole(file, v, f); }
    TurnMarks(file, v, f);
    var c := FetchLine(file, f);
    if c.mode.at == f.at { SameMarks(file, v, w, f.at); }
  }

  lemma SameMarks(file: File, v: View, w: View, at: nat)
    ensures MarkedTo(file, v, at) && w.meta == v.meta ==> MarkedTo(file, w, at)
  {
    if MarkedTo(file, v, at) && w.meta == v.meta {
      var k :| LastMark(file.lines, k, at) && StoresMark(file.lines, v.meta, k);
      assert StoresMark(file.lines, w.meta, k);
    }
  }

  lemma StillWhole(file: File, v: View, f: Mode)
    requires f.Fetching? && Ongoing(file, v, f)
    ensures !f.cut
  {
  }

  // --------------------------------------------------------------- the loop

  /** fetchSnapshot. The download may break within any line and every pipeline after any
      command. `stop` is the line it breaks in, of which `chars` characters arrive. Whatever
      happens, what is stored can be resumed; a position is stored only when the done line was
      reached with a matching count, and then the entities are exactly those of all lines
      applied in order once, entity_count is the number of entity lines, and nothing is left of the
      progress. If neither the download nor a pipeline breaks, this happens exactly under the
      condition of Completes; if only the download breaks, the last checkpoint before the break is
      stored, so that the next attempt goes on from there. From a file of good values index and
      changelog stay right unless the beginning of the cut line is taken for an entity. */
  method FetchSnapshot(server: Server, ghost files: Files, etag: nat, file: File, stop: nat, chars: nat,
                       now: int -> nat)
    returns (position: Option<nat>)
    requires etag in files && files[etag] == file && WellFormedFile(file.lines, file.position)
    requires server.meta.last.None? && ResumeOk(files, ViewOf(server.Value()))
    modifies server
    ensures ResumeOk(files, ViewOf(server.Value())) && server.calls >= old(server.calls)
    ensures server.meta.last.Some? ==> server.meta.last.value == file.position && server.entities == Full(file.lines)
    ensures position.Some? ==>
              server.meta == Meta(position, None, None, None) && server.meta.last.Some? &&
              server.count == |Records(file.lines)|
    ensures NoneLost(server.net, old(server.calls), server.calls) && stop >= |file.lines| &&
            AllDecodable(Records(file.lines)) ==>
              (position.Some? <==> old(Completes(file, ViewOf(server.Value()), etag)))
    ensures NoneLost(server.net, old(server.calls), server.calls) && AllDecodable(Records(file.lines)) &&
            old(Completes(file, ViewOf(server.Value()), etag)) &&
            FirstStep(file, old(ViewOf(server.Value())), etag).mode.at < stop < |file.lines| ==>
              position.None? && server.meta.etag == Some(etag) && MarkedTo(file, ViewOf(server.Value()), stop)
    ensures old(Valid(server.Value())) && AllDecodable(Records(file.lines)) && CleanFragment(file, stop, chars) ==>
              Valid(server.Value())
  {
    ghost var was := ViewOf(server.Value());
    if AllDecodable(Records(file.lines)) { BegunCompletes(files, etag, file, was); }
    if AllDecodable(Records(file.lines)) && Completes(file, was, etag) { BegunGoesOn(files, etag, file, was); }
    BegunEtag(file, was, etag);
    hide WellFormedFile, ResumeOk, Valid, FetchOk, CleanFragment, Completes, RunView, FetchRest, FirstStep, CanGoOn,
      Basis, MarkedTo, NoneLost, CanResume;
    NoneLostParts(server.net);
    var start := BeginFetch(server, files, etag, file, now);
    if start.None? { return None; }
    position := FetchFrom(server, files, file, start.value, stop, chars, now);
  }

  lemma NoneLostParts(net: nat -> Trip)
    ensures forall a: nat, b: nat, c: nat :: a <= b <= c && NoneLost(net, a, c) ==>
              NoneLost(net, a, b) && NoneLost(net, b, c)
  {
  }

  /** The download from where it begins. */
  method FetchFrom(server: Server, ghost files: Files, file: File, start: Mode, stop: nat, chars: nat,
                   now: int -> nat)
    returns (position: Option<nat>)
    requires start.Fetching? && !start.final && !start.cut && start.at <= |file.lines|
    requires start.etag in files && files[start.etag] == file && ResumeOk(files, ViewOf(server.Value()))
    requires FetchOk(file, ViewOf(server.Value()), Client(start, [], true)) && GoodBatch(file, start)
    requires server.meta.last.None?
    modifies server
    ensures ResumeOk(files, ViewOf(server.Value())) && server.calls >= old(server.calls)
    ensures server.meta.last.Some? ==> server.meta.last.value == file.position && server.entities == Full(file.lines)
    ensures position.Some? ==>
              server.meta == Meta(position, None, None, None) && server.meta.last.Some? &&
              server.count == |Records(file.lines)|
    ensures NoneLost(server.net, old(server.calls), server.calls) && stop >= |file.lines| ==>
              (position.Some? <==> old(FetchRest(file, ViewOf(server.Value()), start)).meta.last.Some?)
    ensures NoneLost(server.net, old(server.calls), server.calls) && start.at < stop < |file.lines| &&
            old(CanGoOn(file, ViewOf(server.Value()), start)) ==>
              position.None? && server.meta.etag == old(server.meta.etag) &&
              MarkedTo(file, ViewOf(server.Value()), stop)
    ensures old(Valid(server.Value())) && AllDecodable(Records(file.lines)) && CleanFragment(file, stop, chars) ==>
              Valid(server.Value())
  {
    hide WellFormedFile, ResumeOk, Valid, FetchOk, CleanFragment, RunView, FetchRest, NextFits, CanGoOn, MarkedTo,
      Ongoing, CanFinish;
    var read := ReadLines(server, files, file, start, stop, now);
    if read.None? { return None; }
    var f := read.value;
    if f.at == |file.lines| || !NextFits(file, f) { EndRest(file, ViewOf(server.Value()), f); }
    var last := ReadFragment(server, file, f, if f.at == stop then chars else 0);
    if last.None? { return None; }
    ghost var ended := ViewOf(server.Value());
    position := Complete(server, files, file, last.value, now);
    SameMarks(file, ended, ViewOf(server.Value()), stop);
  }

  /** The loop over the lines that arrive, up to the first that does not fit. */
  method ReadLines(server: Server, ghost files: Files, file: File, start: Mode, stop: nat, now: int -> nat)
    returns (read: Option<Mode>)
    requires start.Fetching? && !start.final && !start.cut && start.at <= |file.lines|
    requires start.etag in files && files[start.etag] == file && ResumeOk(files, ViewOf(server.Value()))
    requires FetchOk(file, ViewOf(server.Value()), Client(start, [], true)) && GoodBatch(file, start)
    requires server.meta.last.None?
    modifies server
    ensures ResumeOk(files, ViewOf(server.Value())) && server.meta.last.None? && server.calls >= old(server.calls)
    ensures read.Some? ==>
              var f := read.value;
              && f.Fetching? && f.etag == start.etag && !f.final && !f.cut && f.at <= |file.lines|
              && FetchOk(file, ViewOf(server.Value()), Client(f, [], true)) && GoodBatch(file, f)
              && (f.at < |file.lines| && f.at < stop ==> !NextFits(file, f))
    ensures NoneLost(server.net, old(server.calls), server.calls) ==>
              FetchRest(file, ViewOf(old(server.Value())), start) ==
              if read.Some? then FetchRest(file, ViewOf(server.Value()), read.value) else ViewOf(server.Value())
    ensures NoneLost(server.net, old(server.calls), server.calls) &&
            old(CanGoOn(file, ViewOf(server.Value()), start)) ==>
              && read.Some? && Unstopped(file, start, ViewOf(server.Value()), read.value)
              && server.meta.etag == old(server.meta.etag)
              && (start.at < stop ==> read.value.at == if stop < |file.lines| then stop else |file.lines|)
    ensures old(Valid(server.Value())) && AllDecodable(Records(file.lines)) ==> Valid(server.Value())
  {
    hide WellFormedFile, ResumeOk, Valid, FetchOk, OneTurn, FetchRest, NextFits, GoodBatch, Unstopped, CanGoOn;
    var f := start;
    ghost var rest := FetchRest(file, ViewOf(server.Value()), f);
    if CanGoOn(file, ViewOf(server.Value()), start) { UnstoppedStart(file, start, ViewOf(server.Value())); }
    while f.at < |file.lines| && f.at < stop && NextFits(file, f)
      invariant f.Fetching? && f.etag == start.etag && !f.final && !f.cut && f.at <= |file.lines|
      invariant FetchOk(file, ViewOf(server.Value()), Client(f, [], true)) && GoodBatch(file, f)
      invariant ResumeOk(files, ViewOf(server.Value())) && server.meta.last.None?
      invariant server.calls >= old(server.calls)
      invariant NoneLost(server.net, old(server.calls), server.calls) ==>
                  FetchRest(file, ViewOf(server.Value()), f) == rest
      invariant NoneLost(server.net, old(server.calls), server.calls) &&
                old(CanGoOn(file, ViewOf(server.Value()), start)) ==>
                  Unstopped(file, start, ViewOf(server.Value()), f) && server.meta.etag == old(server.meta.etag)
      invariant start.at < stop ==> f.at <= stop
      invariant old(Valid(server.Value())) && AllDecodable(Records(file.lines)) ==> Valid(server.Value())
      decreases |file.lines| - f.at, |f.batch|
    {
      ghost var v, at := ViewOf(server.Value()), server.calls;
      var next := ReadLine(server, files, file, f, now);
      if NoneLost(server.net, at, server.calls) {
        TurnRest(file, v, f, ViewOf(server.Value()), next);
        if StartsAtMark(file, start) && Unstopped(file, start, v, f) {
          UnstoppedTurn(file, start, v, f, ViewOf(server.Value()), next);
        }
      }
      if next.None? { return None; }
      f := next.value;
    }
    if Unstopped(file, start, ViewOf(server.Value()), f) { UnstoppedEnd(file, start, ViewOf(server.Value()), f); }
    read := Some(f);
  }

  /** The input ends: after the last line, at a line that does not fit, or within a line, of
      which the scanner then hands over the beginning. */
  method ReadFragment(server: Server, file: File, f: Mode, chars: nat) returns (last: Option<Mode>)
    requires f.Fetching? && !f.final && !f.cut && f.at <= |file.lines|
    requires FetchOk(file, ViewOf(server.Value()), Client(f, [], true)) && GoodBatch(file, f)
    ensures f.at == |file.lines| ==> last == Some(f)
    ensures f.at < |file.lines| ==>
              var c := CutFetch(file, f, chars);
              last == if c == IDLE then None else Some(c.mode)
    ensures f.at < |file.lines| && chars == 0 ==> last == Some(f.(cut := true))
    ensures last.Some? ==> last.value.Fetching? && last.value.etag == f.etag && !last.value.final
    ensures last.Some? ==> FetchOk(file, ViewOf(server.Value()), Client(last.value, [], true))
    ensures last.Some? && CleanFragment(file, f.at, chars) ==> GoodBatch(file, last.value)
  {
    last := Some(f);
    if f.at < |file.lines| {
      last := Some(f.(cut := true));
      CutOk(file, ViewOf(server.Value()), f, chars);
      if AllDecodable(Records(file.lines)) { CutCleanIff(file, f, chars); }
      var text := Fragment(file, f.at, chars);
      if text != "" && ByteSize(text) < SNAPSHOT_LINE_LIMIT && text[0] != '{' {
        var line := ParseLine(text);
        if line.None? || !line.value.Item? { return None; }
        last := Some(f.(cut := true, batch := f.batch + [Change(line.value.qid, Some(line.value.raw))]));
      }
    }
  }

  /** The loop body: one line. A control line first flushes the pending batch. As long as no
      pipeline is lost this is a turn of the machine. */
  method ReadLine(server: Server, ghost files: Files, file: File, f: Mode, now: int -> nat) returns (next: Option<Mode>)
    requires f.Fetching? && !f.final && !f.cut && f.at < |file.lines| && f.etag in files && files[f.etag] == file
    requires NextFits(file, f)
    requires FetchOk(file, ViewOf(server.Value()), Client(f, [], true)) && GoodBatch(file, f)
    modifies server
    ensures ResumeOk(files, ViewOf(server.Value())) && server.meta.last.None? && server.calls >= old(server.calls)
    ensures NoneLost(server.net, old(server.calls), server.calls) ==>
              OneTurn(file, ViewOf(old(server.Value())), f, ViewOf(server.Value()), next)
    ensures next.Some? ==>
              next.value.Fetching? && next.value.etag == f.etag && !next.value.final && !next.value.cut &&
              next.value.at <= |file.lines|
    ensures next.Some? ==> FetchOk(file, ViewOf(server.Value()), Client(next.value, [], true))
    ensures next.Some? ==> GoodBatch(file, next.value)
    ensures next.Some? ==> next.value.at == f.at + 1 || (next.value.at == f.at && |next.value.batch| < |f.batch|)
    ensures old(Valid(server.Value())) && AllDecodable(Records(file.lines)) ==> Valid(server.Value())
  {
    SteadyResumes(files, f, ViewOf(server.Value()));
    hide WellFormedFile, ResumeOk, Valid, FetchOk, Steady, RunView, GoesThrough;
    var line := file.lines[f.at];
    var ok: bool;
    if f.done.Some? {
      next := None;
    } else if line.Item? {
      if Printable(line) { next := TakeItem(server, files, file, f, now); } else { next := None; }
    } else if f.batch != [] {
      ok := Flush(server, files, file, f, now);
      next := if ok then Some(FlushBatch(f).mode) else None;
    } else {
      next := ReadControl(server, files, file, f, now);
    }
  }

  /** An entity line that parses. */
  method TakeItem(server: Server, ghost files: Files, file: File, f: Mode, now: int -> nat)
    returns (next: Option<Mode>)
    requires f.Fetching? && !f.final && !f.cut && f.at < |file.lines| && f.etag in files && files[f.etag] == file
    requires NextFits(file, f) && NextParses(file, f) && f.done.None? && file.lines[f.at].Item?
    requires FetchOk(file, ViewOf(server.Value()), Client(f, [], true)) && GoodBatch(file, f)
    requires ResumeOk(files, ViewOf(server.Value())) && server.meta.last.None?
    modifies server
    ensures ResumeOk(files, ViewOf(server.Value())) && server.meta.last.None? && server.calls >= old(server.calls)
    ensures NoneLost(server.net, old(server.calls), server.calls) ==>
              OneTurn(file, ViewOf(old(server.Value())), f, ViewOf(server.Value()), next)
    ensures next.Some? ==>
              next.value.Fetching? && next.value.etag == f.etag && !next.value.final && !next.value.cut &&
              next.value.at == f.at + 1
    ensures next.Some? ==> FetchOk(file, ViewOf(server.Value()), Client(next.value, [], true))
    ensures next.Some? ==> GoodBatch(file, next.value)
    ensures old(Valid(server.Value())) && AllDecodable(Records(file.lines)) ==> Valid(server.Value())
  {
    hide WellFormedFile, ResumeOk, Valid, FetchOk, Steady, RunView, GoesThrough;
    var line := file.lines[f.at];
    ItemOk(file, ViewOf(server.Value()), f);
    if AllDecodable(Records(file.lines)) { BatchDecodes(file.lines, f.at, f.batch); }
    var more := f.(at := f.at + 1, batch := f.batch + [Change(line.qid, Some(line.raw))]);
    next := Some(more);
    if |more.batch| >= SNAPSHOT_BATCH_SIZE {
      var ok := Flush(server, files, file, more, now);
      next := if ok then Some(FlushBatch(more).mode) else None;
    } else {
      NothingRun(ViewOf(server.Value()));
    }
  }

  /** An accepted checkpoint line. */
  method PassCheckpoint(server: Server, ghost files: Files, file: File, f: Mode, now: int -> nat) returns (next: Mode)
    requires f.Fetching? && !f.final && !f.cut && f.at < |file.lines| && f.etag in files && files[f.etag] == file
    requires file.lines[f.at].Checkpoint? && f.done.None? && f.batch == []
    requires f.base + f.applied == file.lines[f.at].before
    requires FetchOk(file, ViewOf(server.Value()), Client(f, [], true))
    modifies server
    ensures ResumeOk(files, ViewOf(server.Value())) && server.meta.last.None? && server.calls >= old(server.calls)
    ensures next == f.(at := f.at + 1) && FetchOk(file, ViewOf(server.Value()), Client(next, [], true))
    ensures NoneLost(server.net, old(server.calls), server.calls) ==>
              var line := file.lines[f.at];
              ViewOf(server.Value()) ==
                RunView(ViewOf(old(server.Value())), [SetOffset(line.offset), SetApplied(line.before)])
    ensures old(Valid(server.Value())) ==> Valid(server.Value())
  {
    var line := file.lines[f.at];
    CheckpointOk(file, ViewOf(server.Value()), f);
    next := f.(at := f.at + 1);
    var c := Client(next, [SetOffset(line.offset), SetApplied(line.before)], false);
    assert c == Turn(file, f, true, true);
    hide WellFormedFile, ResumeOk, Valid, Turn;
    var _ := ExecuteStep(server, file, c, now);
    SteadyResumes(files, next, ViewOf(server.Value()));
  }

  /** A control line, with the batch flushed. */
  method ReadControl(server: Server, ghost files: Files, file: File, f: Mode, now: int -> nat)
    returns (next: Option<Mode>)
    requires f.Fetching? && !f.final && !f.cut && f.at < |file.lines| && f.etag in files && files[f.etag] == file
    requires !file.lines[f.at].Item? && f.done.None? && f.batch == [] && NextFits(file, f)
    requires FetchOk(file, ViewOf(server.Value()), Client(f, [], true))
    modifies server
    ensures ResumeOk(files, ViewOf(server.Value())) && server.meta.last.None? && server.calls >= old(server.calls)
    ensures NoneLost(server.net, old(server.calls), server.calls) ==>
              OneTurn(file, ViewOf(old(server.Value())), f, ViewOf(server.Value()), next)
    ensures next.Some? ==> next.value.Fetching? && next.value.etag == f.etag && !next.value.final && !next.value.cut
    ensures next.Some? ==> FetchOk(file, ViewOf(server.Value()), Client(next.value, [], true))
    ensures next.Some? ==> next.value.batch == [] && next.value.at == f.at + 1
    ensures old(Valid(server.Value())) ==> Valid(server.Value())
  {
    hide WellFormedFile, ResumeOk, Valid, RunView, GoesThrough;
    SteadyResumes(files, f, ViewOf(server.Value()));
    NothingRun(ViewOf(server.Value()));
    var line := file.lines[f.at];
    if !Printable(line) {
      next := None;
    } else if line.Checkpoint? && f.base + f.applied == line.before {
      var more := PassCheckpoint(server, files, file, f, now);
      next := Some(more);
    } else if line.Done? && f.base + f.applied == line.count {
      DoneOk(file, ViewOf(server.Value()), f);
      next := Some(f.(at := f.at + 1, done := Some(line.position)));
    } else {
      next := None;
    }
  }

  lemma BatchDecodes(lines: seq<Line>, at: nat, batch: seq<Change>)
    requires AllDecodable(Records(lines)) && AllDecodable(batch) && at < |lines| && lines[at].Item?
    ensures AllDecodable(batch + [Change(lines[at].qid, Some(lines[at].raw))])
  {
    ItemsDecode(lines);
  }

  /** flushBatch. */
  method Flush(server: Server, ghost files: Files, file: File, f: Mode, now: int -> nat) returns (ok: bool)
    requires f.Fetching? && !f.final && f.etag in files && files[f.etag] == file
    requires FetchOk(file, ViewOf(server.Value()), Client(f, [], true))
    modifies server
    ensures ResumeOk(files, ViewOf(server.Value())) && server.meta.last.None? && server.calls >= old(server.calls)
    ensures ok ==> FetchOk(file, ViewOf(server.Value()), Client(FlushBatch(f).mode, [], true))
    ensures ok <==> NoneLost(server.net, old(server.calls), server.calls) &&
                    GoesThrough(ViewOf(old(server.Value())), Puts(f.batch))
    ensures NoneLost(server.net, old(server.calls), server.calls) ==>
              ViewOf(server.Value()) == RunView(ViewOf(old(server.Value())), Puts(f.batch))
    ensures old(Valid(server.Value())) && AllDecodable(f.batch) ==> Valid(server.Value())
  {
    FlushOk(file, ViewOf(server.Value()), f);
    if AllDecodable(f.batch) { PutsSane(f.batch); }
    ok := ExecuteStep(server, file, FlushBatch(f), now);
    SteadyResumes(files, FlushBatch(f).mode, ViewOf(server.Value()));
  }

  /** After the last line that arrived: flush, check for the done line, store the position. */
  method Complete(server: Server, ghost files: Files, file: File, last: Mode, now: int -> nat)
    returns (position: Option<nat>)
    requires last.Fetching? && !last.final && last.etag in files && files[last.etag] == file
    requires FetchOk(file, ViewOf(server.Value()), Client(last, [], true))
    modifies server
    ensures ResumeOk(files, ViewOf(server.Value())) && server.calls >= old(server.calls)
    ensures server.meta.last.Some? ==> server.meta.last.value == file.position && server.entities == Full(file.lines)
    ensures position.Some? ==>
              server.meta == Meta(position, None, None, None) && server.meta.last.Some? &&
              server.count == |Records(file.lines)|
    ensures NoneLost(server.net, old(server.calls), server.calls) ==>
              (position.Some? <==>
                 GoesThrough(ViewOf(old(server.Value())), Puts(last.batch)) && !last.cut && last.at == |file.lines|)
    ensures NoneLost(server.net, old(server.calls), server.calls) && last.cut ==> server.meta == old(server.meta)
    ensures old(Valid(server.Value())) && AllDecodable(last.batch) ==> Valid(server.Value())
  {
    var f := last;
    SteadyResumes(files, f, ViewOf(server.Value()));
    RunPuts(ViewOf(server.Value()), f.batch);
    if f.batch != [] {
      var ok := Flush(server, files, file, f, now);
      if !ok { return None; }
      f := FlushBatch(f).mode;
    } else {
      NothingRun(ViewOf(server.Value()));
    }
    if f.cut || f.done.None? { return None; }
    position := StorePosition(server, files, file, f, now);
  }

  /** The final metadata. */
  method StorePosition(server: Server, ghost files: Files, file: File, f: Mode, now: int -> nat)
    returns (position: Option<nat>)
    requires f.Fetching? && !f.final && !f.cut && f.etag in files && files[f.etag] == file
    requires f.done.Some? && f.batch == []
    requires FetchOk(file, ViewOf(server.Value()), Client(f, [], true))
    modifies server
    ensures ResumeOk(files, ViewOf(server.Value())) && server.calls >= old(server.calls)
    ensures server.meta.last.Some? ==> server.meta.last.value == file.position && server.entities == Full(file.lines)
    ensures position.Some? ==>
              server.meta == Meta(position, None, None, None) && server.meta.last.Some? &&
              server.count == |Records(file.lines)|
    ensures position.Some? <==> NoneLost(server.net, old(server.calls), server.calls)
    ensures old(Valid(server.Value())) ==> Valid(server.Value())
  {
    FinishOk(file, ViewOf(server.Value()), f, true, true);
    var c := Client(f.(final := true),
                    [SetLast(f.done.value), SetOther, SetOther, SetCount(f.base + f.applied), ClearProgress], true);
    assert c == Turn(file, f, true, true);
    FinalCount(server.Value(), file.position, |Records(file.lines)|, now);
    NoWritesRun(ViewOf(server.Value()), c.queue);
    var ok := ExecuteStep(server, file, c, now);
    SteadyResumes(files, c.mode, ViewOf(server.Value()));
    position := if ok then f.done else None;
  }
}
