/** Connections cut inside a line: what a beginning of a line does when the client takes it for an
    entity or a change, and that nodes stay sound as long as it does not. */
module Cuts {
  import opened Text
  import opened Mappings
  import opened EntityMaps
  import opened Store
  import opened Stream
  import opened Snapshot
  import opened Replica
  import opened Link
  import opened Chain

  // ---------------------------------------------------------- clean cuts

  /** A cut of which nothing is taken for an entity or a change. */
  predicate CleanCut(up: Node, c: Client, mv: ClientMove) {
    mv.Cut? && c.queue == [] ==>
      && (c.mode.Fetching? && c.mode.etag in up.files ==> CleanFragment(up.files[c.mode.etag], c.mode.at, mv.chars))
      && (c.mode.Streaming? && c.mode.inflight != [] ==> PayloadLeft(c.mode.inflight[0], mv.chars).None?)
  }

  predicate CleanMove(chain: seq<Node>, k: nat, i: nat, mv: Move) {
    0 < i <= k && i < |chain| && mv.ClientDoes? ==> CleanCut(chain[i - 1], chain[i].client, mv.move)
  }

  /** A run with clean cuts only at the nodes up to k. */
  predicate CleanRun(chain: seq<Node>, moves: seq<(nat, Move)>, k: nat) {
    moves == [] ||
    (var n := |moves| - 1;
     CleanRun(chain, moves[..n], k) && CleanMove(Run(chain, moves[..n]), k, moves[n].0, moves[n].1))
  }

  /** Only values that decode are on their way to the store, and in the file they come from. */
  predicate CleanLink(up: Node, c: Client) {
    && CleanClient(c)
    && ((c.mode.Starting? || c.mode.Fetching?) && c.mode.etag in up.files ==>
          AllDecodable(Records(up.files[c.mode.etag].lines)))
  }

  lemma BeginCovered(up: Node, me: Node, seeding: bool)
    ensures var c := BeginClient(up, me, seeding);
            && CleanClient(c)
            && (c.mode.Starting? || c.mode.Fetching? ==>
                  c.mode.etag in up.files && Covered(up.db.log, up.files[c.mode.etag].position))
  {
  }

  lemma CoveredGood(up: Node, t: nat)
    requires NodeOk(up) && t in up.files && Covered(up.db.log, up.files[t].position)
    ensures AllDecodable(Records(up.files[t].lines))
  {
    CoverageSound(up.db, up.files[t].position);
    assert FileOk(up.db, up.files[t]);
  }

  lemma CleanBegin(up: Node, me: Node, seeding: bool)
    requires NodeOk(up)
    ensures CleanLink(up, BeginClient(up, me, seeding))
  {
    var c := BeginClient(up, me, seeding);
    BeginCovered(up, me, seeding);
    if c.mode.Starting? || c.mode.Fetching? { CoveredGood(up, c.mode.etag); }
  }

  lemma CleanProceed(up: Node, v: View, c: Client, fits: bool)
    requires ClientOk(up, v, c, true) && CleanLink(up, c) && c.queue == []
    ensures CleanLink(up, Continue(up, c, fits))
  {
    if c.mode.Fetching? {
      var file := up.files[c.mode.etag];
      TurnClean(file, c.mode, NextFits(file, c.mode), NextParses(file, c.mode));
    }
  }

  lemma CleanAfterCut(up: Node, v: View, c: Client, chars: nat)
    requires ClientOk(up, v, c, true) && CleanLink(up, c) && c.queue == [] && CleanCut(up, c, Cut(chars))
    ensures c.mode.Fetching? ==> CleanLink(up, CutFetch(up.files[c.mode.etag], c.mode, chars))
    ensures c.mode.Streaming? ==> CutStream(c.mode.inflight, chars) == IDLE
  {
    if c.mode.Fetching? { CutCleanIff(up.files[c.mode.etag], c.mode, chars); }
  }

  lemma CleanAfter(up: Node, me: Node, mv: ClientMove)
    requires NodeOk(up) && LinkOk(up, me, true) && CleanLink(up, me.client) && CleanCut(up, me.client, mv)
    ensures CleanLink(up, ClientAfter(up, me, mv))
  {
    var c := me.client;
    match mv
    case Begin(seeding) => CleanBegin(up, me, seeding);
    case Proceed => if c.queue == [] { CleanProceed(up, ViewOf(me.db), c, NextEventFits(c)); }
    case Cut(chars) => if c.queue == [] { CleanAfterCut(up, ViewOf(me.db), c, chars); }
    case _ =>
  }

  /** With clean cuts below a sound upstream a sound replica stays sound. */
  lemma CleanStep(up: Node, me: Node, mv: ClientMove)
    requires NodeOk(up) && LinkOk(up, me, true) && CleanLink(up, me.client) && CleanCut(up, me.client, mv)
    ensures CleanLink(up, ClientStep(up, me, mv).client) && StaysSound(me, ClientDoes(mv), true)
  {
    hide NodeOk, FetchOk, StreamOk, StoredOk;
    if mv.Exec? && me.client.queue != [] {
      assert Sane(me.client.queue[0]);
    } else {
      CleanAfter(up, me, mv);
    }
  }

  /** The nodes up to k are sound and clean. */
  predicate CleanTo(chain: seq<Node>, sound: seq<bool>, k: nat)
    requires k < |chain| == |sound|
  {
    (forall i :: 0 <= i <= k ==> sound[i]) && (forall i :: 0 < i <= k ==> CleanLink(chain[i - 1], chain[i].client))
  }

  lemma CleanNode(chain: seq<Node>, sound: seq<bool>, k: nat, i: nat, mv: Move)
    requires k < |chain| == |sound| && ChainOk(chain, sound) && CleanTo(chain, sound, k) && i <= k
    requires CleanMove(chain, k, i, mv)
    ensures SoundStep(chain, sound, i, mv)[i] && MoreFiles(chain[i].files, NodeStep(chain, i, mv).files)
    ensures i > 0 ==> CleanLink(chain[i - 1], NodeStep(chain, i, mv).client)
  {
    hide NodeOk, NodeTidy, LinkOk, CleanLink, CleanCut;
    assert sound[i];
    if i > 0 {
      assert sound[i - 1] && LinkOk(chain[i - 1], chain[i], sound[i - 1]) && CleanLink(chain[i - 1], chain[i].client);
      if mv.ClientDoes? { CleanStep(chain[i - 1], chain[i], mv.move); }
    }
  }

  lemma CleanLinkMore(up: Node, next: Node, me: Node)
    requires LinkOk(up, me, true) && CleanLink(up, me.client) && MoreFiles(up.files, next.files)
    ensures CleanLink(next, me.client)
  {
  }

  lemma CleanStays(chain: seq<Node>, sound: seq<bool>, k: nat, i: nat, mv: Move)
    requires k < |chain| == |sound| && ChainOk(chain, sound) && CleanTo(chain, sound, k) && CleanMove(chain, k, i, mv)
    ensures CleanTo(Step(chain, i, mv), SoundStep(chain, sound, i, mv), k)
  {
    hide NodeOk, NodeTidy, LinkOk, CleanLink, CleanCut;
    if i <= k {
      CleanNode(chain, sound, k, i, mv);
      var after := Step(chain, i, mv);
      forall j | 0 < j <= k ensures CleanLink(after[j - 1], after[j].client) {
        assert CleanLink(chain[j - 1], chain[j].client) && LinkOk(chain[j - 1], chain[j], sound[j - 1]) && sound[j - 1];
        if j - 1 == i { CleanLinkMore(chain[i], after[i], chain[j]); }
      }
    }
  }

  /** As long as what cut connections leave at the nodes up to k is not taken for an entity or a
      change, all of them are sound. */
  lemma {:induction false} CleanRunSound(n: nat, moves: seq<(nat, Move)>, k: nat)
    requires OrderlyRun(NewChain(n), moves) && k < n && CleanRun(NewChain(n), moves, k)
    ensures CleanTo(Run(NewChain(n), moves), Soundness(NewChain(n), moves), k)
  {
    if moves != [] {
      var m := |moves| - 1;
      ChainSafe(n, moves[..m]);
      CleanRunSound(n, moves[..m], k);
      CleanStays(Run(NewChain(n), moves[..m]), Soundness(NewChain(n), moves[..m]), k, moves[m].0, moves[m].1);
    }
  }

  // ------------------------------------------------------------- the snapshot

  lemma {:induction false} LastWritten(db: Db, batch: seq<Change>, c: Change, now: int -> nat)
    requires c.mappings.Some?
    ensures var cmds := Puts(batch + [c]);
            |cmds| == |batch| + 1 && Get(ApplyPrefix(db, cmds, now, |cmds|).entities, c.qid) == c.mappings
  {
    var all := batch + [c];
    PutsAt(all);
    PrefixEntities(db, all, now, |all|);
    assert all[..|all|] == all;
    ReplayAppend(db.entities, batch, c);
  }

  /** A download that breaks off: after what it flushes last, the store is valid iff the
      beginning of the cut line is not taken for an entity. */
  lemma CutFlushIff(db: Db, file: File, f: Mode, chars: nat, now: int -> nat)
    requires Valid(db) && AllDecodable(Records(file.lines)) && f.Fetching? && AllDecodable(f.batch)
    requires CutFetch(file, f, chars).mode.Fetching?
    ensures var cmds := FlushBatch(CutFetch(file, f, chars).mode).queue;
            Valid(ApplyPrefix(db, cmds, now, |cmds|)) <==> CleanFragment(file, f.at, chars)
  {
    var batch := CutFetch(file, f, chars).mode.batch;
    CutCleanIff(file, f, chars);
    if CleanFragment(file, f.at, chars) {
      PutsSane(batch);
      ApplyPrefixValid(db, Puts(batch), now, |Puts(batch)|);
    } else {
      TornFails(file, f.at, chars);
      var torn := batch[|batch| - 1];
      assert batch == f.batch + [torn] && !Decodable(torn);
      LastWritten(db, f.batch, torn, now);
    }
  }

  /** The shortest case: of the line `5 ["P1:x"]` only `5 [` arrives. It is taken for an entity
      with the mappings `[`, which do not decode. */
  lemma TornAtFive(file: File, at: nat)
    requires at < |file.lines| && file.lines[at] == Item(5, "[\"P1:x\"]")
    ensures Fragment(file, at, 3) == "5 [" && ParseLine("5 [") == Some(Item(5, "["))
    ensures !CleanFragment(file, at, 3) && !Decodes("[")
  {
    assert FormatInt(5) == "5";
    FragmentTakenIff(file.lines[at], 3);
    assert file.lines[at].raw[..1] == "[";
    Wire.SizeBound("5 [");
  }

  // --------------------------------------------------------------- the stream

  lemma SomethingElse(e: LogEntry, chars: nat)
    requires Decodable(e.change) && PayloadLeft(e, chars).Some?
    ensures PayloadLeft(e, chars).value != e.change
  {
    Wire.PayloadCut(e.change, chars);
    if e.change.mappings.Some? { RawIsOneLine(e.change.mappings.value); }
  }

  predicate SameOrWritten(m: EntityMap, wrong: Change, right: Change, rest: seq<Change>, q: Qid) {
    Writes(rest, q) || Get(ApplyChange(m, wrong), q) == Get(ApplyChange(m, right), q)
  }

  /** Applying the wrong change does no harm: both entities are written again, or are as the right
      one leaves them. */
  predicate Harmless(m: EntityMap, wrong: Change, right: Change, rest: seq<Change>) {
    SameOrWritten(m, wrong, right, rest, wrong.qid) && SameOrWritten(m, wrong, right, rest, right.qid)
  }

  lemma HarmlessIff(m: EntityMap, wrong: Change, right: Change, rest: seq<Change>)
    ensures Replay(ApplyChange(m, wrong), rest) == Replay(ApplyChange(m, right), rest) <==>
            Harmless(m, wrong, right, rest)
  {
    ReplaySameIff(ApplyChange(m, wrong), ApplyChange(m, right), rest);
    forall q | q != wrong.qid && q != right.qid ensures SameOrWritten(m, wrong, right, rest, q) {}
    if Harmless(m, wrong, right, rest) {
      forall q ensures SameOrWritten(m, wrong, right, rest, q) {}
    } else {
      var q := if SameOrWritten(m, wrong, right, rest, wrong.qid) then right.qid else wrong.qid;
      assert !SameOrWritten(m, wrong, right, rest, q);
    }
  }

  lemma HarmedAlone(m: EntityMap, wrong: Change, right: Change, rest: seq<Change>)
    requires wrong != right && Get(m, right.qid) != right.mappings && !Writes(rest, right.qid)
    ensures !Harmless(m, wrong, right, rest)
  {
  }

  lemma CursorAt(db: Db, last: nat, e: LogEntry, rest: seq<LogEntry>)
    requires Valid(db) && last > db.floor && After(History(db), last) == [e] + rest
    ensures Since(db, e.id) == Changes(rest) && last < e.id <= db.clock
  {
    AfterAdvance(History(db), last, [e], rest);
    assert [e] <= After(History(db), last);
    ReadIds(db, last, [e]);
  }

  lemma RunTwo(v: View, a: Cmd, b: Cmd)
    ensures RunView(v, [a, b]) == ApplyView(ApplyView(v, a), b)
  {
    assert [a, b][1..] == [b];
    RunOne(ApplyView(v, a), b);
  }

  lemma TakenSafeIff(db: Db, v: View, e: LogEntry, rest: seq<LogEntry>, wrong: Change)
    requires Valid(db) && CursorOk(db, v) && v.meta.last.Some? && v.meta.last.value > db.floor
    requires After(History(db), v.meta.last.value) == [e] + rest
    ensures CursorOk(db, RunView(v, [Write(wrong), SetLast(e.id)])) <==>
            Harmless(v.entities, wrong, e.change, Changes(rest))
  {
    RunTwo(v, Write(wrong), SetLast(e.id));
    CursorAt(db, v.meta.last.value, e, rest);
    ChangesCons(e, rest);
    ReplayCons(v.entities, e.change, Changes(rest));
    HarmlessIff(v.entities, wrong, e.change, Changes(rest));
  }

  /** A stream that breaks off within an event: the stored cursor stays safe iff the beginning of
      the payload is not taken for a change, or taking it does no harm. Otherwise the client
      applies something else and stores the id of the event, which is then never sent again.
      In particular it harms whenever the event says something new and nobody writes its entity
      again. */
  lemma CutStreamIff(db: Db, v: View, e: LogEntry, rest: seq<LogEntry>, chars: nat, left: Option<Change>)
    requires Valid(db) && CursorOk(db, v) && v.meta.last.Some? && v.meta.last.value > db.floor
    requires After(History(db), v.meta.last.value) == [e] + rest && Decodable(e.change)
    requires left == PayloadLeft(e, chars)
    ensures CursorOk(db, RunView(v, CutStream([e], chars).queue)) <==>
            left.None? || Harmless(v.entities, left.value, e.change, Changes(rest))
    ensures Get(v.entities, e.change.qid) != e.change.mappings && !Writes(Changes(rest), e.change.qid) ==>
            (CursorOk(db, RunView(v, CutStream([e], chars).queue)) <==> left.None?)
  {
    if left.Some? {
      TakenSafeIff(db, v, e, rest, left.value);
      SomethingElse(e, chars);
      if Get(v.entities, e.change.qid) != e.change.mappings && !Writes(Changes(rest), e.change.qid) {
        HarmedAlone(v.entities, left.value, e.change, Changes(rest));
      }
    }
  }

  lemma Twelve()
    ensures Wire.ParseData("12") == Some((12, "")) && ByteSize("data: 12") < Wire.STREAM_LINE_LIMIT
  {
    assert FormatInt(12) == "12";
    Wire.DataRoundTrip(12, "");
    assert Wire.FormatData(12, "") == "12";
    Wire.SizeBound("data: 12");
  }

  /** For example: of `123 ["P1:x"]` only `12` arrives. The client deletes 12. */
  lemma DeletesAnother(id: nat)
    ensures PayloadLeft(LogEntry(id, Change(123, Some("[\"P1:x\"]"))), 2) == Some(Change(12, None))
  {
    var c := Change(123, Some("[\"P1:x\"]"));
    assert FormatInt(123) == "123";
    assert Wire.Payload(c)[..2] == "12" && "data: " + "12" == "data: 12";
    Twelve();
    hide Wire.ParseData, ByteSize, Wire.Payload;
  }
}
