/** A replica that nothing disturbs any more: the single steps of its client, taken one after the
    other, bring it from any idle state to the entities of its upstream. */
module Progress {
  import opened Text
  import opened Mappings
  import opened EntityMaps
  import opened Store
  import opened Stream
  import opened Snapshot
  import opened Replica
  import opened Link
  import opened Chain
  import opened Completion
  import opened SnapshotFetch
  import Wire

  // ---------------------------------------------------------------- driving

  /** The next step of a client that nothing disturbs: a pending command, or else the next turn. */
  function Driven(up: Node, now: nat): Node -> Node {
    (me: Node) => ClientStep(up, me, if me.client.queue != [] then Exec(now) else Proceed)
  }

  function Drive(up: Node, me: Node, n: nat, now: nat): Node { Iterate(Driven(up, now), me, n) }

  lemma {:induction false} DriveMore(up: Node, me: Node, m: nat, n: nat, now: nat)
    ensures Drive(up, me, m + n, now) == Drive(up, Drive(up, me, m, now), n, now)
  {
    if n > 0 { DriveMore(up, me, m, n - 1, now); }
  }

  lemma DriveFirst(up: Node, me: Node, n: nat, now: nat)
    ensures Drive(up, me, n + 1, now) == Drive(up, Driven(up, now)(me), n, now)
  {
    DriveMore(up, me, 1, n, now);
    assert Iterate(Driven(up, now), me, 0) == me;
  }

  /** A pipeline outside a stream, command by command: all of it runs, and a refused command of one
      that must go through ends the attempt. */
  lemma {:induction false} QueueDrives(up: Node, me: Node, now: nat)
    requires !me.client.mode.Streaming? && (me.client.mode.Stopping? ==> me.client.must)
    ensures var c, d := me.client, Drive(up, me, |me.client.queue|, now);
            && ViewOf(d.db) == RunView(ViewOf(me.db), c.queue)
            && d.client == if c.must && !GoesThrough(ViewOf(me.db), c.queue) then Client(Stopping, [], true)
                           else c.(queue := [])
    decreases |me.client.queue|
  {
    var c := me.client;
    if c.queue != [] {
      var next := Driven(up, now)(me);
      ViewOfApply(me.db, c.queue[0], now);
      assert next.client == if c.must && Fails(me.db.entities, c.queue[0]) then Refused(c) else Executed(c);
      QueueDrives(up, next, now);
      DriveFirst(up, me, |c.queue| - 1, now);
    }
  }

  lemma Proceeds(up: Node, me: Node, now: nat)
    requires me.client.queue == []
    ensures Drive(up, me, 1, now) == me.(client := ProceedClient(up, me.client))
  {
    assert Iterate(Driven(up, now), me, 0) == me;
  }

  /** A turn of the fetch loop, and the pipeline it queues. */
  lemma TurnDrives(up: Node, me: Node, etag: nat, now: nat) returns (n: nat)
    requires me.client.queue == [] && me.client.mode.Fetching? && me.client.mode.etag == etag && etag in up.files
    ensures var c, d := FetchLine(up.files[etag], me.client.mode), Drive(up, me, n, now);
            if c == IDLE then d == me.(client := IDLE)
            else
              && ViewOf(d.db) == RunView(ViewOf(me.db), c.queue)
              && d.client == if c.must && !GoesThrough(ViewOf(me.db), c.queue) then IDLE else c.(queue := [])
  {
    var c := FetchLine(up.files[etag], me.client.mode);
    var turned := me.(client := c);
    Proceeds(up, me, now);
    n := 1;
    if c != IDLE {
      QueueDrives(up, turned, now);
      DriveMore(up, me, 1, |c.queue|, now);
      n := 1 + |c.queue|;
      if c.must && !GoesThrough(ViewOf(me.db), c.queue) {
        Proceeds(up, Drive(up, me, n, now), now);
        DriveMore(up, me, n, 1, now);
        n := n + 1;
      }
    }
  }

  /** The rest of a fetch by single steps is what FetchRest says. */
  lemma {:induction false} FetchDrives(up: Node, me: Node, etag: nat, now: nat) returns (n: nat)
    requires me.client.queue == [] && me.client.mode.Fetching? && me.client.mode.etag == etag && etag in up.files
    ensures var d := Drive(up, me, n, now);
            d.client == IDLE && ViewOf(d.db) == FetchRest(up.files[etag], ViewOf(me.db), me.client.mode)
    decreases Left(up.files[etag], me.client.mode), |me.client.mode.batch|, !me.client.mode.final
  {
    hide FetchLine, RunView, GoesThrough, Drive;
    var file, f, v := up.files[etag], me.client.mode, ViewOf(me.db);
    var c := FetchLine(file, f);
    n := TurnDrives(up, me, etag, now);
    if c != IDLE && !(c.must && !GoesThrough(v, c.queue)) {
      FetchMoves(file, f);
      var more := FetchDrives(up, Drive(up, me, n, now), etag, now);
      DriveMore(up, me, n, more, now);
      n := n + more;
    }
  }

  // --------------------------------------------------------------- the download

  /** A replica without a cursor whose upstream serves a snapshot. */
  predicate CanDownload(up: Node, me: Node, etag: nat) {
    && me.client == IDLE && me.db.meta.last.None?
    && up.current == Some(etag) && etag in up.files && Covered(up.db.log, up.files[etag].position)
  }

  function Begun(up: Node, me: Node): Node { ClientStep(up, me, Begin(false)) }

  lemma BeginsAs(up: Node, me: Node, etag: nat)
    requires CanDownload(up, me, etag)
    ensures var v := ViewOf(me.db);
            Begun(up, me) ==
            me.(client := if CanResume(v, etag) then FirstStep(up.files[etag], v, etag)
                          else Client(Starting(etag), [FlushAll, SetOther], true))
  {
  }

  lemma ClearingDrives(v: View, q: seq<Cmd>)
    requires q == [FlushAll, SetOther]
    ensures GoesThrough(v, q) && RunView(v, q) == View(map[], NO_META)
  {
    assert q[1..] == [SetOther] && q[1..][1..] == [] && GoesThrough(View(map[], NO_META), []);
    ClearedView(v, 2);
    assert q[..2] == q;
  }

  /** A flushed store on which the download starts afresh. */
  lemma FreshDrives(up: Node, me: Node, etag: nat, now: nat) returns (n: nat)
    requires me.client == Client(Starting(etag), [FlushAll, SetOther], true)
    ensures var d := Drive(up, me, n, now);
            d.client == Fresh(etag).(queue := []) && ViewOf(d.db) == RunView(View(map[], NO_META), Fresh(etag).queue)
  {
    hide RunView, GoesThrough, Driven;
    var v := ViewOf(me.db);
    ClearingDrives(v, me.client.queue);
    QueueDrives(up, me, now);
    var cleared := Drive(up, me, 2, now);
    assert cleared.client == Client(Starting(etag), [], true);
    Proceeds(up, cleared, now);
    QueueDrives(up, cleared.(client := Fresh(etag)), now);
    DriveMore(up, me, 2, 1, now);
    DriveMore(up, me, 3, |Fresh(etag).queue|, now);
    n := 3 + |Fresh(etag).queue|;
  }

  lemma BeginDrives(up: Node, me: Node, etag: nat, now: nat) returns (n: nat)
    requires CanDownload(up, me, etag)
    ensures var v, d := ViewOf(me.db), Drive(up, Begun(up, me), n, now);
            var c := FirstStep(up.files[etag], v, etag);
            d.client == c.(queue := []) && ViewOf(d.db) == RunView(Basis(v, etag), c.queue)
  {
    hide RunView, GoesThrough, Driven, Drive, Begun;
    BeginsAs(up, me, etag);
    if CanResume(ViewOf(me.db), etag) {
      n := |Begun(up, me).client.queue|;
      QueueDrives(up, Begun(up, me), now);
    } else {
      n := FreshDrives(up, Begun(up, me), etag, now);
    }
  }

  lemma DownloadDrives(up: Node, me: Node, etag: nat, now: nat) returns (n: nat)
    requires CanDownload(up, me, etag)
    ensures var v, d := ViewOf(me.db), Drive(up, Begun(up, me), n, now);
            var c := FirstStep(up.files[etag], v, etag);
            && d.client == IDLE
            && ViewOf(d.db) == FetchRest(up.files[etag], RunView(Basis(v, etag), c.queue), c.mode)
  {
    n := BeginDrives(up, me, etag, now);
    var more := FetchDrives(up, Drive(up, Begun(up, me), n, now), etag, now);
    DriveMore(up, Begun(up, me), n, more, now);
    n := n + more;
  }

  /** The file a node serves holds good values. */
  lemma ServedDecodes(up: Node, etag: nat)
    requires NodeOk(up) && etag in up.files && Covered(up.db.log, up.files[etag].position)
    ensures WellFormedFile(up.files[etag].lines, up.files[etag].position)
    ensures AllDecodable(Records(up.files[etag].lines))
  {
    assert FileTidy(up.db, up.files[etag]) && FileOk(up.db, up.files[etag]);
    assert up.db.log[0] == History(up.db)[|up.db.removed|];
  }

  /** What a completed rest of a fetch leaves. */
  lemma CompletedRest(files: Files, etag: nat, file: File, v: View)
    requires etag in files && files[etag] == file && WellFormedFile(file.lines, file.position)
    requires AllDecodable(Records(file.lines)) && v.meta.last.None? && ResumeOk(files, v) && Completes(file, v, etag)
    ensures var c := FirstStep(file, v, etag);
            var w := FetchRest(file, RunView(Basis(v, etag), c.queue), c.mode);
            w.meta.last == Some(file.position) && w.entities == Full(file.lines)
  {
    var c := FirstStep(file, v, etag);
    BegunGoesOn(files, etag, file, v);
    FetchCompletesIff(file, RunView(Basis(v, etag), c.queue), c.mode);
  }

  /** A download by single steps, from any idle state of a replica without a cursor, whatever earlier
      attempts left: it ends, and it ends with the position of the served file and exactly its
      entities iff the condition of Completes holds. */
  lemma DownloadCompletesIff(up: Node, me: Node, etag: nat, now: nat) returns (n: nat)
    requires NodeOk(up) && LinkOk(up, me, true) && CanDownload(up, me, etag)
    ensures var d, file := Drive(up, Begun(up, me), n, now), up.files[etag];
            && d.client == IDLE
            && (d.db.meta.last.Some? <==> Completes(file, ViewOf(me.db), etag))
            && (d.db.meta.last.Some? ==> d.db.meta.last == Some(file.position) && d.db.entities == Full(file.lines))
  {
    var file, v := up.files[etag], ViewOf(me.db);
    ServedDecodes(up, etag);
    assert ResumeOk(up.files, v);
    hide NodeOk, LinkOk, ResumeOk, Completes, FetchRest, WellFormedFile, CanResume, FirstStep, Basis;
    n := DownloadDrives(up, me, etag, now);
    BegunCompletes(up.files, etag, file, v);
    if Completes(file, v, etag) { CompletedRest(up.files, etag, file, v); }
  }

  // ------------------------------------------------------------- what is kept

  /** The client of a download of good values. */
  predicate Downloading(up: Node, c: Client, etag: nat) {
    && etag in up.files && AllDecodable(Records(up.files[etag].lines)) && CleanClient(c)
    && match c.mode
       case Idle => true
       case Starting(e) => e == etag
       case Fetching(e, _, _, _, _, _, _, _) => e == etag
       case Stopping => true
       case _ => false
  }

  lemma SaneNext(c: Client)
    requires CleanClient(c) && c.queue != [] && !c.mode.Streaming?
    ensures Sane(c.queue[0]) && CleanClient(Executed(c)) && CleanClient(Refused(c))
  {
  }

  lemma ProceedsClean(up: Node, c: Client, etag: nat)
    requires Downloading(up, c, etag) && c.queue == []
    ensures Downloading(up, ProceedClient(up, c), etag)
  {
    if c.mode.Fetching? {
      var file := up.files[etag];
      TurnClean(file, c.mode, NextFits(file, c.mode), NextParses(file, c.mode));
    }
  }

  lemma ExecsClean(up: Node, me: Node, etag: nat, now: nat)
    requires Downloading(up, me.client, etag) && me.client.queue != []
    ensures Sane(me.client.queue[0]) && Downloading(up, ExecStep(me, now).client, etag)
  {
    SaneNext(me.client);
  }

  lemma DrivenKeeps(up: Node, me: Node, etag: nat, now: nat, sound: bool)
    requires BothOk(up, me, sound) && Downloading(up, me.client, etag)
    ensures BothOk(up, Driven(up, now)(me), sound) && Downloading(up, Driven(up, now)(me).client, etag)
  {
    hide BothOk, Downloading, ExecStep, ProceedClient;
    if me.client.queue != [] {
      ExecsClean(up, me, etag, now);
      StepKeepsBoth(up, me, Exec(now), sound);
    } else {
      ProceedsClean(up, me.client, etag);
      StepKeepsBoth(up, me, Proceed, sound);
    }
  }

  lemma {:induction false} DriveKeeps(up: Node, me: Node, etag: nat, n: nat, now: nat, sound: bool)
    requires BothOk(up, me, sound) && Downloading(up, me.client, etag)
    ensures BothOk(up, Drive(up, me, n, now), sound) && Downloading(up, Drive(up, me, n, now).client, etag)
  {
    hide BothOk, Downloading, Driven;
    if n == 0 {
      assert Drive(up, me, 0, now) == me;
    } else {
      DriveKeeps(up, me, etag, n - 1, now, sound);
      DrivenKeeps(up, Drive(up, me, n - 1, now), etag, now, sound);
    }
  }

  lemma BeginClean(up: Node, me: Node, etag: nat)
    requires NodeOk(up) && CanDownload(up, me, etag)
    ensures Downloading(up, Begun(up, me).client, etag)
  {
    hide NodeOk;
    ServedDecodes(up, etag);
  }

  lemma BeginKeeps(up: Node, me: Node, etag: nat, sound: bool)
    requires NodeOk(up) && BothOk(up, me, sound) && CanDownload(up, me, etag)
    ensures BothOk(up, Begun(up, me), sound) && Downloading(up, Begun(up, me).client, etag)
  {
    hide NodeOk, BothOk, Downloading;
    BeginClean(up, me, etag);
    StepKeepsBoth(up, me, Begin(false), sound);
  }

  // ------------------------------------------------------------- a publication

  /** Scan, one page, and the file published. */
  function Publish(n: Node, items: seq<(Qid, Raw)>, etag: nat): Node {
    HubStep(HubStep(HubStep(n, ScanStart), ScanPage(items)), ScanFinish(etag))
  }

  lemma FileOfNow(db: Db, file: File)
    requires Valid(db) && db.log != [] && FileOk(db, file) && file.position == Last(db.log)
    ensures Full(file.lines) == db.entities
  {
    var h := History(db);
    assert h[|h| - 1] == db.log[|db.log| - 1];
    AfterNothing(h, Last(db.log));
    assert Since(db, file.position) == [];
  }

  lemma ScansAll(n: Node, items: seq<(Qid, Raw)>, etag: nat)
    requires n.scan.None? && n.db.log != [] && etag !in n.files && AreCurrent(n.db.entities, items)
    requires forall q :: q in n.db.entities ==> Returned(items, q)
    ensures var s := Scan(Last(n.db.log), items, n.db.entities.Keys);
            Publish(n, items, etag) == n.(files := n.files[etag := ScannedFile(s)], current := Some(etag))
  {
    assert [] + items == items;
  }

  /** A scan that nothing interleaves with is published: the file is the one served from then on, its
      position is the end of the changelog, still covered, and it carries exactly the entities of the
      store. */
  lemma PublishesAll(n: Node, items: seq<(Qid, Raw)>, etag: nat, p: Node)
    requires NodeOk(n) && n.scan.None? && n.db.log != [] && etag !in n.files && AreCurrent(n.db.entities, items)
    requires (forall q :: q in n.db.entities ==> Returned(items, q)) && p == Publish(n, items, etag)
    ensures NodeOk(p) && p.db == n.db && p.current == Some(etag) && etag in p.files
    ensures p.files[etag].position == Last(n.db.log) && Covered(p.db.log, p.files[etag].position)
    ensures Full(p.files[etag].lines) == n.db.entities
  {
    HubScanOk(n, ScanStart, true);
    HubScanOk(HubStep(n, ScanStart), ScanPage(items), true);
    HubScanOk(HubStep(HubStep(n, ScanStart), ScanPage(items)), ScanFinish(etag), true);
    ScansAll(n, items, etag);
    LastCovered(n.db);
    FileOfNow(p.db, p.files[etag]);
  }

  // ------------------------------------------------------------- to the end

  /** A replica without a cursor, in any idle state and whatever earlier attempts left in its store,
      below a sound upstream that serves a snapshot: one download and one stream connection that
      nothing disturbs give it the entities of its upstream, and if its own store was sound the index
      too, iff the download meets the condition of Completes and the text served for the entries
      after the snapshot passes the client's scanner. */
  lemma Converges(up: Node, me: Node, etag: nat, now: nat) returns (n: nat)
    requires NodeOk(up) && NodeTidy(me) && LinkOk(up, me, true) && CanDownload(up, me, etag)
    ensures var d, file := Drive(up, Begun(up, me), n, now), up.files[etag];
            var rest := After(up.db.log, file.position);
            var end := Follow(up, Begun(up, d), |rest|, now);
            && d.client == IDLE
            && (!Completes(file, ViewOf(me.db), etag) ==> d.db.meta.last.None?)
            && (Completes(file, ViewOf(me.db), etag) ==>
                  if Wire.Arrived(Wire.EventChunks(rest)).tooLong then end.client == IDLE && !AtEnd(up, end)
                  else end.db.entities == up.db.entities && (NodeOk(me) ==> SameStore(up, end)))
  {
    var file, sound := up.files[etag], NodeOk(me);
    assert BothOk(up, me, sound);
    n := DownloadCompletesIff(up, me, etag, now);
    BeginKeeps(up, me, etag, sound);
    DriveKeeps(up, Begun(up, me), etag, n, now, sound);
    var d := Drive(up, Begun(up, me), n, now);
    var end := Follow(up, Begun(up, d), |After(up.db.log, file.position)|, now);
    if Completes(file, ViewOf(me.db), etag) {
      assert NodeTidy(d) && LinkOk(up, d, true) && (sound ==> NodeOk(d));
      CoveredCatchesUpIff(up, d, now, file.position, end);
    }
  }
}
