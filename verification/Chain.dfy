/** Primary, replicas and their replicas as one machine of single steps. `Step` performs any
    one step of any node; a step that is not possible changes nothing, so every list of
    steps is a run. `Orderly` is what the theorems ask of a run, and `Soundness` says which
    nodes have a valid store after it. */
module Chain {
  import opened Text
  import opened Mappings
  import opened EntityMaps
  import opened ReverseIndex
  import opened Store
  import opened Stream
  import opened Snapshot
  import opened Replica
  import opened Link
  import Wire

  /** A store with its snapshot publisher (every file ever published, the current one, the
      scan in progress) and, when it is a replica, its client. */
  datatype Node = Node(db: Db, files: Files, current: Option<nat>, scan: Option<Scan>, client: Client)

  const NEW_NODE := Node(EMPTY, map[], None, None, IDLE)

  function WithDb(n: Node, db: Db): Node {
    n.(db := db, scan := match n.scan { case None => None case Some(s) => Some(Shrink(s, db.entities)) })
  }

  // ------------------------------------------------------------- client steps

  datatype ClientMove =
    | Begin(seeding: bool)
    | Serve(count: nat)
    | CloseStream
    | Proceed
    | Exec(now: nat)
    | Fail
    | Cut(chars: nat)
    | Crash

  /** Run's next action on an idle client: fetch without a cursor, stream with one. */
  function BeginClient(up: Node, me: Node, seeding: bool): Client {
    var meta := me.db.meta;
    if meta.last.Some? then
      if Covered(up.db.log, meta.last.value) then Client(Streaming([], meta.last.value, true), [], true)
      else if seeding then IDLE
      else Client(Resetting, [FlushAll, SetOther], true)
    else if up.current.None? || up.current.value !in up.files then IDLE
    else if !Covered(up.db.log, up.files[up.current.value].position) then IDLE
    else
      var etag := up.current.value;
      if meta.etag == Some(etag) && HasOffset(ViewOf(me.db)) && meta.applied.Some? then
        Resumed(etag, FindCheckpoint(up.files[etag].lines, meta.offset.value), meta.offset.value, meta.applied.value)
      else Client(Starting(etag), [FlushAll, SetOther], true)
  }

  /** The client goes on after its pending pipeline; an event with a line that does not fit
      the scanner ends the connection. */
  function Continue(up: Node, c: Client, fits: bool): Client {
    match c.mode
    case Idle => c
    case Starting(etag) => Fresh(etag)
    case Fetching(etag, _, _, _, _, _, _, _) => if etag in up.files then FetchLine(up.files[etag], c.mode) else IDLE
    case Streaming(inflight, _, open) =>
      if inflight != [] then
        if fits then c.(queue := [Write(inflight[0].change), SetLast(inflight[0].id)]) else IDLE
      else if open then c else IDLE
    case Resetting => IDLE
    case Stopping => IDLE
  }

  predicate NextEventFits(c: Client) {
    c.mode.Streaming? && c.mode.inflight != [] && Wire.EventFits(c.mode.inflight[0])
  }

  function ProceedClient(up: Node, c: Client): Client { Continue(up, c, NextEventFits(c)) }

  /** One read of the server's loop. */
  function ServeClient(db: Db, c: Client, count: nat): Client
    requires c.mode.Streaming?
  {
    var events := Read(db.log, c.mode.cursor, Min(STREAM_READ_COUNT, count));
    c.(mode := c.mode.(inflight := c.mode.inflight + events, cursor := LastOr(events, c.mode.cursor)))
  }

  /** One command of the queue is done; a stream event is finished with its last command. */
  function Executed(c: Client): Client
    requires c.queue != []
  {
    var next := c.(queue := c.queue[1..]);
    if c.mode.Streaming? && next.queue == [] && c.mode.inflight != [] then
      next.(mode := c.mode.(inflight := c.mode.inflight[1..]))
    else next
  }

  /** A command is answered with an error: the rest of its pipeline runs, and then the attempt
      is over. */
  function Refused(c: Client): Client
    requires c.queue != []
  {
    Client(Stopping, c.queue[1..], true)
  }

  /** What was received of the payload of an event when the connection broke off: nothing the
      client takes for a change, or a change under the id of the event. */
  function PayloadLeft(e: LogEntry, chars: nat): Option<Change> {
    var payload := Wire.Payload(e.change);
    if chars >= |payload| || ByteSize("data: " + payload[..chars]) >= Wire.STREAM_LINE_LIMIT then None
    else
      match Wire.ParseData(payload[..chars])
      case None => None
      case Some((q, raw)) => Some(Change(q, if raw == "" then None else Some(raw)))
  }

  /** The stream breaks off within the next event. */
  function CutStream(inflight: seq<LogEntry>, chars: nat): Client {
    if inflight == [] then IDLE
    else
      match PayloadLeft(inflight[0], chars)
      case None => IDLE
      case Some(c) => Client(Stopping, [Write(c), SetLast(inflight[0].id)], true)
  }

  /** The client after a step that executes nothing. */
  function ClientAfter(up: Node, me: Node, mv: ClientMove): Client {
    var c := me.client;
    match mv
    case Begin(seeding) => if c.mode.Idle? then BeginClient(up, me, seeding) else c
    case Serve(count) => if c.mode.Streaming? && c.mode.open then ServeClient(up.db, c, count) else c
    case CloseStream => if c.mode.Streaming? then c.(mode := c.mode.(open := false)) else c
    case Proceed => if c.queue == [] then ProceedClient(up, c) else c
    case Exec(now) => c
    case Fail => if c.queue == [] then c else if c.must then IDLE else c.(queue := [])
    case Cut(chars) =>
      if c.queue != [] then c
      else if c.mode.Fetching? && !c.mode.final && !c.mode.cut then
        if c.mode.etag in up.files then CutFetch(up.files[c.mode.etag], c.mode, chars) else IDLE
      else if c.mode.Streaming? then CutStream(c.mode.inflight, chars)
      else c
    case Crash => IDLE
  }

  /** One command of the pending pipeline. */
  function ExecStep(me: Node, now: nat): Node
    requires me.client.queue != []
  {
    var cmd := me.client.queue[0];
    var client := if me.client.must && Fails(me.db.entities, cmd) then Refused(me.client) else Executed(me.client);
    WithDb(me, Apply(me.db, cmd, now)).(client := client)
  }

  function ClientStep(up: Node, me: Node, mv: ClientMove): Node {
    if mv.Exec? && me.client.queue != [] then ExecStep(me, mv.now) else me.(client := ClientAfter(up, me, mv))
  }

  // --------------------------------------------------------------- all steps

  datatype Move =
    | LocalWrite(qid: Qid, mappings: Option<seq<Entry>>, now: nat)
    | LocalFlush
    | TrimHead(minId: nat, limit: nat)
    | ScanStart
    | ScanPage(items: seq<(Qid, Raw)>)
    | ScanFinish(etag: nat)
    | ScanAbort
    | ClientDoes(move: ClientMove)

  /** A write of the primary: the entries as canonical text. */
  function WriteOf(q: Qid, mappings: Option<seq<Entry>>): (c: Change)
    ensures Decodable(c)
  {
    Change(q, match mappings { case None => None case Some(es) => Some(Canonical(es)) })
  }

  predicate AreCurrent(entities: EntityMap, items: seq<(Qid, Raw)>) {
    forall i :: 0 <= i < |items| ==> Get(entities, items[i].0) == Some(items[i].1)
  }

  predicate Returned(items: seq<(Qid, Raw)>, q: Qid) {
    exists i :: 0 <= i < |items| && items[i].0 == q
  }

  /** The scan contract: everything present all along has been returned. */
  predicate Complete(s: Scan) {
    forall q :: q in s.stable ==> Returned(s.items, q)
  }

  function ScannedFile(s: Scan): File { File(s.position, FileOf(s.items, s.position).lines) }

  /** The steps of a publisher and of local maintenance. */
  function HubStep(n: Node, mv: Move): Node {
    match mv
    case LocalWrite(q, mappings, now) => WithDb(n, Apply(n.db, Write(WriteOf(q, mappings)), now))
    case LocalFlush => WithDb(n, Flush(n.db))
    case TrimHead(minId, limit) => WithDb(n, Trim(n.db, minId, limit))
    case ScanStart =>
      if n.db.log != [] && n.scan.None? then n.(scan := Some(Scan(Last(n.db.log), [], n.db.entities.Keys))) else n
    case ScanPage(items) =>
      if n.scan.Some? && AreCurrent(n.db.entities, items)
      then n.(scan := Some(n.scan.value.(items := n.scan.value.items + items))) else n
    case ScanFinish(etag) =>
      if n.scan.Some? && Complete(n.scan.value) && etag !in n.files then
        n.(files := n.files[etag := ScannedFile(n.scan.value)], current := Some(etag), scan := None)
      else n
    case ScanAbort => n.(scan := None)
    case ClientDoes(_) => n
  }

  /** Node 0 is the primary and takes the external writes; the others are replicas. */
  function NodeStep(chain: seq<Node>, i: nat, mv: Move): Node
    requires i < |chain|
  {
    if mv.ClientDoes? then if i > 0 then ClientStep(chain[i - 1], chain[i], mv.move) else chain[i]
    else if i > 0 && (mv.LocalWrite? || mv.LocalFlush?) then chain[i]
    else HubStep(chain[i], mv)
  }

  function Step(chain: seq<Node>, i: nat, mv: Move): seq<Node> {
    if i >= |chain| then chain else chain[i := NodeStep(chain, i, mv)]
  }

  function Run(chain: seq<Node>, moves: seq<(nat, Move)>): (r: seq<Node>)
    ensures |r| == |chain|
  {
    if moves == [] then chain
    else
      var n := |moves| - 1;
      Step(Run(chain, moves[..n]), moves[n].0, moves[n].1)
  }

  /** The hypothesis on lost streams: of an event that still counts, nothing is left that is
      taken for a change. */
  predicate CleanStream(up: Node, c: Client, mv: ClientMove) {
    mv.Cut? && c.queue == [] && c.mode.Streaming? && c.mode.inflight != [] &&
    c.mode.inflight[0].id > up.db.floor ==>
      PayloadLeft(c.mode.inflight[0], mv.chars).None?
  }

  /** What the theorems ask of one step: no flush and no trim past its cursor under an open
      stream, and no stream cut that leaves something to be taken for a change. */
  predicate Orderly(chain: seq<Node>, i: nat, mv: Move) {
    i < |chain| ==>
      && (i + 1 < |chain| ==> Undisturbs(chain[i].db, NodeStep(chain, i, mv).db, chain[i + 1].client))
      && (i > 0 && mv.ClientDoes? ==> CleanStream(chain[i - 1], chain[i].client, mv.move))
  }

  predicate OrderlyRun(chain: seq<Node>, moves: seq<(nat, Move)>) {
    moves == [] ||
    (var n := |moves| - 1;
     OrderlyRun(chain, moves[..n]) && Orderly(Run(chain, moves[..n]), moves[n].0, moves[n].1))
  }

  function NewChain(n: nat): seq<Node> { seq(n, _ => NEW_NODE) }

  // --------------------------------------------------------------- soundness

  /** A node is sound as long as it has written only values that decode since its last flush. */
  predicate StaysSound(n: Node, mv: Move, was: bool) {
    if mv.ClientDoes? && mv.move.Exec? && n.client.queue != [] then
      n.client.queue[0].FlushAll? || (was && Sane(n.client.queue[0]))
    else was
  }

  function SoundStep(chain: seq<Node>, sound: seq<bool>, i: nat, mv: Move): (r: seq<bool>)
    requires |sound| == |chain|
    ensures |r| == |chain|
  {
    if 0 < i < |chain| then sound[i := StaysSound(chain[i], mv, sound[i])] else sound
  }

  /** Which nodes are sound after a run. */
  function Soundness(chain: seq<Node>, moves: seq<(nat, Move)>): (r: seq<bool>)
    ensures |r| == |chain|
  {
    if moves == [] then seq(|chain|, _ => true)
    else
      var n := |moves| - 1;
      SoundStep(Run(chain, moves[..n]), Soundness(chain, moves[..n]), moves[n].0, moves[n].1)
  }

  // --------------------------------------------------------------- invariant

  /** What holds of every node, whatever it took for a value. */
  predicate NodeTidy(n: Node) {
    && Tidy(n.db)
    && (forall t :: t in n.files ==> FileTidy(n.db, n.files[t]))
    && (n.scan.Some? ==> ScanTidy(n.db, n.scan.value))
  }

  /** A sound node: its store is valid, what it publishes converges. */
  ghost predicate NodeOk(n: Node) {
    && NodeTidy(n) && Valid(n.db)
    && (forall t :: t in n.files ==> FileOk(n.db, n.files[t]))
    && (n.scan.Some? ==> ScanOk(n.db, n.scan.value))
  }

  /** The two commands of a flush, and the empty store they leave. */
  predicate ClearQueue(v: View, queue: seq<Cmd>) {
    queue == [FlushAll, SetOther] || ((queue == [SetOther] || queue == []) && v == View(map[], NO_META))
  }

  /** What is stored downstream is safe: a checkpoint always, a cursor if the upstream is sound. */
  predicate StoredOk(up: Node, v: View, sound: bool) {
    && CursorTidy(up.db, v) && ResumeOk(up.files, v)
    && (sound ==> CursorOk(up.db, v) && Readable(up.db, v))
  }

  /** Safe before each command of the queue, and after the last. */
  predicate QueueSafe(up: Node, v: View, queue: seq<Cmd>, sound: bool)
    decreases |queue|
  {
    StoredOk(up, v, sound) && (queue == [] || QueueSafe(up, ApplyView(v, queue[0]), queue[1..], sound))
  }

  predicate ClientOk(up: Node, v: View, c: Client, sound: bool) {
    PlainClient(c) &&
    match c.mode
    case Idle => c.queue == []
    case Starting(etag) => etag in up.files && c.must && ClearQueue(v, c.queue) && v.meta.last.None?
    case Fetching(etag, _, _, _, _, _, _, _) => etag in up.files && FetchOk(up.files[etag], v, c)
    case Streaming(_, _, _) => StreamTidy(up.db, v, c) && (sound ==> StreamOk(up.db, v, c))
    case Resetting => c.must && ClearQueue(v, c.queue)
    case Stopping => c.must && QueueSafe(up, v, c.queue, sound)
  }

  /** What holds between neighbours, with the soundness of the upper one. Nothing is asked of the
      validity of the lower one. */
  predicate LinkOk(up: Node, me: Node, sound: bool) {
    StoredOk(up, ViewOf(me.db), sound) && ClientOk(up, ViewOf(me.db), me.client, sound)
  }

  ghost predicate ChainOk(chain: seq<Node>, sound: seq<bool>)
    requires |sound| == |chain|
  {
    && (forall i :: 0 <= i < |chain| ==> NodeTidy(chain[i]) && (sound[i] ==> NodeOk(chain[i])))
    && (forall i :: 0 < i < |chain| ==> LinkOk(chain[i - 1], chain[i], sound[i - 1]))
  }

  // ------------------------------------------------------------ own node

  lemma WithDbTidy(n: Node, db: Db)
    requires NodeTidy(n) && Tidy(db) && Later(n.db, db)
    ensures NodeTidy(WithDb(n, db))
  {
  }

  lemma WithDbOk(n: Node, db: Db)
    requires NodeOk(n) && Valid(db) && Evolves(n.db, db)
    ensures NodeOk(WithDb(n, db))
  {
    ValidIsTidy(db);
    EvolvesLater(n.db, db);
    WithDbTidy(n, db);
    forall t | t in n.files ensures FileOk(db, n.files[t]) {
      FileKept(n.db, db, n.files[t]);
    }
    if n.scan.Some? { ScanKept(n.db, db, n.scan.value); }
  }

  lemma EvolvesLater(a: Db, b: Db)
    requires Ordered(a) && Ordered(b) && Evolves(a, b)
    ensures Later(a, b)
  {
  }

  /** A flush makes any node sound: an empty store is valid, and everything published or scanned
      before lies below the new floor. */
  lemma FlushRestores(n: Node, now: nat)
    requires NodeTidy(n)
    ensures Wiped(n.db, Apply(n.db, FlushAll, now)) && NodeOk(WithDb(n, Apply(n.db, FlushAll, now)))
  {
    EmptyAgrees();
    WithDbTidy(n, Flush(n.db));
  }

  lemma ScanStartOk(n: Node)
    requires NodeTidy(n) && n.db.log != [] && n.scan.None?
    ensures NodeTidy(HubStep(n, ScanStart)) && (NodeOk(n) ==> NodeOk(HubStep(n, ScanStart)))
  {
    var s, h := Scan(Last(n.db.log), [], n.db.entities.Keys), History(n.db);
    assert h[|h| - 1] == n.db.log[|n.db.log| - 1];
    forall q: Qid ensures Settled(n.db.entities, s, q) {}
  }

  lemma PageSettles(entities: EntityMap, s: Scan, items: seq<(Qid, Raw)>, q: Qid)
    requires Settled(entities, s, q) && AreCurrent(entities, items)
    ensures Settled(entities, s.(items := s.items + items), q)
  {
    var all := s.items + items;
    forall i | 0 <= i < |all| && all[i].0 == q ensures Get(entities, q) == Some(all[i].1) {
      if i < |s.items| { assert all[i] == s.items[i]; } else { assert all[i] == items[i - |s.items|]; }
    }
  }

  lemma PageGood(entities: EntityMap, s: Scan, items: seq<(Qid, Raw)>)
    requires AllDecode(entities) && ItemsGood(s.items) && AreCurrent(entities, items)
    ensures ItemsGood(s.items + items)
  {
    forall i | 0 <= i < |items| ensures Decodes(items[i].1) {
      assert Get(entities, items[i].0) == Some(items[i].1);
    }
  }

  lemma PageOk(db: Db, s: Scan, items: seq<(Qid, Raw)>)
    requires ScanOk(db, s) && AreCurrent(db.entities, items) && AllDecode(db.entities)
    ensures ScanOk(db, s.(items := s.items + items))
  {
    if s.position > db.floor {
      PageGood(db.entities, s, items);
      forall q: Qid ensures Writes(Since(db, s.position), q) || Settled(db.entities, s.(items := s.items + items), q) {
        if !Writes(Since(db, s.position), q) { PageSettles(db.entities, s, items, q); }
      }
    }
  }

  lemma PageTidy(db: Db, s: Scan, items: seq<(Qid, Raw)>)
    requires ScanTidy(db, s) && AreCurrent(db.entities, items) && PlainMap(db.entities)
    ensures ScanTidy(db, s.(items := s.items + items))
  {
    var all := s.items + items;
    forall i | 0 <= i < |all| ensures Plain(all[i].1) {
      if i < |s.items| {
        assert all[i] == s.items[i];
      } else {
        assert all[i] == items[i - |s.items|];
        assert Get(db.entities, all[i].0) == Some(all[i].1);
      }
    }
  }

  lemma ScanPageOk(n: Node, items: seq<(Qid, Raw)>)
    requires NodeTidy(n) && n.scan.Some? && AreCurrent(n.db.entities, items)
    ensures NodeTidy(HubStep(n, ScanPage(items))) && (NodeOk(n) ==> NodeOk(HubStep(n, ScanPage(items))))
  {
    PageTidy(n.db, n.scan.value, items);
    if NodeOk(n) { PageOk(n.db, n.scan.value, items); }
  }

  lemma {:induction false} PlainChanges(items: seq<(Qid, Raw)>)
    requires forall i :: 0 <= i < |items| ==> Plain(items[i].1)
    ensures AllPlain(AsChanges(items))
  {
    if items != [] { PlainChanges(items[..|items| - 1]); }
  }

  lemma PublishedTidy(db: Db, s: Scan)
    requires ScanTidy(db, s)
    ensures FileTidy(db, ScannedFile(s)) && Records(ScannedFile(s).lines) == AsChanges(s.items)
  {
    PlainChanges(s.items);
    FileOfOk(s.items, s.position);
  }

  lemma PublishedOk(db: Db, s: Scan)
    requires Valid(db) && ScanTidy(db, s) && ScanOk(db, s) && Complete(s)
    ensures FileOk(db, ScannedFile(s))
  {
    PublishedTidy(db, s);
    if s.position > db.floor {
      GoodChanges(s.items);
      forall q | q in s.stable ensures exists i :: 0 <= i < |s.items| && s.items[i].0 == q {
        assert Returned(s.items, q);
      }
      ScanConverges(db, s);
    }
  }

  lemma ScanFinishOk(n: Node, etag: nat)
    requires NodeTidy(n)
    ensures var next := HubStep(n, ScanFinish(etag));
            NodeTidy(next) && (NodeOk(n) ==> NodeOk(next)) && MoreFiles(n.files, next.files)
  {
    hide FileTidy, FileOk, Valid, Tidy, ScannedFile;
    if n.scan.Some? && Complete(n.scan.value) && etag !in n.files {
      PublishedTidy(n.db, n.scan.value);
      if NodeOk(n) { PublishedOk(n.db, n.scan.value); }
    }
  }

  predicate MoreFiles(a: Files, b: Files) {
    forall t :: t in a ==> t in b && b[t] == a[t]
  }

  /** What a step of a node leaves to its neighbours. */
  ghost predicate Passes(n: Node, next: Node, sound: bool) {
    && NodeTidy(next) && Later(n.db, next.db) && MoreFiles(n.files, next.files)
    && (sound ==> NodeOk(next) && Evolves(n.db, next.db))
  }

  lemma HubDbOk(n: Node, db: Db, sound: bool)
    requires NodeTidy(n) && Tidy(db) && Later(n.db, db)
    requires sound ==> NodeOk(n) && Valid(db) && Evolves(n.db, db)
    ensures Passes(n, WithDb(n, db), sound)
  {
    WithDbTidy(n, db);
    if sound { WithDbOk(n, db); }
  }

  lemma HubScanOk(n: Node, mv: Move, sound: bool)
    requires NodeTidy(n) && (sound ==> NodeOk(n))
    requires mv.ScanStart? || mv.ScanPage? || mv.ScanFinish? || mv.ScanAbort?
    ensures Passes(n, HubStep(n, mv), sound)
  {
    if mv.ScanFinish? { ScanFinishOk(n, mv.etag); }
    if mv.ScanStart? && n.db.log != [] && n.scan.None? { ScanStartOk(n); }
    if mv.ScanPage? && n.scan.Some? && AreCurrent(n.db.entities, mv.items) { ScanPageOk(n, mv.items); }
  }

  lemma LocalWriteOk(n: Node, c: Change, now: nat, sound: bool)
    requires NodeTidy(n) && (sound ==> NodeOk(n)) && Decodable(c)
    ensures Passes(n, WithDb(n, Apply(n.db, Write(c), now)), sound)
  {
    DecodableIsPlain(c);
    ApplyTidy(n.db, Write(c), now);
    if sound {
      WriteValid(n.db, c, now);
      WriteEvolves(n.db, c, now);
    }
    HubDbOk(n, Apply(n.db, Write(c), now), sound);
  }

  lemma TrimOk(n: Node, minId: nat, limit: nat, sound: bool)
    requires NodeTidy(n) && (sound ==> NodeOk(n))
    ensures Passes(n, WithDb(n, Trim(n.db, minId, limit)), sound)
  {
    TrimTidy(n.db, minId, limit);
    if sound {
      TrimValid(n.db, minId, limit);
      TrimEvolves(n.db, minId, limit);
    }
    HubDbOk(n, Trim(n.db, minId, limit), sound);
  }

  lemma HubStepOk(n: Node, mv: Move, sound: bool)
    requires NodeTidy(n) && (sound ==> NodeOk(n))
    ensures Passes(n, HubStep(n, mv), sound)
  {
    match mv
    case LocalWrite(q, mappings, now) => LocalWriteOk(n, WriteOf(q, mappings), now, sound);
    case LocalFlush => FlushRestores(n, 0);
    case TrimHead(minId, limit) => TrimOk(n, minId, limit, sound);
    case ClientDoes(_) =>
    case _ => HubScanOk(n, mv, sound);
  }

  // ------------------------------------------------------- upstream changes

  /** What makes the links below an upstream safe after its step: it was sound and evolves, or it
      is flushed. */
  ghost predicate Trusted(up: Node, next: Node, sound: bool) {
    (sound && NodeOk(up) && Evolves(up.db, next.db)) || Wiped(up.db, next.db)
  }

  lemma StoredKept(up: Node, next: Node, v: View, sound: bool, after: bool)
    requires Ordered(up.db) && StoredOk(up, v, sound) && Later(up.db, next.db) && MoreFiles(up.files, next.files)
    requires after ==> Trusted(up, next, sound)
    ensures StoredOk(next, v, after)
  {
    if after {
      if Wiped(up.db, next.db) { CursorFlushed(up.db, next.db, v); } else { CursorKept(up.db, next.db, v); }
    }
  }

  lemma {:induction false} QueueKept(up: Node, next: Node, v: View, queue: seq<Cmd>, sound: bool, after: bool)
    requires Ordered(up.db) && QueueSafe(up, v, queue, sound)
    requires Later(up.db, next.db) && MoreFiles(up.files, next.files)
    requires after ==> Trusted(up, next, sound)
    ensures QueueSafe(next, v, queue, after)
    decreases |queue|
  {
    StoredKept(up, next, v, sound, after);
    if queue != [] { QueueKept(up, next, ApplyView(v, queue[0]), queue[1..], sound, after); }
  }

  lemma StreamStays(a: Node, b: Node, v: View, c: Client, sound: bool, after: bool)
    requires Ordered(a.db) && StoredOk(a, v, sound) && c.mode.Streaming? && ClientOk(a, v, c, sound)
    requires Later(a.db, b.db) && Undisturbs(a.db, b.db, c) && (after ==> Trusted(a, b, sound))
    ensures ClientOk(b, v, c, after)
  {
    StreamTidyKept(a.db, b.db, v, c);
    if after {
      if Wiped(a.db, b.db) { StreamFlushed(a.db, b.db, v, c); } else { StreamKept(a.db, b.db, v, c); }
    }
  }

  /** Every undisturbing step of the upstream keeps the link, as sound as the upstream is after
      it; a flush of the upstream makes any link below it safe. */
  lemma UpstreamKeepsLink(up: Node, next: Node, me: Node, sound: bool, after: bool)
    requires NodeTidy(up) && LinkOk(up, me, sound)
    requires Later(up.db, next.db) && MoreFiles(up.files, next.files) && Undisturbs(up.db, next.db, me.client)
    requires after ==> Trusted(up, next, sound)
    ensures LinkOk(next, me, after)
  {
    var v, c := ViewOf(me.db), me.client;
    StoredKept(up, next, v, sound, after);
    if c.mode.Streaming? { StreamStays(up, next, v, c, sound, after); }
    if c.mode.Stopping? { QueueKept(up, next, v, c.queue, sound, after); }
  }

  // ---------------------------------------------------------- client changes

  lemma BeginOk(up: Node, me: Node, seeding: bool, sound: bool)
    requires NodeTidy(up) && LinkOk(up, me, sound) && me.client.mode.Idle?
    ensures ClientOk(up, ViewOf(me.db), BeginClient(up, me, seeding), sound)
  {
    var v, meta := ViewOf(me.db), me.db.meta;
    if meta.last.Some? {
      if Covered(up.db.log, meta.last.value) { ConnectOk(up.db, v); }
    } else if up.current.Some? && up.current.value in up.files {
      if meta.etag == Some(up.current.value) && HasOffset(v) && meta.applied.Some? {
        ResumeBegins(up, v, up.current.value, meta.applied.value, sound);
      }
    }
  }

  lemma ResumeBegins(up: Node, v: View, etag: nat, base: int, sound: bool)
    requires NodeTidy(up) && etag in up.files && ResumeOk(up.files, v)
    requires v.meta.last.None? && v.meta.etag == Some(etag) && HasOffset(v) && v.meta.applied == Some(base)
    ensures var at := FindCheckpoint(up.files[etag].lines, v.meta.offset.value);
            ClientOk(up, v, Resumed(etag, at, v.meta.offset.value, base), sound)
  {
    assert FileTidy(up.db, up.files[etag]);
    ResumedOk(etag, up.files[etag], v, base);
  }

  lemma ConnectOk(db: Db, v: View)
    requires Ordered(db) && CursorTidy(db, v) && v.meta.last.Some? && Covered(db.log, v.meta.last.value)
    ensures var c := Client(Streaming([], v.meta.last.value, true), [], true);
            StreamTidy(db, v, c) && StreamOk(db, v, c)
  {
    var last := v.meta.last.value;
    CoverageSound(db, last);
    assert [] + After(History(db), last) == After(History(db), last);
    CoverageTrimmed(db, last);
  }

  lemma CoverageTrimmed(db: Db, cursor: nat)
    requires Ordered(db) && Covered(db.log, cursor)
    ensures After(db.removed, cursor) == []
  {
    IncreasingParts(db.removed, db.log);
    AfterNothing(db.removed, cursor);
  }

  lemma ReadIsPrefix(log: seq<LogEntry>, cursor: nat, count: nat)
    ensures Read(log, cursor, count) <= After(log, cursor)
  {
  }

  lemma ReadSplits(db: Db, cursor: nat, events: seq<LogEntry>)
    requires Ordered(db) && events <= After(History(db), cursor)
    ensures After(History(db), cursor) == events + After(History(db), LastOr(events, cursor))
  {
    if events != [] {
      AfterAdvance(History(db), cursor, events, After(History(db), cursor)[|events|..]);
    }
  }

  /** One server read moves a contiguous run of entries into flight. */
  lemma ServedAligned(db: Db, last: nat, inflight: seq<LogEntry>, cursor: nat, events: seq<LogEntry>)
    requires Ordered(db) && events <= After(History(db), cursor) && Aligned(db, last, inflight, cursor)
    ensures Aligned(db, last, inflight + events, LastOr(events, cursor))
  {
    var rest := After(History(db), LastOr(events, cursor));
    ReadSplits(db, cursor, events);
    assert inflight + (events + rest) == (inflight + events) + rest;
  }

  lemma ReadFromHistory(db: Db, cursor: nat, count: nat)
    requires Ordered(db) && After(db.removed, cursor) == []
    ensures Read(db.log, cursor, count) <= After(History(db), cursor)
    ensures cursor <= LastOr(Read(db.log, cursor, count), cursor)
    ensures After(db.removed, LastOr(Read(db.log, cursor, count), cursor)) == []
    ensures forall i :: 0 <= i < |Read(db.log, cursor, count)| ==> Read(db.log, cursor, count)[i].id <= db.clock
  {
    var events := Read(db.log, cursor, count);
    AfterSkips(db.removed, db.log, cursor);
    ReadIsPrefix(db.log, cursor, count);
    ReadIds(db, cursor, events);
    IncreasingParts(db.removed, db.log);
    CursorPastTrims(db.removed, cursor, LastOr(events, cursor));
  }

  lemma ServeTidy(db: Db, v: View, c: Client, count: nat)
    requires Tidy(db) && StreamTidy(db, v, c) && c.mode.open
    ensures StreamTidy(db, v, ServeClient(db, c, count))
  {
    var inflight, cursor := c.mode.inflight, c.mode.cursor;
    var events := Read(db.log, cursor, Min(STREAM_READ_COUNT, count));
    ReadFromHistory(db, cursor, Min(STREAM_READ_COUNT, count));
    QueueStays(inflight, events, c.queue);
    ReadDecodes(db, cursor, Min(STREAM_READ_COUNT, count));
  }

  lemma ServeOk(db: Db, v: View, c: Client, count: nat)
    requires Tidy(db) && StreamOk(db, v, c) && c.mode.open
    ensures StreamOk(db, v, ServeClient(db, c, count))
  {
    var inflight, cursor := c.mode.inflight, c.mode.cursor;
    var events := Read(db.log, cursor, Min(STREAM_READ_COUNT, count));
    ServeTidy(db, v, c, count);
    ReadFromHistory(db, cursor, Min(STREAM_READ_COUNT, count));
    ServedAligned(db, v.meta.last.value, inflight, cursor, events);
    if |c.queue| == 1 { ServedAbsorbed(db, v, inflight, events, cursor); }
  }

  lemma ReadDecodes(db: Db, cursor: nat, count: nat)
    requires LogDecodes(History(db))
    ensures LogDecodes(Read(db.log, cursor, count))
  {
    var events := Read(db.log, cursor, count);
    AfterIsSuffix(db.log, cursor);
    var n := |db.log| - |After(db.log, cursor)|;
    forall i | 0 <= i < |events| ensures Decodable(events[i].change) {
      assert events[i] == db.log[n + i] == History(db)[|db.removed| + n + i];
    }
  }

  lemma ReadIds(db: Db, cursor: nat, events: seq<LogEntry>)
    requires Ordered(db) && events <= After(History(db), cursor)
    ensures forall i :: 0 <= i < |events| ==> cursor < events[i].id <= db.clock
  {
    AfterMembers(History(db), cursor);
    forall i | 0 <= i < |events| ensures cursor < events[i].id <= db.clock {
      assert events[i] == After(History(db), cursor)[i];
      assert events[i] in After(History(db), cursor);
    }
  }

  lemma CursorPastTrims(removed: seq<LogEntry>, cursor: nat, later: nat)
    requires Increasing(removed) && After(removed, cursor) == [] && cursor <= later
    ensures After(removed, later) == []
  {
    AfterMembers(removed, cursor);
    forall i | 0 <= i < |removed| ensures removed[i].id <= later {
      assert removed[i] in removed && removed[i] !in After(removed, cursor);
    }
    AfterNothing(removed, later);
  }

  lemma QueueStays(inflight: seq<LogEntry>, events: seq<LogEntry>, queue: seq<Cmd>)
    requires StreamQueue(inflight, queue)
    ensures StreamQueue(inflight + events, queue)
  {
  }

  lemma TailRegroup<T>(a: seq<T>, b: seq<T>, c: seq<T>)
    requires a != []
    ensures (a + b)[1..] + c == a[1..] + (b + c)
  {
  }

  lemma ServedAbsorbed(db: Db, v: View, inflight: seq<LogEntry>, events: seq<LogEntry>, cursor: nat)
    requires Ordered(db) && inflight != [] && Absorbed(db, v, inflight, cursor)
    requires events <= After(History(db), cursor)
    ensures Absorbed(db, v, inflight + events, LastOr(events, cursor))
  {
    var rest := After(History(db), LastOr(events, cursor));
    ReadSplits(db, cursor, events);
    TailRegroup(inflight, events, rest);
  }

  /** Applying the first event in flight leaves the rest to replay. */
  lemma EventAbsorbed(db: Db, entities: EntityMap, inflight: seq<LogEntry>, cursor: nat)
    requires inflight != []
    requires Replay(entities, Changes(inflight + After(History(db), cursor))) == db.entities
    ensures db.entities ==
            Replay(ApplyChange(entities, inflight[0].change), Changes(inflight[1..] + After(History(db), cursor)))
  {
    var e, rest := inflight[0], inflight[1..] + After(History(db), cursor);
    assert inflight + After(History(db), cursor) == [e] + rest;
    ChangesCons(e, rest);
    ReplayCons(entities, e.change, Changes(rest));
  }

  /** Applying an event that is still to be replayed leaves a replica behind. */
  lemma EventBehind(db: Db, entities: EntityMap, last: nat, e: LogEntry, rest: seq<LogEntry>)
    requires After(History(db), last) == [e] + rest && Behind(db, last, entities)
    ensures Behind(db, last, ApplyChange(entities, e.change))
  {
    ChangesCons(e, rest);
    assert Since(db, last)[0] == e.change;
    assert Writes(Since(db, last), e.change.qid);
    ReplayAbsorbs(entities, e.change, Since(db, last));
  }

  lemma EventApplied(db: Db, v: View, inflight: seq<LogEntry>, cursor: nat)
    requires CursorOk(db, v) && v.meta.last.Some? && inflight != [] && Aligned(db, v.meta.last.value, inflight, cursor)
    ensures var w := ApplyView(v, Write(inflight[0].change));
            CursorOk(db, w) && Absorbed(db, w, inflight, cursor)
  {
    var e, rest := inflight[0], inflight[1..] + After(History(db), cursor);
    assert inflight + After(History(db), cursor) == [e] + rest;
    EventBehind(db, v.entities, v.meta.last.value, e, rest);
    EventAbsorbed(db, v.entities, inflight, cursor);
  }

  /** Executing the entity write of an event: the replica runs ahead of its cursor. */
  lemma ExecEventOk(db: Db, v: View, c: Client)
    requires CursorOk(db, v) && Readable(db, v) && StreamOk(db, v, c) && |c.queue| == 2
    ensures var w := ApplyView(v, c.queue[0]);
            CursorOk(db, w) && Readable(db, w) && StreamOk(db, w, Executed(c))
  {
    assert c.queue[1..] == [SetLast(c.mode.inflight[0].id)];
    assert Decodable(c.mode.inflight[0].change);
    if Aligned(db, v.meta.last.value, c.mode.inflight, c.mode.cursor) {
      EventApplied(db, v, c.mode.inflight, c.mode.cursor);
    }
  }

  lemma NextAligned(db: Db, last: nat, inflight: seq<LogEntry>, cursor: nat)
    requires Ordered(db) && inflight != [] && Aligned(db, last, inflight, cursor)
    ensures Aligned(db, inflight[0].id, inflight[1..], cursor) && last < inflight[0].id <= db.clock
  {
    var e, tail := inflight[0], inflight[1..] + After(History(db), cursor);
    assert inflight + After(History(db), cursor) == [e] + tail;
    AfterAdvance(History(db), last, [e], tail);
    assert [e] <= After(History(db), last);
    ReadIds(db, last, [e]);
  }

  /** After the cursor of the first event is stored, the rest stay aligned behind it. */
  lemma StoredAligned(db: Db, v: View, last: nat, inflight: seq<LogEntry>, cursor: nat)
    requires Ordered(db) && inflight != [] && Aligned(db, last, inflight, cursor) && Absorbed(db, v, inflight, cursor)
    ensures Aligned(db, inflight[0].id, inflight[1..], cursor) && last < inflight[0].id <= db.clock
    ensures Behind(db, inflight[0].id, v.entities)
  {
    NextAligned(db, last, inflight, cursor);
  }

  lemma OutdatedTail(db: Db, last: nat, inflight: seq<LogEntry>)
    requires inflight != [] && Outdated(db, last, inflight)
    ensures Outdated(db, inflight[0].id, inflight[1..])
  {
  }

  lemma StoredCursorOk(db: Db, v: View, c: Client)
    requires Ordered(db) && Readable(db, v) && StreamOk(db, v, c) && |c.queue| == 1
    ensures var e := c.mode.inflight[0];
            && e.id <= db.clock && Behind(db, e.id, v.entities) && (e.id > db.floor ==> AllDecode(v.entities))
            && (Aligned(db, e.id, c.mode.inflight[1..], c.mode.cursor)
                || (!c.mode.open && Outdated(db, e.id, c.mode.inflight[1..])))
  {
    var inflight, cursor, last := c.mode.inflight, c.mode.cursor, v.meta.last.value;
    if Aligned(db, last, inflight, cursor) {
      StoredAligned(db, v, last, inflight, cursor);
    } else {
      OutdatedTail(db, last, inflight);
    }
  }

  lemma FinishedEvent(c: Client)
    requires c.mode.Streaming? && c.mode.inflight != [] && |c.queue| == 1 && c.must
    ensures Executed(c) == Client(Streaming(c.mode.inflight[1..], c.mode.cursor, c.mode.open), [], true)
  {
  }

  /** The bookkeeping of a stream, whatever is stored. */
  lemma ExecStreamTidy(db: Db, v: View, c: Client)
    requires StreamTidy(db, v, c) && c.queue != []
    ensures StreamTidy(db, ApplyView(v, c.queue[0]), Executed(c))
    ensures CursorTidy(db, v) ==> CursorTidy(db, ApplyView(v, c.queue[0]))
  {
    if |c.queue| == 1 { FinishedEvent(c); } else { assert c.queue[1..] == [SetLast(c.mode.inflight[0].id)]; }
  }

  /** Storing the cursor of an event whose change is applied. */
  lemma ExecCursorOk(db: Db, v: View, c: Client)
    requires Ordered(db) && Readable(db, v) && StreamOk(db, v, c) && |c.queue| == 1
    ensures var w := ApplyView(v, c.queue[0]);
            CursorOk(db, w) && Readable(db, w) && StreamOk(db, w, Executed(c))
  {
    StoredCursorOk(db, v, c);
    ExecStreamTidy(db, v, c);
    FinishedEvent(c);
  }

  lemma ExecClearOk(v: View, queue: seq<Cmd>)
    requires queue != [] && ClearQueue(v, queue)
    ensures ClearQueue(ApplyView(v, queue[0]), queue[1..])
    ensures ApplyView(v, queue[0]) == View(map[], NO_META)
  {
    assert queue == [FlushAll, SetOther] ==> queue[1..] == [SetOther];
    assert queue == [SetOther] ==> queue[1..] == [];
  }

  /** A position is only stored with the map of the whole file. */
  lemma SteadyStored(up: Node, f: Mode, v: View, sound: bool)
    requires NodeTidy(up) && (sound ==> NodeOk(up)) && f.Fetching? && f.etag in up.files
    requires Steady(up.files[f.etag], f, v)
    ensures StoredOk(up, v, sound)
  {
    var file := up.files[f.etag];
    assert FileTidy(up.db, file);
    SteadyResumes(up.files, f, v);
    if sound && v.meta.last.Some? {
      assert FileOk(up.db, file);
      if file.position > up.db.floor { ReplayDecodes(map[], Records(file.lines)); }
    }
  }

  lemma {:induction false} SteadySafe(up: Node, f: Mode, v: View, queue: seq<Cmd>, sound: bool)
    requires NodeTidy(up) && (sound ==> NodeOk(up)) && f.Fetching? && f.etag in up.files
    requires QueueSteady(up.files[f.etag], f, v, queue)
    ensures QueueSafe(up, v, queue, sound)
    decreases |queue|
  {
    SteadyStored(up, f, v, sound);
    if queue != [] { SteadySafe(up, f, ApplyView(v, queue[0]), queue[1..], sound); }
  }

  lemma PlainTail(c: Client)
    requires PlainClient(c) && c.queue != []
    ensures PlainClient(Executed(c)) && PlainClient(Refused(c)) && PlainCmd(c.queue[0])
  {
  }

  lemma StoppingOk(up: Node, v: View, c: Client, sound: bool)
    requires c.mode.Stopping? && ClientOk(up, v, c, sound) && c.queue != []
    ensures var w := ApplyView(v, c.queue[0]);
            && StoredOk(up, w, sound) && PlainCmd(c.queue[0])
            && Executed(c) == Refused(c) && ClientOk(up, w, Executed(c), sound)
  {
    var w := ApplyView(v, c.queue[0]);
    PlainTail(c);
    assert QueueSafe(up, w, c.queue[1..], sound);
  }

  lemma ClearingOk(up: Node, v: View, c: Client, sound: bool)
    requires c.mode.Starting? || c.mode.Resetting?
    requires ClientOk(up, v, c, sound) && c.queue != []
    ensures var w := ApplyView(v, c.queue[0]);
            StoredOk(up, w, sound) && ClientOk(up, w, Executed(c), sound) && !c.queue[0].Write?
  {
    PlainTail(c);
    ExecClearOk(v, c.queue);
  }

  lemma FetchingOk(up: Node, v: View, c: Client, sound: bool)
    requires NodeTidy(up) && (sound ==> NodeOk(up)) && c.mode.Fetching? && ClientOk(up, v, c, sound) && c.queue != []
    ensures var w := ApplyView(v, c.queue[0]);
            StoredOk(up, w, sound) && ClientOk(up, w, Executed(c), sound)
  {
    PlainTail(c);
    ExecOk(up.files[c.mode.etag], v, c);
    SteadyStored(up, c.mode, ApplyView(v, c.queue[0]), sound);
  }

  lemma StreamingOk(up: Node, v: View, c: Client, sound: bool)
    requires NodeTidy(up) && StoredOk(up, v, sound)
    requires c.mode.Streaming? && ClientOk(up, v, c, sound) && c.queue != []
    ensures var w := ApplyView(v, c.queue[0]);
            StoredOk(up, w, sound) && ClientOk(up, w, Executed(c), sound)
  {
    PlainTail(c);
    ExecStreamTidy(up.db, v, c);
    if sound {
      if |c.queue| == 2 { ExecEventOk(up.db, v, c); } else { ExecCursorOk(up.db, v, c); }
    }
  }

  /** One executed command, whatever the client is doing. */
  lemma ExecutedOk(up: Node, v: View, c: Client, sound: bool)
    requires NodeTidy(up) && (sound ==> NodeOk(up))
    requires StoredOk(up, v, sound) && ClientOk(up, v, c, sound) && c.queue != []
    ensures var w := ApplyView(v, c.queue[0]);
            StoredOk(up, w, sound) && ClientOk(up, w, Executed(c), sound)
  {
    match c.mode
    case Idle =>
    case Starting(_) => ClearingOk(up, v, c, sound);
    case Resetting => ClearingOk(up, v, c, sound);
    case Fetching(_, _, _, _, _, _, _, _) => FetchingOk(up, v, c, sound);
    case Streaming(_, _, _) => StreamingOk(up, v, c, sound);
    case Stopping => StoppingOk(up, v, c, sound);
  }

  /** A refused write of an event: unless the event is outdated, the upstream is not sound. */
  lemma RefusedEvent(up: Node, v: View, c: Client, sound: bool)
    requires NodeTidy(up) && StoredOk(up, v, sound) && c.mode.Streaming? && ClientOk(up, v, c, sound)
    requires c.queue != [] && Fails(v.entities, c.queue[0])
    ensures QueueSafe(up, ApplyView(v, c.queue[0]), c.queue[1..], sound)
  {
    var e, w := c.mode.inflight[0], ApplyView(v, c.queue[0]);
    assert c.queue[1..] == [SetLast(e.id)] && c.queue[1..][1..] == [];
    if sound {
      assert Decodable(e.change);
      assert Outdated(up.db, v.meta.last.value, c.mode.inflight);
    }
    assert QueueSafe(up, ApplyView(w, SetLast(e.id)), [], sound);
  }

  lemma RefusedFetchOk(up: Node, v: View, c: Client, sound: bool)
    requires NodeTidy(up) && (sound ==> NodeOk(up)) && c.mode.Fetching? && ClientOk(up, v, c, sound) && c.queue != []
    ensures QueueSafe(up, ApplyView(v, c.queue[0]), c.queue[1..], sound)
  {
    SteadySafe(up, c.mode, ApplyView(v, c.queue[0]), c.queue[1..], sound);
  }

  /** One refused command: what is left of the pipeline can still be executed. */
  lemma RefusedOk(up: Node, v: View, c: Client, sound: bool)
    requires NodeTidy(up) && (sound ==> NodeOk(up))
    requires StoredOk(up, v, sound) && ClientOk(up, v, c, sound) && c.queue != []
    requires c.must && Fails(v.entities, c.queue[0])
    ensures var w := ApplyView(v, c.queue[0]);
            StoredOk(up, w, sound) && ClientOk(up, w, Refused(c), sound)
  {
    match c.mode
    case Idle =>
    case Starting(_) => ClearingOk(up, v, c, sound);
    case Resetting => ClearingOk(up, v, c, sound);
    case Fetching(_, _, _, _, _, _, _, _) =>
      RefusedFetchOk(up, v, c, sound);
      PlainTail(c);
    case Streaming(_, _, _) =>
      RefusedEvent(up, v, c, sound);
      PlainTail(c);
    case Stopping => StoppingOk(up, v, c, sound);
  }

  lemma StartedOk(up: Node, v: View, etag: nat, sound: bool)
    requires NodeTidy(up) && etag in up.files && v.entities == map[] && v.meta == NO_META
    ensures ClientOk(up, v, Fresh(etag), sound)
  {
    assert FileTidy(up.db, up.files[etag]);
    FreshOk(etag, up.files[etag], v);
  }

  lemma FetchedOk(up: Node, v: View, f: Mode, sound: bool)
    requires f.Fetching? && f.etag in up.files && FetchOk(up.files[f.etag], v, Client(f, [], true))
    requires AllPlain(f.batch)
    ensures ClientOk(up, v, FetchLine(up.files[f.etag], f), sound)
  {
    var file := up.files[f.etag];
    FetchLineOk(file, v, f);
    TurnPlain(file, f, NextFits(file, f), NextParses(file, f));
  }

  /** Once nothing is queued, it no longer matters whether the pipeline had to succeed. */
  lemma NothingQueued(file: File, v: View, c: Client)
    requires c.mode.Fetching? && c.queue == [] && FetchOk(file, v, c)
    ensures FetchOk(file, v, Client(c.mode, [], true))
  {
  }

  lemma NextEventOk(up: Node, v: View, c: Client, fits: bool, sound: bool)
    requires c.mode.Streaming? && ClientOk(up, v, c, sound) && c.queue == []
    ensures ClientOk(up, v, Continue(up, c, fits), sound)
  {
    if c.mode.inflight != [] { DecodableIsPlain(c.mode.inflight[0].change); }
  }

  lemma ProceededOk(up: Node, v: View, c: Client, fits: bool, sound: bool)
    requires NodeTidy(up) && ClientOk(up, v, c, sound) && c.queue == []
    ensures ClientOk(up, v, Continue(up, c, fits), sound)
  {
    match c.mode
    case Idle =>
    case Starting(etag) => StartedOk(up, v, etag, sound);
    case Fetching(etag, _, _, _, _, _, _, _) =>
      NothingQueued(up.files[etag], v, c);
      FetchedOk(up, v, c.mode, sound);
    case Streaming(_, _, _) => NextEventOk(up, v, c, fits, sound);
    case Resetting =>
    case Stopping =>
  }

  lemma FailedOk(up: Node, v: View, c: Client, sound: bool)
    requires ClientOk(up, v, c, sound) && !c.must
    ensures ClientOk(up, v, c.(queue := []), sound)
  {
    if c.mode.Fetching? { DropOk(up.files[c.mode.etag], v, c); }
  }

  /** A lost download, whatever its last line is taken for. */
  lemma CutFetchOk(up: Node, v: View, c: Client, chars: nat, sound: bool)
    requires ClientOk(up, v, c, sound) && c.mode.Fetching? && !c.mode.final && c.queue == []
    ensures ClientOk(up, v, CutFetch(up.files[c.mode.etag], c.mode, chars), sound)
  {
    var file := up.files[c.mode.etag];
    NothingQueued(file, v, c);
    CutOk(file, v, c.mode, chars);
    CutPlain(file, c.mode, chars);
  }

  lemma PayloadPlain(e: LogEntry, chars: nat)
    requires Decodable(e.change) && PayloadLeft(e, chars).Some?
    ensures PlainChange(PayloadLeft(e, chars).value)
  {
    Wire.CutPayloadPlain(e.change, chars);
  }

  /** A change taken for an event that no longer counts, or below an upstream that is not sound. */
  lemma TakenSafe(up: Node, v: View, wrong: Change, id: nat, sound: bool)
    requires StoredOk(up, v, sound) && v.meta.last.Some? && id <= up.db.clock
    requires sound ==> v.meta.last.value <= up.db.floor && id <= up.db.floor
    ensures QueueSafe(up, v, [Write(wrong), SetLast(id)], sound)
  {
    var queue, w := [Write(wrong), SetLast(id)], ApplyView(v, Write(wrong));
    assert queue[1..] == [SetLast(id)] && queue[1..][1..] == [];
    assert QueueSafe(up, ApplyView(w, SetLast(id)), [], sound);
    assert QueueSafe(up, w, queue[1..], sound);
  }

  lemma OutdatedOrClean(up: Node, v: View, c: Client, chars: nat)
    requires NodeTidy(up) && StreamOk(up.db, v, c) && c.queue == [] && c.mode.inflight != []
    requires CleanStream(up, c, Cut(chars)) && PayloadLeft(c.mode.inflight[0], chars).Some?
    ensures v.meta.last.value <= up.db.floor && c.mode.inflight[0].id <= up.db.floor
  {
    if Aligned(up.db, v.meta.last.value, c.mode.inflight, c.mode.cursor) {
      NextAligned(up.db, v.meta.last.value, c.mode.inflight, c.mode.cursor);
    }
  }

  /** A lost stream: nothing is taken, or the event no longer counts. */
  lemma CutStreamOk(up: Node, v: View, c: Client, chars: nat, sound: bool)
    requires NodeTidy(up) && StoredOk(up, v, sound) && c.mode.Streaming? && c.queue == []
    requires ClientOk(up, v, c, sound) && CleanStream(up, c, Cut(chars))
    ensures ClientOk(up, v, CutStream(c.mode.inflight, chars), sound)
  {
    var inflight := c.mode.inflight;
    if inflight != [] && PayloadLeft(inflight[0], chars).Some? {
      PayloadPlain(inflight[0], chars);
      if sound { OutdatedOrClean(up, v, c, chars); }
      TakenSafe(up, v, PayloadLeft(inflight[0], chars).value, inflight[0].id, sound);
    }
  }

  lemma ClientAfterOk(up: Node, me: Node, mv: ClientMove, sound: bool)
    requires NodeTidy(up) && LinkOk(up, me, sound) && CleanStream(up, me.client, mv)
    ensures ClientOk(up, ViewOf(me.db), ClientAfter(up, me, mv), sound)
  {
    var c, v := me.client, ViewOf(me.db);
    match mv
    case Begin(seeding) => if c.mode.Idle? { BeginOk(up, me, seeding, sound); }
    case Serve(count) =>
      if c.mode.Streaming? && c.mode.open {
        ServeTidy(up.db, v, c, count);
        if sound { ServeOk(up.db, v, c, count); }
      }
    case CloseStream =>
    case Proceed => if c.queue == [] { ProceededOk(up, v, c, NextEventFits(c), sound); }
    case Exec(now) =>
    case Fail => if c.queue != [] && !c.must { FailedOk(up, v, c, sound); }
    case Cut(chars) =>
      if c.queue == [] {
        if c.mode.Fetching? && !c.mode.final && !c.mode.cut { CutFetchOk(up, v, c, chars, sound); }
        if c.mode.Streaming? { CutStreamOk(up, v, c, chars, sound); }
      }
    case Crash =>
  }

  lemma SwapLinks(up: Node, me: Node, c: Client, sound: bool)
    requires LinkOk(up, me, sound) && ClientOk(up, ViewOf(me.db), c, sound)
    ensures LinkOk(up, me.(client := c), sound)
  {
  }

  lemma ExecLinks(up: Node, me: Node, now: nat, sound: bool)
    requires NodeTidy(up) && (sound ==> NodeOk(up)) && LinkOk(up, me, sound) && me.client.queue != []
    ensures LinkOk(up, ExecStep(me, now), sound)
  {
    var c, v := me.client, ViewOf(me.db);
    if c.must && Fails(me.db.entities, c.queue[0]) { RefusedOk(up, v, c, sound); } else { ExecutedOk(up, v, c, sound); }
    ViewOfApply(me.db, c.queue[0], now);
  }

  /** Every step of the client, crashes, broken pipelines, refused writes and downloads cut
      anywhere included, keeps its link, whatever the state of its own index and changelog. */
  lemma ClientKeepsLink(up: Node, me: Node, mv: ClientMove, sound: bool)
    requires NodeTidy(up) && (sound ==> NodeOk(up)) && LinkOk(up, me, sound) && CleanStream(up, me.client, mv)
    ensures LinkOk(up, ClientStep(up, me, mv), sound)
  {
    if mv.Exec? && me.client.queue != [] {
      ExecLinks(up, me, mv.now, sound);
    } else {
      ClientAfterOk(up, me, mv, sound);
      SwapLinks(up, me, ClientAfter(up, me, mv), sound);
    }
  }

  /** A command of the client keeps a sound node sound iff its value decodes. */
  lemma ExecKeepsNode(me: Node, cmd: Cmd, now: nat)
    requires NodeOk(me) && Sane(cmd)
    ensures NodeOk(WithDb(me, Apply(me.db, cmd, now))) && Evolves(me.db, Apply(me.db, cmd, now))
  {
    ApplyValid(me.db, cmd, now);
    ApplyEvolves(me.db, cmd, now);
    WithDbOk(me, Apply(me.db, cmd, now));
  }

  lemma SwapKeepsNode(me: Node, c: Client)
    requires NodeTidy(me)
    ensures NodeTidy(me.(client := c)) && (NodeOk(me) ==> NodeOk(me.(client := c)))
  {
  }

  lemma ExecPasses(me: Node, now: nat, sound: bool)
    requires NodeTidy(me) && (sound ==> NodeOk(me)) && PlainClient(me.client) && me.client.queue != []
    ensures var after, next := StaysSound(me, ClientDoes(Exec(now)), sound), ExecStep(me, now);
            && NodeTidy(next) && Later(me.db, next.db) && next.files == me.files
            && (after ==> NodeOk(next) && ((sound && Evolves(me.db, next.db)) || Wiped(me.db, next.db)))
  {
    var cmd := me.client.queue[0];
    var next := WithDb(me, Apply(me.db, cmd, now));
    ApplyTidy(me.db, cmd, now);
    WithDbTidy(me, Apply(me.db, cmd, now));
    if cmd.FlushAll? { FlushRestores(me, now); } else if sound && Sane(cmd) { ExecKeepsNode(me, cmd, now); }
    SwapKeepsNode(next, ExecStep(me, now).client);
  }

  lemma ClientPasses(up: Node, me: Node, mv: ClientMove, sound: bool)
    requires NodeTidy(me) && (sound ==> NodeOk(me)) && PlainClient(me.client)
    ensures var after, next := StaysSound(me, ClientDoes(mv), sound), ClientStep(up, me, mv);
            && NodeTidy(next) && Later(me.db, next.db) && next.files == me.files
            && (after ==> NodeOk(next) && ((sound && Evolves(me.db, next.db)) || Wiped(me.db, next.db)))
  {
    if mv.Exec? && me.client.queue != [] {
      ExecPasses(me, mv.now, sound);
    } else {
      SwapKeepsNode(me, ClientAfter(up, me, mv));
    }
  }

  // ------------------------------------------------------------ whole chain

  lemma HubKeepsOwnLink(up: Node, me: Node, mv: Move, sound: bool)
    requires LinkOk(up, me, sound) && !mv.LocalWrite? && !mv.LocalFlush? && !mv.ClientDoes?
    ensures LinkOk(up, HubStep(me, mv), sound)
  {
    assert ViewOf(HubStep(me, mv).db) == ViewOf(me.db);
  }

  /** What one step does to its own node and the link above it. */
  lemma NodeStepOk(chain: seq<Node>, sound: seq<bool>, i: nat, mv: Move)
    requires |sound| == |chain| && ChainOk(chain, sound) && i < |chain| && Orderly(chain, i, mv)
    ensures var next, after := NodeStep(chain, i, mv), SoundStep(chain, sound, i, mv)[i];
            && NodeTidy(next) && Later(chain[i].db, next.db) && MoreFiles(chain[i].files, next.files)
            && (after ==> NodeOk(next) && Trusted(chain[i], next, sound[i]))
            && (i > 0 ==> LinkOk(chain[i - 1], next, sound[i - 1]))
  {
    assert NodeTidy(chain[i]) && (sound[i] ==> NodeOk(chain[i]));
    assert Later(chain[i].db, chain[i].db);
    if i > 0 {
      assert NodeTidy(chain[i - 1]) && LinkOk(chain[i - 1], chain[i], sound[i - 1]);
      assert PlainClient(chain[i].client);
    }
    hide NodeOk, NodeTidy, LinkOk;
    if mv.ClientDoes? {
      if i > 0 {
        ClientPasses(chain[i - 1], chain[i], mv.move, sound[i]);
        ClientKeepsLink(chain[i - 1], chain[i], mv.move, sound[i - 1]);
      }
    } else if !(i > 0 && (mv.LocalWrite? || mv.LocalFlush?)) {
      HubStepOk(chain[i], mv, sound[i]);
      if i > 0 { HubKeepsOwnLink(chain[i - 1], chain[i], mv, sound[i - 1]); }
    }
  }

  lemma ReplaceOk(chain: seq<Node>, sound: seq<bool>, i: nat, next: Node, after: bool)
    requires |sound| == |chain| && ChainOk(chain, sound) && i < |chain|
    requires NodeTidy(next) && (after ==> NodeOk(next))
    requires i > 0 ==> LinkOk(chain[i - 1], next, sound[i - 1])
    requires i + 1 < |chain| ==> LinkOk(next, chain[i + 1], after)
    ensures ChainOk(chain[i := next], sound[i := after])
  {
    hide NodeOk, NodeTidy, LinkOk;
    var nodes, flags := chain[i := next], sound[i := after];
    forall j | 0 <= j < |nodes| ensures NodeTidy(nodes[j]) && (flags[j] ==> NodeOk(nodes[j])) {
      if j != i { assert nodes[j] == chain[j] && flags[j] == sound[j]; }
    }
    forall j | 0 < j < |nodes| ensures LinkOk(nodes[j - 1], nodes[j], flags[j - 1]) {
      if j != i && j - 1 != i { assert nodes[j] == chain[j] && nodes[j - 1] == chain[j - 1]; }
    }
  }

  lemma StepOk(chain: seq<Node>, sound: seq<bool>, i: nat, mv: Move)
    requires |sound| == |chain| && ChainOk(chain, sound) && Orderly(chain, i, mv)
    ensures ChainOk(Step(chain, i, mv), SoundStep(chain, sound, i, mv))
  {
    hide NodeOk, NodeTidy, LinkOk;
    if i < |chain| {
      var next, flags := NodeStep(chain, i, mv), SoundStep(chain, sound, i, mv);
      NodeStepOk(chain, sound, i, mv);
      if i + 1 < |chain| {
        assert LinkOk(chain[i], chain[i + 1], sound[i]);
        UpstreamKeepsLink(chain[i], next, chain[i + 1], sound[i], flags[i]);
      }
      assert flags == sound[i := flags[i]];
      ReplaceOk(chain, sound, i, next, flags[i]);
    }
  }

  lemma NewChainOk(n: nat)
    ensures ChainOk(NewChain(n), seq(n, _ => true))
  {
    EmptyAgrees();
  }

  lemma {:induction false} PrimarySound(n: nat, moves: seq<(nat, Move)>)
    requires n > 0
    ensures Soundness(NewChain(n), moves)[0]
  {
    if moves != [] { PrimarySound(n, moves[..|moves| - 1]); }
  }

  /** Whole-run safety: after every orderly run of a chain of any length, with writes, flushes
      and trims, scans and publications, failed and torn pipelines, refused writes, downloads
      and streams cut within any line, lines above the limits, seeding deferrals, resets and
      crashes in any order, every stored checkpoint can be resumed, every stored cursor below a
      sound node is safe, and every sound node has a valid store. The primary is always sound; a
      replica is as long as it has written only values that decode since its last flush. */
  lemma {:induction false} ChainSafe(n: nat, moves: seq<(nat, Move)>)
    requires OrderlyRun(NewChain(n), moves)
    ensures ChainOk(Run(NewChain(n), moves), Soundness(NewChain(n), moves))
    ensures n > 0 ==> Soundness(NewChain(n), moves)[0]
  {
    if n > 0 { PrimarySound(n, moves); }
    if moves == [] {
      NewChainOk(n);
    } else {
      var k := |moves| - 1;
      ChainSafe(n, moves[..k]);
      StepOk(Run(NewChain(n), moves[..k]), Soundness(NewChain(n), moves[..k]), moves[k].0, moves[k].1);
    }
  }

  // ------------------------------------------------------------ convergence

  /** A replica whose cursor is the last id of its upstream's changelog. */
  predicate AtEnd(up: Node, me: Node) {
    up.db.log != [] && me.db.meta.last == Some(Last(up.db.log))
  }

  predicate SameStore(a: Node, b: Node) {
    b.db.entities == a.db.entities && b.db.index == a.db.index
  }

  /** A replica at the end of the changelog of a sound upstream has its entities, and if it is
      sound itself, its index. */
  lemma LinkConverges(up: Node, me: Node)
    requires NodeOk(up) && LinkOk(up, me, true) && AtEnd(up, me)
    ensures me.db.entities == up.db.entities
    ensures NodeOk(me) ==> SameStore(up, me)
  {
    CaughtUp(up.db, ViewOf(me.db));
    if NodeOk(me) { IndexUnique(up.db.entities, up.db.index, me.db.index); }
  }

  lemma {:induction false} ConvergesTo(chain: seq<Node>, sound: seq<bool>, i: nat)
    requires |sound| == |chain| && ChainOk(chain, sound) && i < |chain|
    requires forall j :: 0 <= j < i ==> sound[j] && AtEnd(chain[j], chain[j + 1])
    ensures chain[i].db.entities == chain[0].db.entities
    ensures sound[0] && sound[i] ==> SameStore(chain[0], chain[i])
  {
    if i > 0 {
      ConvergesTo(chain, sound, i - 1);
      assert LinkOk(chain[i - 1], chain[i], sound[i - 1]);
      assert AtEnd(chain[i - 1], chain[i]);
      LinkConverges(chain[i - 1], chain[i]);
    }
  }

  /** Chains converge: in every state an orderly run reaches, a node has the entities of the
      primary if the nodes above it are sound and each of the cursors down to it is the last id
      of its upstream; if it is sound itself, it has the same index. */
  lemma ChainConverges(n: nat, moves: seq<(nat, Move)>, chain: seq<Node>, sound: seq<bool>, i: nat)
    requires OrderlyRun(NewChain(n), moves) && i < n
    requires chain == Run(NewChain(n), moves) && sound == Soundness(NewChain(n), moves)
    requires forall j :: 0 <= j < i ==> sound[j] && AtEnd(chain[j], chain[j + 1])
    ensures chain[i].db.entities == chain[0].db.entities
    ensures sound[i] ==> SameStore(chain[0], chain[i])
  {
    ChainSafe(n, moves);
    ConvergesTo(chain, sound, i);
  }
}
