/** The change stream on the wire: the server-sent-event text and the client's line machine. */
module Wire {
  import opened Text
  import opened Mappings
  import opened EntityMaps
  import opened Store
  import opened StreamIds

  /** The limit of the client's scanner. */
  const STREAM_LINE_LIMIT: nat := 1024 * 1024

  // ------------------------------------------------------------------ server

  /** What the server sends after its preamble. */
  datatype Chunk = KeepAlive | Event(entry: LogEntry)

  /** The mappings column of a changelog entry: empty for a delete. */
  function RawText(c: Change): string {
    match c.mappings
    case None => ""
    case Some(raw) => raw
  }

  /** FormatStreamChangeData. */
  function FormatData(qid: Qid, raw: string): string {
    FormatInt(qid) + if raw != "" then " " + raw else ""
  }

  function Payload(c: Change): string { FormatData(c.qid, RawText(c)) }

  function ChunkLines(chunk: Chunk): seq<string> {
    match chunk
    case KeepAlive => [": keepalive", ""]
    case Event(e) => ["id: " + IdText(e.id), "event: change", "data: " + Payload(e.change), ""]
  }

  const PREAMBLE: seq<string> := [": connected", "retry: 3000", ""]

  function BodyLines(chunks: seq<Chunk>): seq<string> {
    if chunks == [] then [] else ChunkLines(chunks[0]) + BodyLines(chunks[1..])
  }

  function StreamLines(chunks: seq<Chunk>): seq<string> { PREAMBLE + BodyLines(chunks) }

  function ResetLines(data: string): seq<string> { ["retry: 3000", "event: reset", "data: " + data, ""] }

  // ------------------------------------------------------------------ client

  /** A line as connectStream sees it; `change` is what a data line says as a change. */
  datatype Kind =
    | Blank
    | Comment
    | Named(name: string)
    | Id(id: string)
    | Retry
    | Data(data: string, change: Option<(Qid, string)>)
    | Other

  function AfterPrefix(line: string, prefix: string): Option<string> {
    if prefix <= line then Some(line[|prefix|..]) else None
  }

  function WithQid(text: string, raw: string): Option<(Qid, string)> {
    match ParseInt64(text)
    case None => None
    case Some(q) => Some((q, raw))
  }

  /** ParseStreamChangeData: the qid, and the mappings ("" for a delete). */
  function ParseData(data: string): Option<(Qid, string)> {
    var sep := RunLength(data, ' ');
    if data == "" then None
    else if sep == |data| then WithQid(data, "")
    else if sep == 0 || sep == |data| - 1 then None
    else WithQid(data[..sep], data[sep + 1..])
  }

  function DataKind(data: string): Kind { Data(data, ParseData(data)) }

  /** The prefixes in the order connectStream tries them. */
  function Classify(line: string): Kind {
    if line == "" then Blank
    else if line[0] == ':' then Comment
    else if AfterPrefix(line, "event: ").Some? then Named(AfterPrefix(line, "event: ").value)
    else if AfterPrefix(line, "id: ").Some? then Id(AfterPrefix(line, "id: ").value)
    else if AfterPrefix(line, "retry: ").Some? then Retry
    else if AfterPrefix(line, "data: ").Some? then DataKind(AfterPrefix(line, "data: ").value)
    else Other
  }

  datatype EventType = NoType | ChangeType | ResetType | OtherType

  function TypeOf(name: string): EventType {
    if name == "change" then ChangeType else if name == "reset" then ResetType
    else if name == "" then NoType else OtherType
  }

  /** The fields that live across lines; the id also lives across events. */
  datatype Fields = Fields(kind: EventType, id: string)

  const AT_START := Fields(NoType, "")

  /** A change event as the client takes it off the wire. */
  datatype Delivery = Delivery(id: string, qid: Qid, raw: string)

  /** What a line makes the client do. */
  datatype Act = Go | Take(d: Delivery) | Reset(data: string)

  function Feed(f: Fields, kind: Kind): Fields {
    match kind
    case Blank => f.(kind := NoType)
    case Named(name) => f.(kind := TypeOf(name))
    case Id(id) => f.(id := id)
    case _ => f
  }

  function ActOn(f: Fields, kind: Kind): Act {
    if !kind.Data? then Go
    else if f.kind == ResetType then Reset(kind.data)
    else if f.kind != ChangeType || f.id == "" then Go
    else match kind.change case None => Go case Some((q, raw)) => Take(Delivery(f.id, q, raw))
  }

  /** Everything a run of lines delivers, up to a reset. */
  function Deliver(f: Fields, kinds: seq<Kind>): seq<Delivery>
    decreases |kinds|
  {
    if kinds == [] then []
    else
      match ActOn(f, kinds[0])
      case Go => Deliver(Feed(f, kinds[0]), kinds[1..])
      case Take(d) => [d] + Deliver(Feed(f, kinds[0]), kinds[1..])
      case Reset(_) => []
  }

  function FieldsAfter(f: Fields, kinds: seq<Kind>): Fields
    decreases |kinds|
  {
    if kinds == [] then f else FieldsAfter(Feed(f, kinds[0]), kinds[1..])
  }

  /** The reset that ends a run of lines, if one does. */
  function FindReset(f: Fields, kinds: seq<Kind>): Option<string>
    decreases |kinds|
  {
    if kinds == [] then None
    else
      match ActOn(f, kinds[0])
      case Reset(data) => Some(data)
      case _ => FindReset(Feed(f, kinds[0]), kinds[1..])
  }

  function Kinds(lines: seq<string>): seq<Kind> {
    seq(|lines|, i requires 0 <= i < |lines| => Classify(lines[i]))
  }

  function Received(lines: seq<string>): seq<Delivery> { Deliver(AT_START, Kinds(lines)) }

  function ResetIn(lines: seq<string>): Option<string> { FindReset(AT_START, Kinds(lines)) }

  /** One more line at the head. */
  lemma OneLine(f: Fields, kind: Kind, rest: seq<Kind>)
    ensures !ActOn(f, kind).Reset? ==>
              && Deliver(f, [kind] + rest) ==
                 (if ActOn(f, kind).Take? then [ActOn(f, kind).d] else []) + Deliver(Feed(f, kind), rest)
              && FindReset(f, [kind] + rest) == FindReset(Feed(f, kind), rest)
    ensures ActOn(f, kind).Reset? ==>
              Deliver(f, [kind] + rest) == [] && FindReset(f, [kind] + rest) == Some(ActOn(f, kind).data)
  {
    assert ([kind] + rest)[1..] == rest;
  }

  /** Lines after a run without a reset add their own deliveries. */
  lemma {:induction false} DeliverThrough(f: Fields, a: seq<Kind>, b: seq<Kind>)
    requires FindReset(f, a).None?
    ensures Deliver(f, a + b) == Deliver(f, a) + Deliver(FieldsAfter(f, a), b)
    decreases |a|
  {
    if a == [] {
      assert a + b == b;
    } else {
      assert a + b == [a[0]] + (a[1..] + b) && a == [a[0]] + a[1..];
      OneLine(f, a[0], a[1..]);
      OneLine(f, a[0], a[1..] + b);
      DeliverThrough(Feed(f, a[0]), a[1..], b);
    }
  }

  /** Lines after a reset add nothing. */
  lemma {:induction false} DeliverStops(f: Fields, a: seq<Kind>, b: seq<Kind>)
    requires FindReset(f, a).Some?
    ensures Deliver(f, a + b) == Deliver(f, a)
    decreases |a|
  {
    assert a + b == [a[0]] + (a[1..] + b) && a == [a[0]] + a[1..];
    OneLine(f, a[0], a[1..]);
    OneLine(f, a[0], a[1..] + b);
    if !ActOn(f, a[0]).Reset? { DeliverStops(Feed(f, a[0]), a[1..], b); }
  }

  /** A cut at any line end delivers a prefix of the events. */
  lemma CutDeliversPrefix(lines: seq<string>, k: nat)
    requires k <= |lines|
    ensures Received(lines[..k]) <= Received(lines)
  {
    var a, b := Kinds(lines[..k]), Kinds(lines[k..]);
    assert a + b == Kinds(lines);
    if FindReset(AT_START, a).None? { DeliverThrough(AT_START, a, b); } else { DeliverStops(AT_START, a, b); }
  }

  // -------------------------------------------------------------- round trip

  /** FormatStreamChangeData and ParseStreamChangeData undo each other. */
  lemma DataRoundTrip(q: Qid, raw: string)
    ensures ParseData(FormatData(q, raw)) == Some((q, raw))
  {
    var n := FormatInt(q);
    FormatIntAvoids(q, ' ');
    ParseFormatInt(q);
    if raw == "" {
      RunLengthPrefix(n, "", ' ');
      assert n + "" == n;
    } else {
      RunLengthPrefix(n, " " + raw, ' ');
      assert (n + (" " + raw))[..|n|] == n && (n + (" " + raw))[|n| + 1..] == raw;
    }
  }

  lemma ClassifyName(t: string)
    ensures Classify("event: " + t) == Named(t)
  {
    assert ("event: " + t)[|"event: "|..] == t;
  }

  lemma ClassifyId(t: string)
    ensures Classify("id: " + t) == Id(t)
  {
    var line := "id: " + t;
    assert line[0] == 'i';
    assert line[|"id: "|..] == t;
  }

  lemma ClassifyData(t: string)
    ensures Classify("data: " + t) == DataKind(t)
  {
    var line := "data: " + t;
    assert line[0] == 'd';
    assert line[|"data: "|..] == t;
  }

  lemma ClassifyFixed()
    ensures Classify("event: change") == Named("change") && Classify("event: reset") == Named("reset")
    ensures Classify("retry: 3000") == Retry
  {
    ClassifyName("change");
    ClassifyName("reset");
    assert "event: " + "change" == "event: change" && "event: " + "reset" == "event: reset";
    assert "retry: 3000"[0] == 'r';
  }

  function DeliveryOf(e: LogEntry): Delivery { Delivery(IdText(e.id), e.change.qid, RawText(e.change)) }

  lemma KindsConcat(a: seq<string>, b: seq<string>)
    ensures Kinds(a + b) == Kinds(a) + Kinds(b)
  {
  }

  lemma FourKinds(a: string, b: string, c: string, d: string)
    ensures Kinds([a, b, c, d]) == [Classify(a), Classify(b), Classify(c), Classify(d)]
  {
    var lines := [a, b, c, d];
    assert lines[0] == a && lines[1] == b && lines[2] == c && lines[3] == d;
  }

  lemma EventKinds(e: LogEntry)
    ensures Kinds(ChunkLines(Event(e))) ==
            [Id(IdText(e.id)), Named("change"), DataKind(Payload(e.change)), Blank]
  {
    var id, data := IdText(e.id), Payload(e.change);
    FourKinds("id: " + id, "event: change", "data: " + data, "");
    ClassifyId(id);
    ClassifyFixed();
    ClassifyData(data);
  }

  lemma FourLines(f: Fields, data: Kind, d: Delivery, rest: seq<Kind>)
    requires d.id != "" && data.Data? && data.change == Some((d.qid, d.raw))
    ensures var all := [Id(d.id), Named("change"), data, Blank] + rest;
            Deliver(f, all) == [d] + Deliver(Fields(NoType, d.id), rest) &&
            FindReset(f, all) == FindReset(Fields(NoType, d.id), rest)
  {
    var named := Fields(ChangeType, d.id);
    assert [Id(d.id), Named("change"), data, Blank] + rest ==
           [Id(d.id)] + ([Named("change")] + ([data] + ([Blank] + rest)));
    OneLine(f, Id(d.id), [Named("change")] + ([data] + ([Blank] + rest)));
    OneLine(f.(id := d.id), Named("change"), [data] + ([Blank] + rest));
    OneLine(named, data, [Blank] + rest);
    OneLine(named, Blank, rest);
  }

  /** The four lines of an event, whatever came before on the connection. */
  lemma EventReceived(f: Fields, e: LogEntry, rest: seq<Kind>)
    ensures Deliver(f, Kinds(ChunkLines(Event(e))) + rest) ==
            [DeliveryOf(e)] + Deliver(Fields(NoType, IdText(e.id)), rest)
    ensures FindReset(f, Kinds(ChunkLines(Event(e))) + rest) == FindReset(Fields(NoType, IdText(e.id)), rest)
  {
    EventKinds(e);
    DataRoundTrip(e.change.qid, RawText(e.change));
    assert IdText(e.id) != "";
    FourLines(f, DataKind(Payload(e.change)), DeliveryOf(e), rest);
  }

  lemma KeepAliveIgnored(f: Fields, rest: seq<Kind>)
    ensures Deliver(f, Kinds(ChunkLines(KeepAlive)) + rest) == Deliver(f.(kind := NoType), rest)
    ensures FindReset(f, Kinds(ChunkLines(KeepAlive)) + rest) == FindReset(f.(kind := NoType), rest)
  {
    assert Kinds(ChunkLines(KeepAlive)) + rest == [Comment] + ([Blank] + rest);
    OneLine(f, Comment, [Blank] + rest);
    OneLine(f, Blank, rest);
  }

  function EventOf(chunk: Chunk): seq<Delivery> {
    if chunk.Event? then [DeliveryOf(chunk.entry)] else []
  }

  /** The events among the chunks, as the client should take them. */
  function Deliveries(chunks: seq<Chunk>): seq<Delivery> {
    if chunks == [] then [] else EventOf(chunks[0]) + Deliveries(chunks[1..])
  }

  lemma {:induction false} BodyReceived(f: Fields, chunks: seq<Chunk>)
    ensures Deliver(f, Kinds(BodyLines(chunks))) == Deliveries(chunks)
    ensures FindReset(f, Kinds(BodyLines(chunks))).None?
    decreases |chunks|
  {
    if chunks != [] {
      var rest := Kinds(BodyLines(chunks[1..]));
      KindsConcat(ChunkLines(chunks[0]), BodyLines(chunks[1..]));
      match chunks[0]
      case KeepAlive =>
        KeepAliveIgnored(f, rest);
        BodyReceived(f.(kind := NoType), chunks[1..]);
      case Event(e) =>
        EventReceived(f, e, rest);
        BodyReceived(Fields(NoType, IdText(e.id)), chunks[1..]);
    }
  }

  lemma PreambleIgnored(rest: seq<Kind>)
    ensures Deliver(AT_START, Kinds(PREAMBLE) + rest) == Deliver(AT_START, rest)
    ensures FindReset(AT_START, Kinds(PREAMBLE) + rest) == FindReset(AT_START, rest)
  {
    ClassifyFixed();
    assert Kinds(PREAMBLE) + rest == [Comment] + ([Retry] + ([Blank] + rest));
    OneLine(AT_START, Comment, [Retry] + ([Blank] + rest));
    OneLine(AT_START, Retry, [Blank] + rest);
    OneLine(AT_START, Blank, rest);
  }

  // --------------------------------------------------------- through the scanner

  /** What the log of a valid store can contain: every value decodes. */
  predicate Wireable(chunk: Chunk) { chunk.Event? ==> Decodable(chunk.entry.change) }

  predicate AllWireable(chunks: seq<Chunk>) { forall i :: 0 <= i < |chunks| ==> Wireable(chunks[i]) }

  predicate Unbroken(lines: seq<string>) { forall i :: 0 <= i < |lines| ==> NoBreak(lines[i]) }

  lemma UnbrokenLines(lines: seq<string>)
    requires Unbroken(lines)
    ensures AreLines(lines)
  {
    forall i | 0 <= i < |lines| ensures IsLine(lines[i]) { assert NoBreak(lines[i]); }
  }

  lemma PayloadUnbroken(c: Change)
    requires Decodable(c)
    ensures NoBreak(Payload(c))
  {
    FormatIntAvoids(c.qid, '\n');
    FormatIntAvoids(c.qid, '\r');
    if c.mappings.Some? { RawIsOneLine(c.mappings.value); }
  }

  lemma ChunkUnbroken(chunk: Chunk)
    requires Wireable(chunk)
    ensures Unbroken(ChunkLines(chunk))
  {
    if chunk.Event? {
      assert NoBreak(IdText(chunk.entry.id));
      PayloadUnbroken(chunk.entry.change);
    }
  }

  lemma UnbrokenMore(a: seq<string>, b: seq<string>)
    requires Unbroken(a) && Unbroken(b)
    ensures Unbroken(a + b)
  {
  }

  lemma {:induction false} BodyUnbroken(chunks: seq<Chunk>)
    requires AllWireable(chunks)
    ensures Unbroken(BodyLines(chunks))
  {
    if chunks != [] {
      ChunkUnbroken(chunks[0]);
      BodyUnbroken(chunks[1..]);
      UnbrokenMore(ChunkLines(chunks[0]), BodyLines(chunks[1..]));
    }
  }

  lemma PreambleUnbroken()
    ensures Unbroken(PREAMBLE)
  {
  }

  lemma StreamUnbroken(chunks: seq<Chunk>)
    requires AllWireable(chunks)
    ensures Unbroken(StreamLines(chunks))
  {
    PreambleUnbroken();
    BodyUnbroken(chunks);
    UnbrokenMore(PREAMBLE, BodyLines(chunks));
  }

  lemma {:induction false} SizeBound(s: string)
    ensures ByteSize(s) <= 4 * |s|
  {
    if s != "" { SizeBound(s[1..]); }
  }

  lemma {:induction false} FitCountConcat(a: seq<string>, b: seq<string>, limit: nat)
    ensures FitCount(a, limit) == |a| ==> FitCount(a + b, limit) == |a| + FitCount(b, limit)
    ensures FitCount(a, limit) < |a| ==> FitCount(a + b, limit) == FitCount(a, limit)
  {
    if a == [] {
      assert a + b == b;
    } else {
      assert (a + b)[1..] == a[1..] + b;
      FitCountConcat(a[1..], b, limit);
    }
  }

  lemma ShortFits(lines: seq<string>)
    requires forall i :: 0 <= i < |lines| ==> |lines[i]| <= 64
    ensures AllFit(lines, STREAM_LINE_LIMIT)
  {
    forall i | 0 <= i < |lines| ensures ByteSize(lines[i]) < STREAM_LINE_LIMIT { SizeBound(lines[i]); }
  }

  predicate ChunkFits(chunk: Chunk) { AllFit(ChunkLines(chunk), STREAM_LINE_LIMIT) }

  /** The two lines of an event that can be long are below the limit. */
  predicate EventFits(e: LogEntry) {
    ByteSize("id: " + IdText(e.id)) < STREAM_LINE_LIMIT && ByteSize("data: " + Payload(e.change)) < STREAM_LINE_LIMIT
  }

  lemma FourFit(a: string, b: string, c: string, d: string)
    requires |b| <= 64 && |d| <= 64
    ensures AllFit([a, b, c, d], STREAM_LINE_LIMIT) <==>
            ByteSize(a) < STREAM_LINE_LIMIT && ByteSize(c) < STREAM_LINE_LIMIT
  {
    var lines := [a, b, c, d];
    SizeBound(b);
    SizeBound(d);
    if AllFit(lines, STREAM_LINE_LIMIT) {
      assert ByteSize(lines[0]) < STREAM_LINE_LIMIT && ByteSize(lines[2]) < STREAM_LINE_LIMIT;
    }
  }

  lemma EventFitsIff(e: LogEntry)
    ensures ChunkFits(Event(e)) <==> EventFits(e)
  {
    FourFit("id: " + IdText(e.id), "event: change", "data: " + Payload(e.change), "");
  }

  lemma KeepAliveFits()
    ensures ChunkFits(KeepAlive)
  {
    ShortFits(ChunkLines(KeepAlive));
  }

  /** Only the first or the third line of an event can fail to fit. */
  lemma EventCut(e: LogEntry, n: nat)
    requires n == FitCount(ChunkLines(Event(e)), STREAM_LINE_LIMIT) && !ChunkFits(Event(e))
    ensures n == 0 || n == 2
  {
    var lines := ChunkLines(Event(e));
    AllFitIff(lines, STREAM_LINE_LIMIT);
    assert |lines[1]| == 13 && |lines[3]| == 0;
    SizeBound(lines[n]);
  }

  lemma DeliverHead(f: Fields, id: string)
    ensures Deliver(f, [Id(id), Named("change")]) == [] && FindReset(f, [Id(id), Named("change")]).None?
  {
    assert [Id(id), Named("change")] == [Id(id)] + ([Named("change")] + []);
    OneLine(f, Id(id), [Named("change")] + []);
    OneLine(f.(id := id), Named("change"), []);
  }

  /** The lines of an event before the one that does not fit deliver nothing. */
  lemma CutShort(f: Fields, e: LogEntry, n: nat)
    requires n == 0 || n == 2
    ensures Deliver(f, Kinds(ChunkLines(Event(e))[..n])) == []
  {
    var lines := ChunkLines(Event(e));
    if n == 0 {
      assert Kinds(lines[..0]) == [];
    } else {
      EventKinds(e);
      assert Kinds(lines[..2]) == Kinds(lines)[..2];
      assert Kinds(lines[..2]) == [Id(IdText(e.id)), Named("change")];
      DeliverHead(f, IdText(e.id));
    }
  }

  function AfterChunk(f: Fields, chunk: Chunk): Fields {
    if chunk.KeepAlive? then f.(kind := NoType) else Fields(NoType, IdText(chunk.entry.id))
  }

  lemma ChunkReceived(f: Fields, chunk: Chunk, rest: seq<Kind>)
    ensures Deliver(f, Kinds(ChunkLines(chunk)) + rest) == EventOf(chunk) + Deliver(AfterChunk(f, chunk), rest)
  {
    match chunk
    case KeepAlive => KeepAliveIgnored(f, rest);
    case Event(e) => EventReceived(f, e, rest);
  }

  /** What the client gets of the lines that pass its scanner. */
  function Passed(f: Fields, lines: seq<string>): seq<Delivery> {
    Deliver(f, Kinds(lines[..FitCount(lines, STREAM_LINE_LIMIT)]))
  }

  /** What passes of more lines behind lines that all fit. */
  function Rest(rest: seq<string>): seq<Kind> { Kinds(rest[..FitCount(rest, STREAM_LINE_LIMIT)]) }

  lemma PassedStep(f: Fields, head: seq<string>, rest: seq<string>)
    requires AllFit(head, STREAM_LINE_LIMIT)
    ensures Passed(f, head + rest) == Deliver(f, Kinds(head) + Rest(rest))
  {
    var more := FitCount(rest, STREAM_LINE_LIMIT);
    AllFitIff(head, STREAM_LINE_LIMIT);
    FitCountConcat(head, rest, STREAM_LINE_LIMIT);
    assert (head + rest)[..|head| + more] == head + rest[..more];
    KindsConcat(head, rest[..more]);
  }

  lemma PassedWhole(f: Fields, chunk: Chunk, rest: seq<string>)
    requires ChunkFits(chunk)
    ensures Passed(f, ChunkLines(chunk) + rest) == EventOf(chunk) + Passed(AfterChunk(f, chunk), rest)
  {
    PassedStep(f, ChunkLines(chunk), rest);
    ChunkReceived(f, chunk, Rest(rest));
  }

  lemma PassedNone(f: Fields, head: seq<string>, rest: seq<string>)
    requires !AllFit(head, STREAM_LINE_LIMIT)
    ensures Passed(f, head + rest) == Deliver(f, Kinds(head[..FitCount(head, STREAM_LINE_LIMIT)]))
  {
    var n := FitCount(head, STREAM_LINE_LIMIT);
    AllFitIff(head, STREAM_LINE_LIMIT);
    FitCountConcat(head, rest, STREAM_LINE_LIMIT);
    assert (head + rest)[..n] == head[..n];
  }

  lemma PassedPart(f: Fields, chunk: Chunk, rest: seq<string>)
    requires !ChunkFits(chunk)
    ensures Passed(f, ChunkLines(chunk) + rest) == []
  {
    if chunk.KeepAlive? { KeepAliveFits(); }
    PassedNone(f, ChunkLines(chunk), rest);
    EventCut(chunk.entry, FitCount(ChunkLines(chunk), STREAM_LINE_LIMIT));
    CutShort(f, chunk.entry, FitCount(ChunkLines(chunk), STREAM_LINE_LIMIT));
  }

  /** The events before the first with a line that does not fit. */
  function FitEvents(chunks: seq<Chunk>): seq<Delivery> {
    if chunks == [] || !ChunkFits(chunks[0]) then [] else EventOf(chunks[0]) + FitEvents(chunks[1..])
  }

  lemma BodyStep(chunks: seq<Chunk>)
    requires chunks != []
    ensures BodyLines(chunks) == ChunkLines(chunks[0]) + BodyLines(chunks[1..])
    ensures Deliveries(chunks) == EventOf(chunks[0]) + Deliveries(chunks[1..])
  {
  }

  lemma NothingPassed(f: Fields)
    ensures Passed(f, BodyLines([])) == FitEvents([])
  {
  }

  lemma {:induction false} BodyPassed(f: Fields, chunks: seq<Chunk>)
    ensures Passed(f, BodyLines(chunks)) == FitEvents(chunks)
    decreases |chunks|
  {
    if chunks == [] {
      NothingPassed(f);
    } else {
      BodyStep(chunks);
      if ChunkFits(chunks[0]) {
        PassedWhole(f, chunks[0], BodyLines(chunks[1..]));
        BodyPassed(AfterChunk(f, chunks[0]), chunks[1..]);
      } else {
        PassedPart(f, chunks[0], BodyLines(chunks[1..]));
      }
    }
  }

  lemma FitMore(a: seq<string>, b: seq<string>)
    ensures AllFit(a + b, STREAM_LINE_LIMIT) <==> AllFit(a, STREAM_LINE_LIMIT) && AllFit(b, STREAM_LINE_LIMIT)
  {
    if AllFit(a + b, STREAM_LINE_LIMIT) {
      forall i | 0 <= i < |a| ensures ByteSize(a[i]) < STREAM_LINE_LIMIT { assert (a + b)[i] == a[i]; }
      forall i | 0 <= i < |b| ensures ByteSize(b[i]) < STREAM_LINE_LIMIT { assert (a + b)[|a| + i] == b[i]; }
    }
  }

  /** What arrives of a whole response. */
  function Arrived(chunks: seq<Chunk>): Scanned { ScanLines(Unlines(StreamLines(chunks)), STREAM_LINE_LIMIT) }

  lemma PreambleFits()
    ensures AllFit(PREAMBLE, STREAM_LINE_LIMIT)
  {
    ShortFits(PREAMBLE);
  }

  lemma PreamblePassed(chunks: seq<Chunk>)
    ensures Passed(AT_START, StreamLines(chunks)) == Passed(AT_START, BodyLines(chunks))
  {
    PreambleFits();
    PassedStep(AT_START, PREAMBLE, BodyLines(chunks));
    PreambleIgnored(Rest(BodyLines(chunks)));
  }

  lemma StreamFitsIff(chunks: seq<Chunk>)
    ensures AllFit(StreamLines(chunks), STREAM_LINE_LIMIT) <==> AllFit(BodyLines(chunks), STREAM_LINE_LIMIT)
  {
    PreambleFits();
    FitMore(PREAMBLE, BodyLines(chunks));
  }

  lemma NeverReset(chunks: seq<Chunk>)
    ensures Received(StreamLines(chunks)) == Deliveries(chunks) && ResetIn(StreamLines(chunks)).None?
  {
    KindsConcat(PREAMBLE, BodyLines(chunks));
    PreambleIgnored(Kinds(BodyLines(chunks)));
    BodyReceived(AT_START, chunks);
  }

  /** For every sequence of events with keepalives anywhere among them, the client recovers
      from the server's text exactly the ids, qids and mappings of the events before the first
      with a line above the limit, in order; then its scanner fails. The wire is lossless iff
      every line is below the limit. */
  lemma WireRoundTrip(chunks: seq<Chunk>)
    requires AllWireable(chunks)
    ensures Received(Arrived(chunks).lines) == FitEvents(chunks)
    ensures Arrived(chunks).tooLong <==> !AllFit(StreamLines(chunks), STREAM_LINE_LIMIT)
    ensures Received(Arrived(chunks).lines) == Deliveries(chunks) <==> AllFit(StreamLines(chunks), STREAM_LINE_LIMIT)
    ensures ResetIn(StreamLines(chunks)).None?
  {
    ArrivedPassed(chunks);
    PreamblePassed(chunks);
    StreamFitsIff(chunks);
    BodyPassed(AT_START, chunks);
    LostIff(chunks);
    NeverReset(chunks);
  }

  lemma ArrivedPassed(chunks: seq<Chunk>)
    requires AllWireable(chunks)
    ensures Received(Arrived(chunks).lines) == Passed(AT_START, StreamLines(chunks))
    ensures Arrived(chunks).tooLong <==> !AllFit(StreamLines(chunks), STREAM_LINE_LIMIT)
  {
    StreamUnbroken(chunks);
    UnbrokenLines(StreamLines(chunks));
    ScanUnlines(StreamLines(chunks), STREAM_LINE_LIMIT);
    AllFitIff(StreamLines(chunks), STREAM_LINE_LIMIT);
  }

  function EventChunks(es: seq<LogEntry>): seq<Chunk> {
    if es == [] then [] else [Event(es[0])] + EventChunks(es[1..])
  }

  predicate EventsFit(es: seq<LogEntry>) { forall i :: 0 <= i < |es| ==> EventFits(es[i]) }

  lemma EventsFitCons(es: seq<LogEntry>)
    requires es != []
    ensures EventsFit(es) <==> EventFits(es[0]) && EventsFit(es[1..])
  {
    if EventFits(es[0]) && EventsFit(es[1..]) {
      forall i | 0 <= i < |es| ensures EventFits(es[i]) {
        if i > 0 { assert es[i] == es[1..][i - 1]; }
      }
    }
  }

  lemma {:induction false} EventsBody(es: seq<LogEntry>)
    requires LogDecodes(es)
    ensures AllFit(BodyLines(EventChunks(es)), STREAM_LINE_LIMIT) <==> EventsFit(es)
    ensures AllWireable(EventChunks(es))
  {
    if es != [] {
      var chunks := EventChunks(es);
      assert chunks[1..] == EventChunks(es[1..]);
      EventsBody(es[1..]);
      BodyStep(chunks);
      FitMore(ChunkLines(chunks[0]), BodyLines(chunks[1..]));
      EventFitsIff(es[0]);
      EventsFitCons(es);
    }
  }

  /** The text served for these entries passes the client's scanner iff each of them fits. */
  lemma ServedFitsIff(es: seq<LogEntry>)
    requires LogDecodes(es)
    ensures !Arrived(EventChunks(es)).tooLong <==> EventsFit(es)
  {
    EventsBody(es);
    ArrivedPassed(EventChunks(es));
    StreamFitsIff(EventChunks(es));
  }

  lemma {:induction false} LostIff(chunks: seq<Chunk>)
    ensures AllFit(BodyLines(chunks), STREAM_LINE_LIMIT) ==> FitEvents(chunks) == Deliveries(chunks)
    ensures !AllFit(BodyLines(chunks), STREAM_LINE_LIMIT) ==> |FitEvents(chunks)| < |Deliveries(chunks)|
  {
    if chunks != [] {
      BodyStep(chunks);
      FitMore(ChunkLines(chunks[0]), BodyLines(chunks[1..]));
      if ChunkFits(chunks[0]) { LostIff(chunks[1..]); } else if chunks[0].KeepAlive? { KeepAliveFits(); }
    }
  }

  // ------------------------------------------------------- cuts inside a line

  /** The client takes the text for a change: `data: ` and something that parses. */
  predicate TakenData(text: string) { Classify(text).Data? && Classify(text).change.Some? }

  predicate NamesNoReset(kind: Kind) { kind.Named? ==> TypeOf(kind.name) != ResetType }

  predicate NoResets(kinds: seq<Kind>) { forall i :: 0 <= i < |kinds| ==> NamesNoReset(kinds[i]) }

  lemma {:induction false} NeverResets(f: Fields, kinds: seq<Kind>)
    requires f.kind != ResetType && NoResets(kinds)
    ensures FieldsAfter(f, kinds).kind != ResetType && FindReset(f, kinds).None?
    decreases |kinds|
  {
    if kinds != [] {
      assert NamesNoReset(kinds[0]);
      NeverResets(Feed(f, kinds[0]), kinds[1..]);
    }
  }

  lemma LastLine(lines: seq<string>, text: string)
    requires FieldsAfter(AT_START, Kinds(lines)).kind != ResetType && FindReset(AT_START, Kinds(lines)).None?
    ensures var act := ActOn(FieldsAfter(AT_START, Kinds(lines)), Classify(text));
            !act.Reset? && Received(lines + [text]) == Received(lines) + if act.Take? then [act.d] else []
  {
    var f := FieldsAfter(AT_START, Kinds(lines));
    KindsConcat(lines, [text]);
    assert Kinds([text]) == [Classify(text)] + [];
    DeliverThrough(AT_START, Kinds(lines), Kinds([text]));
    OneLine(f, Classify(text), []);
  }

  lemma ChunkNames(chunk: Chunk)
    ensures NoResets(Kinds(ChunkLines(chunk)))
  {
    match chunk
    case KeepAlive => assert Kinds(ChunkLines(KeepAlive)) == [Comment, Blank];
    case Event(e) => EventKinds(e);
  }

  lemma {:induction false} BodyNames(chunks: seq<Chunk>)
    ensures NoResets(Kinds(BodyLines(chunks)))
  {
    if chunks != [] {
      BodyStep(chunks);
      ChunkNames(chunks[0]);
      BodyNames(chunks[1..]);
      KindsConcat(ChunkLines(chunks[0]), BodyLines(chunks[1..]));
    }
  }

  lemma PreambleNames()
    ensures NoResets(Kinds(PREAMBLE))
  {
    ClassifyFixed();
    assert Kinds(PREAMBLE) == [Comment, Retry, Blank];
  }

  lemma StreamNames(chunks: seq<Chunk>, k: nat)
    requires k <= |StreamLines(chunks)|
    ensures var kinds := Kinds(StreamLines(chunks)[..k]);
            FieldsAfter(AT_START, kinds).kind != ResetType && FindReset(AT_START, kinds).None?
  {
    BodyNames(chunks);
    PreambleNames();
    KindsConcat(PREAMBLE, BodyLines(chunks));
    assert Kinds(StreamLines(chunks)[..k]) == Kinds(StreamLines(chunks))[..k];
    NeverResets(AT_START, Kinds(StreamLines(chunks)[..k]));
  }

  /** What arrives of a response that breaks off within line k, after j characters of it. */
  function CutText(lines: seq<string>, k: nat, j: nat): string
    requires k < |lines| && j <= |lines[k]|
  {
    Unlines(lines[..k]) + lines[k][..j]
  }

  predicate FitTo(lines: seq<string>, k: nat, j: nat)
    requires k < |lines| && j <= |lines[k]|
  {
    AllFit(lines[..k], STREAM_LINE_LIMIT) && ByteSize(lines[k][..j]) < STREAM_LINE_LIMIT
  }

  lemma CutScanned(lines: seq<string>, k: nat, j: nat)
    requires k < |lines| && j <= |lines[k]| && Unbroken(lines) && FitTo(lines, k, j)
    ensures ScanLines(CutText(lines, k, j), STREAM_LINE_LIMIT).lines ==
            lines[..k] + if j == 0 then [] else [lines[k][..j]]
  {
    assert NoBreak(lines[k]);
    UnbrokenLines(lines[..k]);
    ScanFragment(lines[..k], lines[k][..j], STREAM_LINE_LIMIT);
  }

  /** A response may break off anywhere. As long as what is left of the last line is not taken
      for a change, the client has a beginning of the events. */
  lemma CutDelivers(chunks: seq<Chunk>, k: nat, j: nat)
    requires AllWireable(chunks) && k < |StreamLines(chunks)| && j <= |StreamLines(chunks)[k]|
    requires FitTo(StreamLines(chunks), k, j) && (j > 0 ==> !TakenData(StreamLines(chunks)[k][..j]))
    ensures Received(ScanLines(CutText(StreamLines(chunks), k, j), STREAM_LINE_LIMIT).lines) <= Deliveries(chunks)
  {
    var lines := StreamLines(chunks);
    StreamUnbroken(chunks);
    CutScanned(lines, k, j);
    CutDeliversPrefix(lines, k);
    NeverReset(chunks);
    if j > 0 {
      StreamNames(chunks, k);
      LastLine(lines[..k], lines[k][..j]);
    } else {
      assert lines[..k] + [] == lines[..k];
    }
  }

  /** The beginnings of a payload that parse: at least a digit, and not just the id and the
      space. What they say is never the change itself. */
  lemma PayloadCut(c: Change, j: nat)
    requires Decodable(c) && j < |Payload(c)|
    ensures ParseData(Payload(c)[..j]).Some? <==>
            j > (if c.qid < 0 then 1 else 0) && j != |FormatInt(c.qid)| + 1
    ensures ParseData(Payload(c)[..j]).Some? ==> ParseData(Payload(c)[..j]).value != (c.qid, RawText(c))
  {
    var n, text := FormatInt(c.qid), Payload(c)[..j];
    FormatIntAvoids(c.qid, ' ');
    if j <= |n| {
      assert text == n[..j] && text + "" == text;
      RunLengthPrefix(text, "", ' ');
      NumberCut(c.qid, j);
      if j == |n| {
        assert n[..j] == n;
        ParseFormatInt(c.qid);
      }
    } else if j == |n| + 1 {
      assert text == n + " ";
      RunLengthPrefix(n, " ", ' ');
    } else {
      assert text == FormatData(c.qid, RawText(c)[..j - |n| - 1]);
      DataRoundTrip(c.qid, RawText(c)[..j - |n| - 1]);
    }
  }

  /** What a beginning of a payload says fits on a line. */
  lemma CutPayloadPlain(c: Change, j: nat)
    requires Decodable(c) && j < |Payload(c)| && ParseData(Payload(c)[..j]).Some?
    ensures var raw := ParseData(Payload(c)[..j]).value.1;
            raw == "" || Plain(raw)
  {
    var n, text := FormatInt(c.qid), Payload(c)[..j];
    PayloadCut(c, j);
    DecodableIsPlain(c);
    if j <= |n| {
      FormatIntAvoids(c.qid, ' ');
      assert text == n[..j] && text + "" == text;
      RunLengthPrefix(text, "", ' ');
    } else {
      assert text == FormatData(c.qid, RawText(c)[..j - |n| - 1]);
      DataRoundTrip(c.qid, RawText(c)[..j - |n| - 1]);
    }
  }

  lemma NumberCut(n: int, j: nat)
    requires IsInt64(n) && j <= |FormatInt(n)|
    ensures ParseInt64(FormatInt(n)[..j]).Some? <==> j > if n < 0 then 1 else 0
    ensures j < |FormatInt(n)| ==> ParseInt64(FormatInt(n)[..j]) != Some(n)
  {
    if j == |FormatInt(n)| {
      assert FormatInt(n)[..j] == FormatInt(n);
      ParseFormatInt(n);
    } else {
      PrefixReadsElse(n, j);
      if n < 0 { NegativeCut(-n, j); } else { NaturalCut(n, j); }
    }
  }

  lemma NegativeCut(n: nat, j: nat)
    requires 0 < n && IsInt64(0 - n) && j < |FormatInt(0 - n)|
    ensures ParseInt64(FormatInt(0 - n)[..j]).Some? <==> j > 1
  {
    var p := FormatInt(0 - n)[..j];
    if j > 1 {
      assert p[1..] == FormatNat(n)[..j - 1];
      PrefixSmaller(n, j - 1);
    }
  }

  lemma NaturalCut(n: nat, j: nat)
    requires IsInt64(n) && j < |FormatNat(n)|
    ensures ParseInt64(FormatNat(n)[..j]).Some? <==> j > 0
  {
    if j > 0 {
      PrefixSmaller(n, j);
      assert IsDigit(FormatNat(n)[..j][0]);
    }
  }

  lemma {:induction false} DeliveriesConcat(a: seq<Chunk>, b: seq<Chunk>)
    ensures Deliveries(a + b) == Deliveries(a) + Deliveries(b)
  {
    if a == [] {
      assert a + b == b;
    } else {
      assert (a + b)[1..] == a[1..] + b;
      DeliveriesConcat(a[1..], b);
      Regroup(EventOf(a[0]), Deliveries(a[1..]), Deliveries(b));
    }
  }

  lemma PrefixIff(a: seq<Delivery>, x: seq<Delivery>, y: Delivery, b: seq<Delivery>)
    requires |x| <= 1 && (|x| == 1 ==> x[0] != y)
    ensures a + x <= a + [y] + b <==> x == []
  {
    if |x| == 1 { assert (a + x)[|a|] == x[0] && (a + [y] + b)[|a|] == y; }
  }

  lemma EventBetween(chunks: seq<Chunk>, e: LogEntry, rest: seq<Chunk>)
    ensures Deliveries(chunks + [Event(e)] + rest) == Deliveries(chunks) + [DeliveryOf(e)] + Deliveries(rest)
  {
    DeliveriesConcat(chunks, [Event(e)]);
    DeliveriesConcat(chunks + [Event(e)], rest);
    assert Deliveries([Event(e)]) == [DeliveryOf(e)] + Deliveries([]);
  }

  /** The lines before the payload of an event, after whole chunks. */
  function UpToPayload(chunks: seq<Chunk>, e: LogEntry): seq<string> {
    StreamLines(chunks) + ["id: " + IdText(e.id), "event: change"]
  }

  lemma HeadAfter(kinds: seq<Kind>, id: string)
    requires FindReset(AT_START, kinds).None?
    ensures var all := kinds + [Id(id), Named("change")];
            && Deliver(AT_START, all) == Deliver(AT_START, kinds) && FindReset(AT_START, all).None?
            && FieldsAfter(AT_START, all) == Fields(ChangeType, id)
  {
    var head, f := [Id(id), Named("change")], FieldsAfter(AT_START, kinds);
    DeliverThrough(AT_START, kinds, head);
    FieldsThrough(AT_START, kinds, head);
    ResetThrough(AT_START, kinds, head);
    DeliverHead(f, id);
    TwoFields(f, id);
  }

  lemma BeforePayload(chunks: seq<Chunk>, e: LogEntry)
    ensures var lines := UpToPayload(chunks, e);
            && Received(lines) == Deliveries(chunks) && FindReset(AT_START, Kinds(lines)).None?
            && FieldsAfter(AT_START, Kinds(lines)) == Fields(ChangeType, IdText(e.id))
  {
    ClassifyId(IdText(e.id));
    ClassifyFixed();
    assert Kinds(["id: " + IdText(e.id), "event: change"]) == [Id(IdText(e.id)), Named("change")];
    KindsConcat(StreamLines(chunks), ["id: " + IdText(e.id), "event: change"]);
    NeverReset(chunks);
    HeadAfter(Kinds(StreamLines(chunks)), IdText(e.id));
  }

  lemma TwoFields(f: Fields, id: string)
    ensures FieldsAfter(f, [Id(id), Named("change")]) == Fields(ChangeType, id)
  {
    var kinds := [Id(id), Named("change")];
    assert kinds[1..] == [Named("change")] && kinds[1..][1..] == [];
    assert FieldsAfter(f.(id := id), [Named("change")]) == FieldsAfter(Fields(ChangeType, id), []) by {
      assert [Named("change")][1..] == [];
    }
  }

  lemma {:induction false} FieldsThrough(f: Fields, a: seq<Kind>, b: seq<Kind>)
    ensures FieldsAfter(f, a + b) == FieldsAfter(FieldsAfter(f, a), b)
    decreases |a|
  {
    if a == [] {
      assert a + b == b;
    } else {
      assert (a + b)[1..] == a[1..] + b;
      FieldsThrough(Feed(f, a[0]), a[1..], b);
    }
  }

  lemma {:induction false} ResetThrough(f: Fields, a: seq<Kind>, b: seq<Kind>)
    requires FindReset(f, a).None?
    ensures FindReset(f, a + b) == FindReset(FieldsAfter(f, a), b)
    decreases |a|
  {
    if a == [] {
      assert a + b == b;
    } else {
      assert (a + b)[1..] == a[1..] + b;
      ResetThrough(Feed(f, a[0]), a[1..], b);
    }
  }

  /** What the client takes the beginning of a payload for. */
  function TakenFor(e: LogEntry, j: nat): seq<Delivery>
    requires j <= |Payload(e.change)|
  {
    match ParseData(Payload(e.change)[..j])
    case None => []
    case Some((q, raw)) => [Delivery(IdText(e.id), q, raw)]
  }

  lemma PayloadTaken(chunks: seq<Chunk>, e: LogEntry, j: nat)
    requires j <= |Payload(e.change)|
    ensures Received(UpToPayload(chunks, e) + ["data: " + Payload(e.change)[..j]]) ==
            Deliveries(chunks) + TakenFor(e, j)
  {
    var data := Payload(e.change)[..j];
    BeforePayload(chunks, e);
    ClassifyData(data);
    LastLine(UpToPayload(chunks, e), "data: " + data);
  }

  lemma HeadUnbroken(chunks: seq<Chunk>, e: LogEntry)
    requires AllWireable(chunks)
    ensures AreLines(UpToPayload(chunks, e))
  {
    StreamUnbroken(chunks);
    assert NoBreak(IdText(e.id));
    UnbrokenMore(StreamLines(chunks), ["id: " + IdText(e.id), "event: change"]);
    UnbrokenLines(UpToPayload(chunks, e));
  }

  lemma PayloadScanned(chunks: seq<Chunk>, e: LogEntry, j: nat)
    requires AllWireable(chunks) && Decodable(e.change) && j <= |Payload(e.change)|
    requires AllFit(UpToPayload(chunks, e), STREAM_LINE_LIMIT)
    requires ByteSize("data: " + Payload(e.change)[..j]) < STREAM_LINE_LIMIT
    ensures ScanLines(Unlines(UpToPayload(chunks, e)) + ("data: " + Payload(e.change)[..j]), STREAM_LINE_LIMIT).lines ==
            UpToPayload(chunks, e) + ["data: " + Payload(e.change)[..j]]
  {
    var lines, last := UpToPayload(chunks, e), "data: " + Payload(e.change)[..j];
    HeadUnbroken(chunks, e);
    PayloadUnbroken(e.change);
    ScanFragment(lines, last, STREAM_LINE_LIMIT);
  }

  /** A response that breaks off within a payload: the client has a beginning of the events
      iff the beginning of the payload does not parse. Otherwise it applies a change that was
      never made, under the id of the event. */
  lemma CutPayloadIff(chunks: seq<Chunk>, e: LogEntry, rest: seq<Chunk>, j: nat, received: seq<Delivery>)
    requires AllWireable(chunks) && Decodable(e.change) && j < |Payload(e.change)|
    requires AllFit(UpToPayload(chunks, e), STREAM_LINE_LIMIT)
    requires ByteSize("data: " + Payload(e.change)[..j]) < STREAM_LINE_LIMIT
    requires received == Received(
        ScanLines(Unlines(UpToPayload(chunks, e)) + ("data: " + Payload(e.change)[..j]), STREAM_LINE_LIMIT).lines)
    ensures received == Deliveries(chunks) + TakenFor(e, j)
    ensures received <= Deliveries(chunks + [Event(e)] + rest) <==> ParseData(Payload(e.change)[..j]).None?
  {
    PayloadScanned(chunks, e, j);
    PayloadTaken(chunks, e, j);
    PayloadCut(e.change, j);
    EventBetween(chunks, e, rest);
    PrefixIff(Deliveries(chunks), TakenFor(e, j), DeliveryOf(e), Deliveries(rest));
  }

  /** A reset delivers nothing and reaches the client with its data. */
  lemma ResetReceived(data: string)
    ensures Received(ResetLines(data)) == [] && ResetIn(ResetLines(data)) == Some(data)
  {
    ClassifyFixed();
    ClassifyData(data);
    assert Kinds(ResetLines(data)) == [Retry] + ([Named("reset")] + ([DataKind(data)] + [Blank]));
    OneLine(AT_START, Retry, [Named("reset")] + ([DataKind(data)] + [Blank]));
    OneLine(AT_START, Named("reset"), [DataKind(data)] + [Blank]);
    OneLine(Fields(ResetType, ""), DataKind(data), [Blank]);
  }
}
