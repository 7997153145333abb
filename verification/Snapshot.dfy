/** The snapshot file: its lines and their text, the frames they are packed in, the
    generator that writes it and the reading of it from any checkpoint. */
module Snapshot {
  import opened Text
  import opened Mappings
  import opened EntityMaps
  import opened Store
  import opened StreamIds

  const SNAPSHOT_FRAME_SIZE: nat := 10000

  /** The limit of the reader's scanner. */
  const SNAPSHOT_LINE_LIMIT: nat := 4 * 1024 * 1024

  datatype Line =
    | Checkpoint(offset: nat, before: nat)
    | Item(qid: Qid, raw: Raw)
    | Done(position: nat, count: nat)

  // ------------------------------------------------------------- line format

  const CHECKPOINT_HEAD := "{\"type\":\"checkpoint\",\"v\":1,\"offset\":"
  const CHECKPOINT_MID := ",\"entities_before\":"
  const DONE_HEAD := "{\"type\":\"done\",\"v\":1,\"stream_id\":\""
  const DONE_MID := "\",\"entities\":"

  function LineText(line: Line): string {
    match line
    case Item(q, raw) => FormatInt(q) + " " + raw
    case Checkpoint(offset, before) => CHECKPOINT_HEAD + FormatNat(offset) + CHECKPOINT_MID + FormatNat(before) + "}"
    case Done(position, count) => DONE_HEAD + IdText(position) + DONE_MID + FormatNat(count) + "}"
  }

  function StripPrefix(s: string, p: string): Option<string> {
    if p <= s then Some(s[|p|..]) else None
  }

  /** What stands before and after the first `stop` character of s. */
  function CutAt(s: string, stop: char): Option<(string, string)> {
    var n := RunLength(s, stop);
    if n == |s| then None else Some((s[..n], s[n..]))
  }

  function ParseCount(s: string): Option<nat> {
    match ParseInt64(s)
    case None => None
    case Some(n) => if n < 0 then None else Some(n)
  }

  /** ParseSnapshotEntityLine. */
  function ParseItem(s: string): Option<Line> {
    var sep := RunLength(s, ' ');
    if sep == 0 || sep >= |s| - 1 then None
    else
      match ParseInt64(s[..sep])
      case None => None
      case Some(q) => Some(Item(q, s[sep + 1..]))
  }

  /** "<head><field><mid><count>}", with the field read up to the first `stop`. */
  function ParseControl(s: string, head: string, stop: char, mid: string): Option<(string, nat)> {
    match StripPrefix(s, head)
    case None => None
    case Some(rest) =>
      match CutAt(rest, stop)
      case None => None
      case Some((field, more)) =>
        match StripPrefix(more, mid)
        case None => None
        case Some(tail) =>
          if tail == "" || tail[|tail| - 1] != '}' then None
          else
            match ParseCount(tail[..|tail| - 1])
            case None => None
            case Some(n) => Some((field, n))
  }

  /** ClassifySnapshotLine and the parsers behind it. */
  function ParseLine(s: string): Option<Line> {
    if s == "" then None
    else if s[0] == '{' then
      match ParseControl(s, CHECKPOINT_HEAD, ',', CHECKPOINT_MID)
      case Some((offset, before)) => (
        match ParseCount(offset)
        case Some(o) => Some(Checkpoint(o, before))
        case None => None)
      case None =>
        match ParseControl(s, DONE_HEAD, '\"', DONE_MID)
        case Some((id, count)) => if id == "" then None else Some(Done(Rank(id), count))
        case None => None
    else if IsDigit(s[0]) then ParseItem(s)
    else None
  }

  /** The lines the format can carry: counts and offsets are int64, ids are stream ids, and
      an entity line must start with a digit. */
  predicate Printable(line: Line) {
    match line
    case Item(q, raw) => q >= 0
    case Checkpoint(offset, before) => IsInt64(offset) && IsInt64(before)
    case Done(position, count) => position < BASE * BASE && IsInt64(count)
  }

  /** A line that also fits the reader's buffer. */
  predicate Fits(line: Line) { ByteSize(LineText(line)) < SNAPSHOT_LINE_LIMIT }

  predicate Acceptable(line: Line) { Printable(line) && Fits(line) }

  predicate AllAcceptable(lines: seq<Line>) { forall i :: 0 <= i < |lines| ==> Acceptable(lines[i]) }

  lemma ParseFormatNat(n: nat)
    ensures ParseCount(FormatNat(n)) == if IsInt64(n) then Some(n) else None
  {
    if IsInt64(n) { ParseFormatInt(n); } else { DigitsValueFormatNat(n); }
  }

  lemma StripHead(p: string, rest: string)
    ensures StripPrefix(p + rest, p) == Some(rest)
  {
    assert (p + rest)[|p|..] == rest;
  }

  lemma CutAfter(field: string, more: string, stop: char)
    requires stop !in field && more != "" && more[0] == stop
    ensures CutAt(field + more, stop) == Some((field, more))
  {
    RunLengthPrefix(field, more, stop);
    assert (field + more)[..|field|] == field && (field + more)[|field|..] == more;
  }

  lemma CountBeforeBrace(n: nat)
    ensures var tail := FormatNat(n) + "}";
            tail[|tail| - 1] == '}' && tail[..|tail| - 1] == FormatNat(n)
  {
  }

  lemma ControlRoundTrip(head: string, field: string, stop: char, mid: string, n: nat)
    requires stop !in field && mid != "" && mid[0] == stop
    ensures ParseControl(head + field + mid + FormatNat(n) + "}", head, stop, mid) ==
            if IsInt64(n) then Some((field, n)) else None
  {
    var tail := FormatNat(n) + "}";
    Regroup(head, field, mid, FormatNat(n), "}");
    StripHead(head, field + (mid + tail));
    CutAfter(field, mid + tail, stop);
    StripHead(mid, tail);
    CountBeforeBrace(n);
    ParseFormatNat(n);
  }

  lemma Regroup(a: string, b: string, c: string, d: string, e: string)
    ensures a + b + c + d + e == a + (b + (c + (d + e)))
  {
  }

  lemma ItemRoundTrip(q: Qid, raw: Raw)
    requires raw != ""
    ensures ParseItem(FormatInt(q) + " " + raw) == Some(Item(q, raw))
  {
    var s := FormatInt(q) + (" " + raw);
    assert s == FormatInt(q) + " " + raw;
    FormatIntAvoids(q, ' ');
    RunLengthPrefix(FormatInt(q), " " + raw, ' ');
    assert s[..|FormatInt(q)|] == FormatInt(q) && s[|FormatInt(q)| + 1..] == raw;
    ParseFormatInt(q);
  }

  /** Exactly the printable entity lines survive: the classifier refuses the line of a
      negative id, which the store itself accepts. */
  lemma ItemAcceptedIff(q: Qid, raw: Raw)
    requires raw != ""
    ensures ParseLine(LineText(Item(q, raw))) == (if q >= 0 then Some(Item(q, raw)) else None)
  {
    ItemRoundTrip(q, raw);
    assert LineText(Item(q, raw))[0] == FormatInt(q)[0];
  }

  lemma NotACheckpoint(position: nat, count: nat)
    ensures ParseControl(LineText(Done(position, count)), CHECKPOINT_HEAD, ',', CHECKPOINT_MID) == None
  {
    assert LineText(Done(position, count))[9] == 'd' && CHECKPOINT_HEAD[9] == 'c';
  }

  lemma NotADone(offset: nat, before: nat)
    ensures ParseControl(LineText(Checkpoint(offset, before)), DONE_HEAD, '\"', DONE_MID) == None
  {
    assert LineText(Checkpoint(offset, before))[9] == 'c' && DONE_HEAD[9] == 'd';
  }

  lemma PositionReadsIff(position: nat)
    ensures Rank(IdText(position)) == position <==> position < BASE * BASE
  {
    if position < BASE * BASE { RankIdText(position); }
  }

  /** Printing and parsing undo each other exactly for the printable lines. */
  lemma LineReadsIff(line: Line)
    requires line.Item? ==> line.raw != ""
    ensures ParseLine(LineText(line)) == Some(line) <==> Printable(line)
  {
    match line
    case Item(q, raw) => ItemAcceptedIff(q, raw);
    case Checkpoint(offset, before) =>
      ControlRoundTrip(CHECKPOINT_HEAD, FormatNat(offset), ',', CHECKPOINT_MID, before);
      NotADone(offset, before);
      ParseFormatNat(offset);
    case Done(position, count) =>
      NotACheckpoint(position, count);
      ControlRoundTrip(DONE_HEAD, IdText(position), '\"', DONE_MID, count);
      PositionReadsIff(position);
  }

  // --------------------------------------------------------------- fragments

  /** What of an entity line cut after k characters the reader takes for its mappings. */
  function TakenRaw(q: Qid, raw: Raw, k: nat): Option<Raw>
    requires k < |LineText(Item(q, raw))|
  {
    var head := |FormatInt(q)| + 1;
    if q >= 0 && k > head then Some(raw[..k - head]) else None
  }

  lemma ItemFragment(q: Qid, raw: Raw, k: nat)
    requires k < |LineText(Item(q, raw))|
    ensures ParseLine(LineText(Item(q, raw))[..k]) ==
            match TakenRaw(q, raw, k) case Some(torn) => Some(Item(q, torn)) case None => None
  {
    var n, text := FormatInt(q), LineText(Item(q, raw))[..k];
    if k <= |n| + 1 {
      assert text == (n + " ")[..k];
      FormatIntAvoids(q, ' ');
      ShortFragment(n, k);
      if k > 0 { assert text[0] == n[0]; }
    } else {
      assert text == LineText(Item(q, raw[..k - |n| - 1]));
      ItemAcceptedIff(q, raw[..k - |n| - 1]);
    }
  }

  lemma ShortFragment(n: string, k: nat)
    requires ' ' !in n && k <= |n| + 1
    ensures ParseItem((n + " ")[..k]) == None
  {
    var text := (n + " ")[..k];
    if k == |n| + 1 {
      assert text == n + " ";
      RunLengthPrefix(n, " ", ' ');
    } else {
      assert text == n[..k] && text + "" == text;
      RunLengthPrefix(text, "", ' ');
    }
  }

  lemma OneBrace(head: string, tail: string)
    requires head != "" && head[0] == '{' && '}' !in head && '}' !in tail
    ensures var full := head + tail + "}";
            full[0] == '{' && '}' !in full[..|full| - 1]
  {
    var full := head + tail + "}";
    assert full[..|full| - 1] == head + tail;
  }

  lemma ControlText(line: Line)
    requires !line.Item?
    ensures LineText(line) != "" && LineText(line)[0] == '{' && '}' !in LineText(line)[..|LineText(line)| - 1]
  {
    match line
    case Checkpoint(offset, before) =>
      OneBrace(CHECKPOINT_HEAD + FormatNat(offset) + CHECKPOINT_MID, FormatNat(before));
    case Done(position, count) =>
      assert '}' !in IdText(position);
      OneBrace(DONE_HEAD + IdText(position) + DONE_MID, FormatNat(count));
  }

  lemma ControlFragment(line: Line, k: nat)
    requires !line.Item? && k < |LineText(line)|
    ensures ParseLine(LineText(line)[..k]) == None
    ensures k > 0 ==> LineText(line)[..k][0] == '{'
  {
    var full, text := LineText(line), LineText(line)[..k];
    ControlText(line);
    if k > 0 {
      assert text[k - 1] in full[..|full| - 1];
      NoControl(text, CHECKPOINT_HEAD, ',', CHECKPOINT_MID);
      NoControl(text, DONE_HEAD, '\"', DONE_MID);
    }
  }

  lemma NoControl(s: string, head: string, stop: char, mid: string)
    requires s != "" && s[|s| - 1] != '}'
    ensures ParseControl(s, head, stop, mid) == None
  {
  }

  /** The reader takes the beginning of a line for a whole one exactly when it is the digits of
      an id, a space and at least one character. */
  lemma FragmentTakenIff(line: Line, k: nat)
    requires k < |LineText(line)|
    ensures ParseLine(LineText(line)[..k]).Some? <==> line.Item? && line.qid >= 0 && k > |FormatInt(line.qid)| + 1
    ensures ParseLine(LineText(line)[..k]).Some? ==>
              ParseLine(LineText(line)[..k]) == Some(Item(line.qid, line.raw[..k - |FormatInt(line.qid)| - 1]))
  {
    if line.Item? { ItemFragment(line.qid, line.raw, k); } else { ControlFragment(line, k); }
  }

  lemma EndsLine(head: string, tail: string)
    requires '\n' !in head && '\n' !in tail && tail != "" && tail[|tail| - 1] != '\r'
    ensures IsLine(head + tail)
  {
  }

  lemma ItemIsLine(q: Qid, raw: Raw)
    requires Plain(raw)
    ensures IsLine(LineText(Item(q, raw)))
  {
    FormatIntAvoids(q, '\n');
    EndsLine(FormatInt(q) + " ", raw);
  }

  lemma CheckpointIsLine(offset: nat, before: nat)
    ensures IsLine(LineText(Checkpoint(offset, before)))
  {
    EndsLine(CHECKPOINT_HEAD + FormatNat(offset) + CHECKPOINT_MID + FormatNat(before), "}");
  }

  lemma DoneIsLine(position: nat, count: nat)
    ensures IsLine(LineText(Done(position, count)))
  {
    assert '\n' !in IdText(position);
    EndsLine(DONE_HEAD + IdText(position) + DONE_MID + FormatNat(count), "}");
  }

  lemma LineTextIsLine(line: Line)
    requires line.Item? ==> Plain(line.raw)
    ensures IsLine(LineText(line))
  {
    match line
    case Item(q, raw) => ItemIsLine(q, raw);
    case Checkpoint(offset, before) => CheckpointIsLine(offset, before);
    case Done(position, count) => DoneIsLine(position, count);
  }

  // ------------------------------------------------------------------ frames

  /** A small frame codec with the one property of compressed frames that resuming rests
      on: concatenated frames decode to concatenated contents (RFC 8878 section 3.1). */
  datatype Block = Data(c: char) | End

  function EncodeFrame(text: string): (f: seq<Block>)
    ensures |f| > 0
  {
    if text == "" then [End] else [Data(text[0])] + EncodeFrame(text[1..])
  }

  /** The content of a sequence of frames; a frame that is cut off is an error. */
  function Decode(blocks: seq<Block>, inFrame: bool): Option<string> {
    if blocks == [] then if inFrame then None else Some("")
    else
      match Decode(blocks[1..], blocks[0].Data?)
      case None => None
      case Some(text) => Some(if blocks[0].Data? then [blocks[0].c] + text else text)
  }

  lemma {:induction false} DecodeConcat(a: seq<Block>, b: seq<Block>, inFrame: bool)
    requires Decode(a, inFrame).Some? && Decode(b, false).Some?
    ensures Decode(a + b, inFrame) == Some(Decode(a, inFrame).value + Decode(b, false).value)
  {
    if a == [] {
      assert a + b == b && "" + Decode(b, false).value == Decode(b, false).value;
    } else {
      assert (a + b)[1..] == a[1..] + b;
      DecodeConcat(a[1..], b, a[0].Data?);
      var x, y := Decode(a[1..], a[0].Data?).value, Decode(b, false).value;
      if a[0].Data? { assert [a[0].c] + (x + y) == ([a[0].c] + x) + y; }
    }
  }

  lemma {:induction false} DecodeFrame(text: string, inFrame: bool)
    ensures Decode(EncodeFrame(text), inFrame) == Some(text)
  {
    if text != "" {
      DecodeFrame(text[1..], true);
      assert EncodeFrame(text)[1..] == EncodeFrame(text[1..]);
      assert [text[0]] + text[1..] == text;
    }
  }

  // --------------------------------------------------------------- the lines

  function Texts(lines: seq<Line>): seq<string> {
    seq(|lines|, i requires 0 <= i < |lines| => LineText(lines[i]))
  }

  function Render(lines: seq<Line>): string { Unlines(Texts(lines)) }

  lemma RenderConcat(a: seq<Line>, b: seq<Line>)
    ensures Render(a + b) == Render(a) + Render(b)
  {
    assert Texts(a + b) == Texts(a) + Texts(b);
    UnlinesConcat(Texts(a), Texts(b));
  }

  /** The entities a run of lines carries, as changes to apply in order. */
  function Records(lines: seq<Line>): seq<Change> {
    if lines == [] then []
    else
      var line := lines[|lines| - 1];
      Records(lines[..|lines| - 1]) + if line.Item? then [Change(line.qid, Some(line.raw))] else []
  }

  lemma {:induction false} RecordsConcat(a: seq<Line>, b: seq<Line>)
    ensures Records(a + b) == Records(a) + Records(b)
  {
    if b == [] {
      assert a + b == a;
    } else {
      assert (a + b)[..|a + b| - 1] == a + b[..|b| - 1];
      RecordsConcat(a, b[..|b| - 1]);
    }
  }

  lemma RecordsAppend(lines: seq<Line>, line: Line)
    ensures Records(lines + [line]) == Records(lines) + if line.Item? then [Change(line.qid, Some(line.raw))] else []
  {
    assert (lines + [line])[..|lines|] == lines;
  }

  /** A file a client can trust: it starts with a checkpoint at offset 0, every checkpoint
      counts the entity lines before it, offsets grow, only the last line is a done line, with
      the position and the number of entity lines, and every value fits on its line. */
  predicate WellFormedFile(lines: seq<Line>, position: nat) {
    && |lines| >= 2 && lines[0] == Checkpoint(0, 0)
    && CheckpointsCount(lines)
    && OffsetsGrow(lines)
    && lines[|lines| - 1] == Done(position, |Records(lines)|)
    && AllPlain(Records(lines))
    && forall i :: 0 <= i < |lines| - 1 ==> !lines[i].Done?
  }

  /** The values of a file are those of its entity lines. */
  lemma {:induction false} ItemRecorded(lines: seq<Line>, i: nat)
    requires i < |lines| && lines[i].Item?
    ensures Change(lines[i].qid, Some(lines[i].raw)) in Records(lines)
  {
    var n := |lines| - 1;
    if i < n {
      ItemRecorded(lines[..n], i);
    } else {
      assert Records(lines)[|Records(lines[..n])|] == Change(lines[n].qid, Some(lines[n].raw));
    }
  }

  lemma ItemsDecode(lines: seq<Line>)
    requires AllDecodable(Records(lines))
    ensures forall i :: 0 <= i < |lines| && lines[i].Item? ==> Decodes(lines[i].raw)
  {
    forall i | 0 <= i < |lines| && lines[i].Item? ensures Decodes(lines[i].raw) {
      ItemRecorded(lines, i);
    }
  }

  lemma ItemsPlain(lines: seq<Line>)
    requires AllPlain(Records(lines))
    ensures PlainItems(lines)
  {
    forall i | 0 <= i < |lines| && lines[i].Item? ensures Plain(lines[i].raw) {
      ItemRecorded(lines, i);
    }
  }

  predicate PlainItems(lines: seq<Line>) {
    forall i :: 0 <= i < |lines| && lines[i].Item? ==> Plain(lines[i].raw)
  }

  predicate CheckpointsCount(lines: seq<Line>) {
    forall i :: 0 <= i < |lines| && lines[i].Checkpoint? ==> lines[i].before == |Records(lines[..i])|
  }

  predicate OffsetsGrow(lines: seq<Line>) {
    forall i, j :: 0 <= i < j < |lines| && lines[i].Checkpoint? && lines[j].Checkpoint? ==>
      lines[i].offset < lines[j].offset
  }

  // --------------------------------------------------------------- generator

  /** The generator between two writes: the frames written, the lines so far with the
      number of those in closed frames, the entities so far and those in the open frame. */
  datatype Gen = Gen(out: seq<Block>, lines: seq<Line>, closed: nat, count: nat, inFrame: nat)

  function Started(): Gen { Gen([], [Checkpoint(0, 0)], 0, 0, 0) }

  function CloseFrame(g: Gen): Gen
    requires g.closed <= |g.lines|
  {
    g.(out := g.out + EncodeFrame(Render(g.lines[g.closed..])), closed := |g.lines|, inFrame := 0)
  }

  /** Close the frame and start the next one with a checkpoint. */
  function Marked(g: Gen): (r: Gen)
    requires g.closed <= |g.lines|
    ensures r.closed <= |r.lines|
  {
    var shut := CloseFrame(g);
    shut.(lines := shut.lines + [Checkpoint(|shut.out|, g.count)])
  }

  function AddLine(g: Gen, q: Qid, raw: Raw): Gen {
    g.(lines := g.lines + [Item(q, raw)], count := g.count + 1, inFrame := g.inFrame + 1)
  }

  function PutItem(g: Gen, q: Qid, raw: Raw): (r: Gen)
    requires g.closed <= |g.lines|
    ensures r.closed <= |r.lines|
  {
    AddLine(if g.inFrame == SNAPSHOT_FRAME_SIZE then Marked(g) else g, q, raw)
  }

  function PutItems(g: Gen, items: seq<(Qid, Raw)>): (r: Gen)
    requires g.closed <= |g.lines|
    ensures r.closed <= |r.lines|
  {
    if items == [] then g
    else
      var n := |items| - 1;
      PutItem(PutItems(g, items[..n]), items[n].0, items[n].1)
  }

  function Finished(g: Gen, position: nat): Gen
    requires g.closed <= |g.lines|
  {
    CloseFrame(g.(lines := g.lines + [Done(position, g.count)]))
  }

  function Concat(pages: seq<seq<(Qid, Raw)>>): seq<(Qid, Raw)> {
    if pages == [] then [] else Concat(pages[..|pages| - 1]) + pages[|pages| - 1]
  }

  /** The file for a scan that returned these entities. */
  function FileOf(items: seq<(Qid, Raw)>, position: nat): Gen {
    Finished(PutItems(Started(), items), position)
  }

  /** From the offset of checkpoint k on, the frames hold the rendered lines from k. */
  ghost predicate ReadsBack(g: Gen, k: nat)
    requires k < |g.lines| && g.lines[k].Checkpoint?
  {
    && k <= g.closed <= |g.lines| && g.lines[k].offset <= |g.out|
    && Decode(g.out[g.lines[k].offset..], false) == Some(Render(g.lines[k..g.closed]))
  }

  ghost predicate AllReadBack(g: Gen) {
    forall k :: 0 <= k < |g.lines| && g.lines[k].Checkpoint? ==> ReadsBack(g, k)
  }

  predicate SoundLines(g: Gen) {
    && g.closed < |g.lines| && g.lines[0] == Checkpoint(0, 0)
    && CheckpointsCount(g.lines) && OffsetsGrow(g.lines)
    && g.count == |Records(g.lines)|
    && (forall i :: 0 <= i < |g.lines| && g.lines[i].Checkpoint? ==> g.lines[i].offset <= |g.out|)
    && (forall i :: 0 <= i < |g.lines| ==> !g.lines[i].Done?)
  }

  lemma StartedOk()
    ensures SoundLines(Started()) && AllReadBack(Started()) && Records(Started().lines) == []
  {
    var g := Started();
    RecordsAppend([], Checkpoint(0, 0));
    assert [] + [Checkpoint(0, 0)] == g.lines;
    assert g.lines[0..0] == [];
  }

  /** Adding a line to the open frame leaves what is written alone. */
  lemma LineReadsBack(g: Gen, line: Line, next: Gen, k: nat)
    requires k < |g.lines| && g.lines[k].Checkpoint? && ReadsBack(g, k)
    requires next.lines == g.lines + [line] && next.out == g.out && next.closed == g.closed
    ensures ReadsBack(next, k)
  {
    assert next.lines[k..g.closed] == g.lines[k..g.closed];
  }

  lemma DecodeClosed(out: seq<Block>, o: nat, frame: string)
    requires o <= |out| && Decode(out[o..], false).Some?
    ensures Decode((out + EncodeFrame(frame))[o..], false) == Some(Decode(out[o..], false).value + frame)
  {
    DecodeFrame(frame, false);
    DecodeConcat(out[o..], EncodeFrame(frame), false);
    assert (out + EncodeFrame(frame))[o..] == out[o..] + EncodeFrame(frame);
  }

  lemma RenderSplit(lines: seq<Line>, k: nat, m: nat)
    requires k <= m <= |lines|
    ensures Render(lines[k..m]) + Render(lines[m..]) == Render(lines[k..|lines|])
  {
    RenderConcat(lines[k..m], lines[m..]);
    assert lines[k..m] + lines[m..] == lines[k..|lines|];
  }

  lemma CloseReadsBack(g: Gen, k: nat)
    requires k < |g.lines| && g.lines[k].Checkpoint? && ReadsBack(g, k)
    ensures ReadsBack(CloseFrame(g), k)
  {
    DecodeClosed(g.out, g.lines[k].offset, Render(g.lines[g.closed..]));
    RenderSplit(g.lines, k, g.closed);
  }

  lemma LinesStayGood(lines: seq<Line>, line: Line)
    requires CheckpointsCount(lines) && OffsetsGrow(lines)
    requires line.Checkpoint? ==> line.before == |Records(lines)|
    requires line.Checkpoint? ==> forall i :: 0 <= i < |lines| && lines[i].Checkpoint? ==> lines[i].offset < line.offset
    ensures CheckpointsCount(lines + [line]) && OffsetsGrow(lines + [line])
  {
    forall i | 0 <= i < |lines + [line]| && (lines + [line])[i].Checkpoint?
      ensures (lines + [line])[i].before == |Records((lines + [line])[..i])| {
      assert (lines + [line])[..i] == lines[..i];
      assert lines[..|lines|] == lines;
    }
  }

  lemma MarkedSound(g: Gen)
    requires SoundLines(g)
    ensures SoundLines(Marked(g)) && Records(Marked(g).lines) == Records(g.lines)
  {
    var mark := Checkpoint(|CloseFrame(g).out|, g.count);
    RecordsAppend(g.lines, mark);
    LinesStayGood(g.lines, mark);
  }

  lemma MarkedReadsBack(g: Gen)
    requires SoundLines(g) && AllReadBack(g)
    ensures AllReadBack(Marked(g))
  {
    var shut, next := CloseFrame(g), Marked(g);
    forall k | 0 <= k < |next.lines| && next.lines[k].Checkpoint? ensures ReadsBack(next, k) {
      if k < |g.lines| {
        CloseReadsBack(g, k);
        LineReadsBack(shut, next.lines[|g.lines|], next, k);
      } else {
        assert next.out[|next.out|..] == [] && next.lines[k..k] == [];
      }
    }
  }

  lemma EntityLineOk(g: Gen, q: Qid, raw: Raw, next: Gen)
    requires SoundLines(g) && AllReadBack(g) && next == AddLine(g, q, raw)
    ensures SoundLines(next) && AllReadBack(next)
    ensures Records(next.lines) == Records(g.lines) + [Change(q, Some(raw))]
  {
    RecordsAppend(g.lines, Item(q, raw));
    LinesStayGood(g.lines, Item(q, raw));
    forall k | 0 <= k < |next.lines| && next.lines[k].Checkpoint? ensures ReadsBack(next, k) {
      assert ReadsBack(g, k);
      LineReadsBack(g, Item(q, raw), next, k);
    }
  }

  lemma PutItemOk(g: Gen, q: Qid, raw: Raw)
    requires SoundLines(g) && AllReadBack(g)
    ensures SoundLines(PutItem(g, q, raw)) && AllReadBack(PutItem(g, q, raw))
    ensures Records(PutItem(g, q, raw).lines) == Records(g.lines) + [Change(q, Some(raw))]
  {
    if g.inFrame == SNAPSHOT_FRAME_SIZE {
      MarkedSound(g);
      MarkedReadsBack(g);
      EntityLineOk(Marked(g), q, raw, PutItem(g, q, raw));
    } else {
      EntityLineOk(g, q, raw, PutItem(g, q, raw));
    }
  }

  function AsChanges(items: seq<(Qid, Raw)>): seq<Change> {
    if items == [] then []
    else
      var n := |items| - 1;
      AsChanges(items[..n]) + [Change(items[n].0, Some(items[n].1))]
  }

  lemma {:induction false} PutItemsOk(items: seq<(Qid, Raw)>)
    ensures SoundLines(PutItems(Started(), items)) && AllReadBack(PutItems(Started(), items))
    ensures Records(PutItems(Started(), items).lines) == AsChanges(items)
  {
    StartedOk();
    if items != [] {
      var n := |items| - 1;
      PutItemsOk(items[..n]);
      PutItemOk(PutItems(Started(), items[..n]), items[n].0, items[n].1);
    }
  }

  lemma FinishedOk(g: Gen, position: nat)
    requires SoundLines(g) && AllReadBack(g) && AllPlain(Records(g.lines))
    ensures WellFormedFile(Finished(g, position).lines, position)
    ensures Records(Finished(g, position).lines) == Records(g.lines)
    ensures AllReadBack(Finished(g, position))
  {
    var done := Done(position, g.count);
    var last := g.(lines := g.lines + [done]);
    RecordsAppend(g.lines, done);
    LinesStayGood(g.lines, done);
    forall k | 0 <= k < |last.lines| && last.lines[k].Checkpoint? ensures ReadsBack(CloseFrame(last), k) {
      assert ReadsBack(g, k);
      LineReadsBack(g, done, last, k);
      CloseReadsBack(last, k);
    }
  }

  /** The file carries exactly the scanned entities, in order. */
  lemma FileOfOk(items: seq<(Qid, Raw)>, position: nat)
    requires AllPlain(AsChanges(items))
    ensures WellFormedFile(FileOf(items, position).lines, position)
    ensures Records(FileOf(items, position).lines) == AsChanges(items)
  {
    PutItemsOk(items);
    FinishedOk(PutItems(Started(), items), position);
  }

  // ---------------------------------------------------------- where the frames end

  /** What line i of a file for n entities is, before its done line: a checkpoint in front of every
      SNAPSHOT_FRAME_SIZE entities, which counts those before it. */
  predicate LineInPlace(items: seq<(Qid, Raw)>, line: Line, i: nat) {
    var frame, place := i / (SNAPSHOT_FRAME_SIZE + 1), i % (SNAPSHOT_FRAME_SIZE + 1);
    if place == 0 then line.Checkpoint? && line.before == frame * SNAPSHOT_FRAME_SIZE
    else
      var j := frame * SNAPSHOT_FRAME_SIZE + place - 1;
      j < |items| && line == Item(items[j].0, items[j].1)
  }

  predicate InPlace(items: seq<(Qid, Raw)>, lines: seq<Line>) {
    forall i :: 0 <= i < |lines| ==> LineInPlace(items, lines[i], i)
  }

  /** The generator after these entities: so many full frames, and one that is open. */
  predicate Framed(g: Gen, items: seq<(Qid, Raw)>, frames: nat) {
    && g.count == |items| == frames * SNAPSHOT_FRAME_SIZE + g.inFrame && g.inFrame <= SNAPSHOT_FRAME_SIZE
    && |g.lines| == frames * (SNAPSHOT_FRAME_SIZE + 1) + 1 + g.inFrame
    && (items != [] ==> g.inFrame > 0)
    && InPlace(items, g.lines)
  }

  lemma PlaceOf(frame: nat, place: nat)
    requires place <= SNAPSHOT_FRAME_SIZE
    ensures var i := frame * (SNAPSHOT_FRAME_SIZE + 1) + place;
            i / (SNAPSHOT_FRAME_SIZE + 1) == frame && i % (SNAPSHOT_FRAME_SIZE + 1) == place
  {
  }

  lemma LineKept(items: seq<(Qid, Raw)>, item: (Qid, Raw), line: Line, i: nat)
    requires LineInPlace(items, line, i)
    ensures LineInPlace(items + [item], line, i)
  {
  }

  lemma OneFramed(g: Gen, items: seq<(Qid, Raw)>, item: (Qid, Raw), frames: nat)
    requires Framed(g, items, frames) && g.closed <= |g.lines|
    ensures Framed(PutItem(g, item.0, item.1), items + [item],
                   if g.inFrame == SNAPSHOT_FRAME_SIZE then frames + 1 else frames)
  {
    var next, more := PutItem(g, item.0, item.1), items + [item];
    var full := g.inFrame == SNAPSHOT_FRAME_SIZE;
    var frame, place := if full then frames + 1 else frames, if full then 1 else g.inFrame + 1;
    PlaceOf(frame, 0);
    PlaceOf(frame, place);
    assert more[|items|] == item;
    forall i | 0 <= i < |next.lines| ensures LineInPlace(more, next.lines[i], i) {
      if i < |g.lines| { LineKept(items, item, g.lines[i], i); }
    }
  }

  lemma {:induction false} AllFramed(items: seq<(Qid, Raw)>) returns (frames: nat)
    ensures Framed(PutItems(Started(), items), items, frames)
  {
    frames := 0;
    if items != [] {
      var n := |items| - 1;
      var before := AllFramed(items[..n]);
      var g := PutItems(Started(), items[..n]);
      assert items[..n] + [items[n]] == items;
      OneFramed(g, items[..n], items[n], before);
      frames := if g.inFrame == SNAPSHOT_FRAME_SIZE then before + 1 else before;
    }
  }

  /** A checkpoint that counts j entities before it. */
  predicate MarksAt(lines: seq<Line>, i: nat, j: int) {
    i < |lines| && lines[i].Checkpoint? && lines[i].before == j
  }

  predicate OnlyItems(lines: seq<Line>, i: nat, n: nat) {
    i + n <= |lines| && forall k :: i <= k < i + n ==> lines[k].Item?
  }

  /** A file is cut into frames of SNAPSHOT_FRAME_SIZE entities: exactly one checkpoint stands in
      front of each further frame, and none anywhere else but at the start; so no more than a frame
      of entity lines stands between two control lines. */
  ghost predicate CutIntoFrames(lines: seq<Line>, entities: nat) {
    && (forall j :: 0 < j < entities && j % SNAPSHOT_FRAME_SIZE == 0 ==>
          (exists i :: MarksAt(lines, i, j)) && forall i, k :: MarksAt(lines, i, j) && MarksAt(lines, k, j) ==> i == k)
    && (forall i :: 0 < i < |lines| && lines[i].Checkpoint? ==>
          0 < lines[i].before < entities && lines[i].before % SNAPSHOT_FRAME_SIZE == 0)
    && (forall i: nat, n: nat :: OnlyItems(lines, i, n) ==> n <= SNAPSHOT_FRAME_SIZE)
  }

  /** These lines, and then the done line. */
  predicate DoneAfter(lines: seq<Line>, before: seq<Line>) {
    |lines| == |before| + 1 && before <= lines && lines[|before|].Done?
  }

  /** Before the done line, the first line of a frame is its checkpoint. */
  lemma MarkInPlace(items: seq<(Qid, Raw)>, before: seq<Line>, q: nat)
    requires InPlace(items, before) && q * (SNAPSHOT_FRAME_SIZE + 1) < |before|
    ensures MarksAt(before, q * (SNAPSHOT_FRAME_SIZE + 1), q * SNAPSHOT_FRAME_SIZE)
  {
    PlaceOf(q, 0);
    assert LineInPlace(items, before[q * (SNAPSHOT_FRAME_SIZE + 1)], q * (SNAPSHOT_FRAME_SIZE + 1));
  }

  lemma MarkExists(g: Gen, items: seq<(Qid, Raw)>, frames: nat, lines: seq<Line>, j: nat)
    requires Framed(g, items, frames) && DoneAfter(lines, g.lines) && j < |items| && j % SNAPSHOT_FRAME_SIZE == 0
    ensures exists i :: MarksAt(lines, i, j)
  {
    hide InPlace;
    var q := j / SNAPSHOT_FRAME_SIZE;
    assert j == q * SNAPSHOT_FRAME_SIZE && q <= frames;
    MarkInPlace(items, g.lines, q);
    assert MarksAt(lines, q * (SNAPSHOT_FRAME_SIZE + 1), j);
  }

  /** Every checkpoint is where MarkInPlace says. */
  lemma MarkOnlyThere(g: Gen, items: seq<(Qid, Raw)>, frames: nat, lines: seq<Line>, i: nat)
    requires Framed(g, items, frames) && DoneAfter(lines, g.lines) && i < |lines| && lines[i].Checkpoint?
    ensures var q := i / (SNAPSHOT_FRAME_SIZE + 1);
            && i == q * (SNAPSHOT_FRAME_SIZE + 1) && lines[i].before == q * SNAPSHOT_FRAME_SIZE
            && (i > 0 ==> 0 < q && q * SNAPSHOT_FRAME_SIZE < |items|)
  {
    assert i < |g.lines| && LineInPlace(items, g.lines[i], i);
  }

  lemma MarksOnce(g: Gen, items: seq<(Qid, Raw)>, frames: nat, lines: seq<Line>)
    requires Framed(g, items, frames) && DoneAfter(lines, g.lines)
    ensures forall j, i, k :: MarksAt(lines, i, j) && MarksAt(lines, k, j) ==> i == k
    ensures forall i :: 0 < i < |lines| && lines[i].Checkpoint? ==>
              0 < lines[i].before < |items| && lines[i].before % SNAPSHOT_FRAME_SIZE == 0
  {
    hide Framed, DoneAfter;
    forall j, i, k | MarksAt(lines, i, j) && MarksAt(lines, k, j) ensures i == k {
      MarkOnlyThere(g, items, frames, lines, i);
      MarkOnlyThere(g, items, frames, lines, k);
    }
    forall i | 0 < i < |lines| && lines[i].Checkpoint?
      ensures 0 < lines[i].before < |items| && lines[i].before % SNAPSHOT_FRAME_SIZE == 0 {
      MarkOnlyThere(g, items, frames, lines, i);
      PlaceOf(lines[i].before / SNAPSHOT_FRAME_SIZE, 0);
    }
  }

  lemma ShortFrame(items: seq<(Qid, Raw)>, before: seq<Line>, lines: seq<Line>, i: nat, n: nat)
    requires InPlace(items, before) && DoneAfter(lines, before) && OnlyItems(lines, i, n)
    ensures n <= SNAPSHOT_FRAME_SIZE
  {
    if n > SNAPSHOT_FRAME_SIZE {
      var q := (i + SNAPSHOT_FRAME_SIZE) / (SNAPSHOT_FRAME_SIZE + 1);
      assert i <= q * (SNAPSHOT_FRAME_SIZE + 1) < i + n && lines[q * (SNAPSHOT_FRAME_SIZE + 1)].Item?;
      MarkInPlace(items, before, q);
    }
  }

  lemma FileLines(g: Gen, items: seq<(Qid, Raw)>, frames: nat, position: nat, lines: seq<Line>)
    requires g == PutItems(Started(), items) && Framed(g, items, frames) && SoundLines(g)
    requires lines == FileOf(items, position).lines
    ensures lines == g.lines + [Done(position, |items|)] && DoneAfter(lines, g.lines)
    ensures lines[..|lines| - 1] == g.lines && |g.lines| >= 1 && g.lines[0] == Checkpoint(0, 0)
    ensures InPlace(items, g.lines)
  {
    hide PutItems, InPlace, CheckpointsCount, OffsetsGrow, Render, EncodeFrame, Records;
  }

  lemma LinesAreCut(g: Gen, items: seq<(Qid, Raw)>, frames: nat, lines: seq<Line>)
    requires Framed(g, items, frames) && DoneAfter(lines, g.lines)
    ensures CutIntoFrames(lines, |items|)
  {
    assert InPlace(items, g.lines);
    hide Framed, InPlace, OnlyItems, MarksAt, DoneAfter;
    forall j | 0 < j < |items| && j % SNAPSHOT_FRAME_SIZE == 0 ensures exists i :: MarksAt(lines, i, j) {
      MarkExists(g, items, frames, lines, j);
    }
    MarksOnce(g, items, frames, lines);
    forall i: nat, n: nat | OnlyItems(lines, i, n) ensures n <= SNAPSHOT_FRAME_SIZE {
      ShortFrame(items, g.lines, lines, i, n);
    }
  }

  /** For every scan, the lines of its file: what stands where, and where its frames end. */
  lemma FileIsCut(items: seq<(Qid, Raw)>, position: nat, lines: seq<Line>)
    requires lines == FileOf(items, position).lines
    ensures |lines| >= 2 && lines[0] == Checkpoint(0, 0) && lines[|lines| - 1] == Done(position, |items|)
    ensures InPlace(items, lines[..|lines| - 1]) && CutIntoFrames(lines, |items|)
  {
    hide Framed, SoundLines, AllReadBack, InPlace, PutItems, DoneAfter, CutIntoFrames, FileOf;
    var g := PutItems(Started(), items);
    var frames := AllFramed(items);
    PutItemsOk(items);
    FileLines(g, items, frames, position, lines);
    LinesAreCut(g, items, frames, lines);
  }

  // ------------------------------------------------------------------ reader

  function ParseLines(texts: seq<string>): Option<seq<Line>> {
    if texts == [] then Some([])
    else
      match (ParseLine(texts[0]), ParseLines(texts[1..]))
      case (Some(line), Some(more)) => Some([line] + more)
      case _ => None
  }

  /** What a client reads when it asks for the file from a byte offset on. */
  function ReadFrom(blocks: seq<Block>, offset: nat): Option<seq<Line>>
    requires offset <= |blocks|
  {
    match Decode(blocks[offset..], false)
    case None => None
    case Some(text) =>
      var scanned := ScanLines(text, SNAPSHOT_LINE_LIMIT);
      if scanned.tooLong then None else ParseLines(scanned.lines)
  }

  predicate EachText(texts: seq<string>, lines: seq<Line>) {
    |texts| == |lines| && forall i :: 0 <= i < |lines| ==> texts[i] == LineText(lines[i])
  }

  predicate AllPrintable(lines: seq<Line>) { forall i :: 0 <= i < |lines| ==> Printable(lines[i]) }

  lemma {:induction false} ParseTextsIff(texts: seq<string>, lines: seq<Line>)
    requires EachText(texts, lines) && PlainItems(lines)
    ensures ParseLines(texts) == Some(lines) <==> AllPrintable(lines)
  {
    if lines != [] {
      LineReadsIff(lines[0]);
      ParseTextsIff(texts[1..], lines[1..]);
      PrintableCons(lines);
      assert [lines[0]] + lines[1..] == lines;
    }
  }

  lemma PrintableCons(lines: seq<Line>)
    requires lines != []
    ensures AllPrintable(lines) <==> Printable(lines[0]) && AllPrintable(lines[1..])
  {
    if AllPrintable(lines[1..]) && Printable(lines[0]) {
      forall i | 0 <= i < |lines| ensures Printable(lines[i]) {
        if i > 0 { assert lines[i] == lines[1..][i - 1]; }
      }
    }
  }

  lemma ReadsBackIff(g: Gen, k: nat)
    requires k < |g.lines| && g.lines[k].Checkpoint? && ReadsBack(g, k) && g.closed == |g.lines|
    requires PlainItems(g.lines)
    ensures ReadFrom(g.out, g.lines[k].offset) == Some(g.lines[k..]) <==> AllAcceptable(g.lines[k..])
  {
    var rest := g.lines[k..];
    assert rest == g.lines[k..g.closed];
    RenderedParsesIff(rest);
  }

  lemma TextsFit(lines: seq<Line>)
    ensures AllFit(Texts(lines), SNAPSHOT_LINE_LIMIT) && AllPrintable(lines) <==> AllAcceptable(lines)
    ensures EachText(Texts(lines), lines)
  {
    var texts := Texts(lines);
    if AllAcceptable(lines) {
      forall i | 0 <= i < |texts| ensures ByteSize(texts[i]) < SNAPSHOT_LINE_LIMIT { assert Acceptable(lines[i]); }
      forall i | 0 <= i < |lines| ensures Printable(lines[i]) { assert Acceptable(lines[i]); }
    }
    if AllFit(texts, SNAPSHOT_LINE_LIMIT) && AllPrintable(lines) {
      forall i | 0 <= i < |lines| ensures Acceptable(lines[i]) { assert ByteSize(texts[i]) < SNAPSHOT_LINE_LIMIT; }
    }
  }

  lemma RenderedParsesIff(lines: seq<Line>)
    requires PlainItems(lines)
    ensures var scanned := ScanLines(Render(lines), SNAPSHOT_LINE_LIMIT);
            !scanned.tooLong && ParseLines(scanned.lines) == Some(lines) <==> AllAcceptable(lines)
  {
    var texts := Texts(lines);
    forall i | 0 <= i < |texts| ensures IsLine(texts[i]) {
      LineTextIsLine(lines[i]);
    }
    ScanUnlines(texts, SNAPSHOT_LINE_LIMIT);
    TextsFit(lines);
    ParseTextsIff(texts, lines);
    assert FitCount(texts, SNAPSHOT_LINE_LIMIT) == |texts| ==> texts[..FitCount(texts, SNAPSHOT_LINE_LIMIT)] == texts;
  }

  /** Generator and reader, for every sequence of texts that fit on a line, decodable or not: the
      file is well formed, carries exactly these entities in this order, and reading its bytes
      from the offset of any checkpoint yields precisely the lines from that checkpoint on iff the
      reader can take each of them: no negative id, and no line above its limit. */
  lemma GeneratedFileReads(items: seq<(Qid, Raw)>, position: nat, file: Gen)
    requires file == FileOf(items, position) && AllPlain(AsChanges(items))
    ensures WellFormedFile(file.lines, position)
    ensures Records(file.lines) == AsChanges(items)
    ensures forall k :: 0 <= k < |file.lines| && file.lines[k].Checkpoint? ==>
              file.lines[k].offset <= |file.out| &&
              (ReadFrom(file.out, file.lines[k].offset) == Some(file.lines[k..]) <==> AllAcceptable(file.lines[k..]))
  {
    PutItemsOk(items);
    FinishedOk(PutItems(Started(), items), position);
    ItemsPlain(file.lines);
    forall k | 0 <= k < |file.lines| && file.lines[k].Checkpoint?
      ensures file.lines[k].offset <= |file.out| &&
              (ReadFrom(file.out, file.lines[k].offset) == Some(file.lines[k..]) <==> AllAcceptable(file.lines[k..])) {
      assert ReadsBack(file, k);
      ReadsBackIff(file, k);
    }
  }

  /** generate: scan page by page, cut a frame after every SNAPSHOT_FRAME_SIZE entities,
      and end with the done line. It refuses an empty changelog. */
  method Generate(log: seq<LogEntry>, pages: seq<seq<(Qid, Raw)>>) returns (file: Option<Gen>)
    ensures file.None? <==> log == []
    ensures file.Some? ==> file.value == FileOf(Concat(pages), log[|log| - 1].id)
    ensures file.Some? ==>
              var lines, items := file.value.lines, Concat(pages);
              && |lines| >= 2 && lines[|lines| - 1] == Done(log[|log| - 1].id, |items|)
              && InPlace(items, lines[..|lines| - 1]) && CutIntoFrames(lines, |items|)
  {
    if log == [] { return None; }
    FileIsCut(Concat(pages), log[|log| - 1].id, FileOf(Concat(pages), log[|log| - 1].id).lines);
    hide InPlace, CutIntoFrames;
    var position := log[|log| - 1].id;
    var g := Gen([], [Checkpoint(0, 0)], 0, 0, 0);
    for p := 0 to |pages|
      invariant g == PutItems(Started(), Concat(pages[..p]))
    {
      ghost var before := Concat(pages[..p]);
      assert before + pages[p][..0] == before;
      for i := 0 to |pages[p]|
        invariant g == PutItems(Started(), before + pages[p][..i])
      {
        ItemsGrow(before, pages[p], i);
        g := EmitItem(g, pages[p][i].0, pages[p][i].1);
      }
      assert pages[..p + 1][..p] == pages[..p];
      assert pages[p][..|pages[p]|] == pages[p];
    }
    assert pages[..|pages|] == pages;
    var lines := g.lines + [Done(position, g.count)];
    file := Some(Gen(g.out + EncodeFrame(Render(lines[g.closed..])), lines, |lines|, g.count, 0));
  }

  lemma ItemsGrow(before: seq<(Qid, Raw)>, page: seq<(Qid, Raw)>, i: nat)
    requires i < |page|
    ensures PutItems(Started(), before + page[..i + 1]) ==
            PutItem(PutItems(Started(), before + page[..i]), page[i].0, page[i].1)
  {
    PutItemsAppend(before + page[..i], page[i]);
    assert (before + page[..i]) + [page[i]] == before + page[..i + 1];
  }

  lemma PutItemsAppend(items: seq<(Qid, Raw)>, item: (Qid, Raw))
    ensures PutItems(Started(), items + [item]) == PutItem(PutItems(Started(), items), item.0, item.1)
  {
    assert (items + [item])[..|items|] == items;
  }

  /** The loop body of the scan: close a full frame first, then write the entity line. */
  method EmitItem(g: Gen, q: Qid, raw: Raw) returns (next: Gen)
    requires g.closed <= |g.lines|
    ensures next == PutItem(g, q, raw)
  {
    next := g;
    if next.inFrame == SNAPSHOT_FRAME_SIZE {
      var out := next.out + EncodeFrame(Render(next.lines[next.closed..]));
      var mark := Checkpoint(|out|, next.count);
      next := Gen(out, next.lines + [mark], |next.lines|, next.count, 0);
    }
    next := next.(lines := next.lines + [Item(q, raw)], count := next.count + 1, inFrame := next.inFrame + 1);
  }
}
