/** At-least-once ingestion: the reader that takes relevant events off the event stream, and
    the background writer that batches them into the pending set and stores the cursor. */
module Enqueue {
  import opened Text
  import opened EntityMaps
  import opened Kvrocks
  import opened Wire

  const ENQUEUE_BATCH_SIZE: nat := 1000

  /** A title as the buffer keeps it, with what qidToInt makes of it. */
  datatype Name = Name(title: string, qid: Option<Qid>)

  function NameOf(title: string): Name { Name(title, QidToInt(title)) }

  /** A relevant event: the entity it names and the event id it came with. */
  datatype Item = Item(name: Name, id: string)

  // ------------------------------------------------------------------ writer

  /** The writer's buffer on one connection, and the store. The connection delivers the
      events of the stream from `from` on, and `taken` of them reached the writer. `added` is
      everything ever added to pending, and `at` the position the stored cursor stands for. */
  datatype State = State(
    from: nat, taken: nat, batch: set<Name>, last: string, live: bool,
    added: set<Qid>, stored: string, at: nat)

  const AT_DUMP := State(0, 0, {}, "", false, {}, "", 0)

  /** How the pipeline of a flush ends: after some of its commands, reported or not. */
  datatype Fate = Fate(commands: nat, ok: bool)

  function QidsOf(batch: set<Name>): set<Qid> {
    set t | t in batch && t.qid.Some? :: t.qid.value
  }

  predicate AllValid(batch: set<Name>) { forall t :: t in batch ==> t.qid.Some? }

  /** SADD pending, then HSET last_event_id. One bad title poisons the whole pipeline. */
  function Flush(s: State, fate: Fate): State {
    if s.batch == {} then s
    else if !AllValid(s.batch) then s.(live := false)
    else
      var sadd := fate.ok || fate.commands > 0;
      var hset := s.last != "" && (fate.ok || fate.commands > 1);
      var t := s.(added := if sadd then s.added + QidsOf(s.batch) else s.added,
                  stored := if hset then s.last else s.stored,
                  at := if hset then s.from + s.taken else s.at);
      if fate.ok then t.(batch := {}, last := "") else t.(live := false)
  }

  function Took(s: State, item: Item): State {
    s.(taken := s.taken + 1, batch := s.batch + {item.name}, last := item.id)
  }

  function Take(s: State, item: Item, fate: Fate): State {
    var t := Took(s, item);
    if |t.batch| >= ENQUEUE_BATCH_SIZE then Flush(t, fate) else t
  }

  datatype Signal = Connect(from: nat) | Arrival(fate: Fate) | Tick(fate: Fate) | Close(fate: Fate) | Crash

  /** One turn of the writer, or the start or end of a connection. A new connection asks
      for everything since the stored cursor, so it begins no later than there. */
  function Step(stream: seq<Item>, s: State, signal: Signal): State {
    match signal
    case Connect(from) =>
      if !s.live && from <= s.at then s.(from := from, taken := 0, batch := {}, last := "", live := true) else s
    case Arrival(fate) => if s.live && s.from + s.taken < |stream| then Take(s, stream[s.from + s.taken], fate) else s
    case Tick(fate) => if s.live then Flush(s, fate) else s
    case Close(fate) => if s.live then Flush(s, fate).(live := false) else s
    case Crash => s.(live := false)
  }

  function Run(stream: seq<Item>, signals: seq<Signal>): State {
    if signals == [] then AT_DUMP
    else Step(stream, Run(stream, signals[..|signals| - 1]), signals[|signals| - 1])
  }

  predicate IsAdded(name: Name, added: set<Qid>) {
    name.qid.Some? && name.qid.value in added
  }

  /** Every relevant event up to a position has its entity in pending, or had it there. */
  predicate AddedTo(stream: seq<Item>, added: set<Qid>, n: nat)
    requires n <= |stream|
  {
    forall i :: 0 <= i < n ==> IsAdded(stream[i].name, added)
  }

  /** What the cursor in the store promises. */
  predicate CursorMeans(stream: seq<Item>, added: set<Qid>, stored: string, at: nat) {
    && at <= |stream| && AddedTo(stream, added, at)
    && (at == 0 ==> stored == "") && (at > 0 ==> stream[at - 1].id == stored)
  }

  predicate AddedOrIn(stream: seq<Item>, added: set<Qid>, batch: set<Name>, from: nat, n: nat)
    requires n <= |stream|
  {
    forall i :: from <= i < n ==> stream[i].name in batch || IsAdded(stream[i].name, added)
  }

  /** What the writer took is added or in its batch, and its last id is the last one taken. */
  predicate Buffered(stream: seq<Item>, s: State) {
    && s.from <= s.at && s.from + s.taken <= |stream|
    && AddedOrIn(stream, s.added, s.batch, s.from, s.from + s.taken)
    && (s.batch != {} ==> s.taken > 0 && s.last == stream[s.from + s.taken - 1].id)
  }

  predicate Ok(stream: seq<Item>, s: State) {
    CursorMeans(stream, s.added, s.stored, s.at) && (s.live ==> Buffered(stream, s))
  }

  lemma MoreAdded(stream: seq<Item>, a: set<Qid>, b: set<Qid>, n: nat)
    requires n <= |stream| && AddedTo(stream, a, n) && a <= b
    ensures AddedTo(stream, b, n)
  {
    forall i | 0 <= i < n ensures IsAdded(stream[i].name, b) {
      assert IsAdded(stream[i].name, a);
    }
  }

  lemma BatchAdded(name: Name, batch: set<Name>, added: set<Qid>)
    requires name in batch && AllValid(batch)
    ensures IsAdded(name, added + QidsOf(batch))
  {
    assert name.qid.value in QidsOf(batch);
  }

  /** Once the batch is added, everything taken is. */
  lemma AllAdded(stream: seq<Item>, added: set<Qid>, batch: set<Name>, from: nat, n: nat, at: nat)
    requires n <= |stream| && at <= |stream| && from <= at && AllValid(batch)
    requires AddedTo(stream, added, at) && AddedOrIn(stream, added, batch, from, n)
    ensures AddedTo(stream, added + QidsOf(batch), at) && AddedTo(stream, added + QidsOf(batch), n)
  {
    var more := added + QidsOf(batch);
    MoreAdded(stream, added, more, at);
    forall i | 0 <= i < n ensures IsAdded(stream[i].name, more) {
      if i >= from {
        if stream[i].name in batch { BatchAdded(stream[i].name, batch, added); }
      }
    }
  }

  lemma FlushOk(stream: seq<Item>, s: State, fate: Fate)
    requires CursorMeans(stream, s.added, s.stored, s.at) && Buffered(stream, s)
    ensures Ok(stream, Flush(s, fate))
  {
    if s.batch != {} && AllValid(s.batch) {
      AllAdded(stream, s.added, s.batch, s.from, s.from + s.taken, s.at);
    }
  }

  lemma TookOk(stream: seq<Item>, s: State, item: Item)
    requires Ok(stream, s) && s.live && s.from + s.taken < |stream| && item == stream[s.from + s.taken]
    ensures Ok(stream, Took(s, item))
  {
  }

  lemma ConnectOk(stream: seq<Item>, s: State, from: nat)
    requires Ok(stream, s)
    ensures Ok(stream, Step(stream, s, Connect(from)))
  {
  }

  lemma ArrivalOk(stream: seq<Item>, s: State, fate: Fate)
    requires Ok(stream, s)
    ensures Ok(stream, Step(stream, s, Arrival(fate)))
  {
    if s.live && s.from + s.taken < |stream| {
      TookOk(stream, s, stream[s.from + s.taken]);
      FlushOk(stream, Took(s, stream[s.from + s.taken]), fate);
    }
  }

  lemma TickOk(stream: seq<Item>, s: State, fate: Fate)
    requires Ok(stream, s)
    ensures Ok(stream, Step(stream, s, Tick(fate)))
  {
    if s.live { FlushOk(stream, s, fate); }
  }

  lemma DeadOk(stream: seq<Item>, s: State)
    requires Ok(stream, s)
    ensures Ok(stream, s.(live := false))
  {
  }

  lemma CloseOk(stream: seq<Item>, s: State, fate: Fate)
    requires Ok(stream, s)
    ensures Ok(stream, Step(stream, s, Close(fate)))
  {
    if s.live {
      FlushOk(stream, s, fate);
      DeadOk(stream, Flush(s, fate));
    }
  }

  lemma StepOk(stream: seq<Item>, s: State, signal: Signal)
    requires Ok(stream, s)
    ensures Ok(stream, Step(stream, s, signal))
  {
    match signal
    case Connect(from) => ConnectOk(stream, s, from);
    case Arrival(fate) => ArrivalOk(stream, s, fate);
    case Tick(fate) => TickOk(stream, s, fate);
    case Close(fate) => CloseOk(stream, s, fate);
    case Crash => DeadOk(stream, s);
  }

  lemma {:induction false} RunOk(stream: seq<Item>, signals: seq<Signal>)
    ensures Ok(stream, Run(stream, signals))
  {
    if signals != [] {
      var n := |signals| - 1;
      RunOk(stream, signals[..n]);
      StepOk(stream, Run(stream, signals[..n]), signals[n]);
    }
  }

  /** At-least-once ingestion: for every schedule of arrivals, ticks, full batches, closed
      connections, pipelines broken after any command, crashes and reconnects, whenever an
      event id is stored as last_event_id, it is the id of some event of the stream, and
      that event and every relevant one before it had its entity added to pending. */
  lemma AtLeastOnce(stream: seq<Item>, signals: seq<Signal>)
    ensures var s := Run(stream, signals);
            s.stored != "" ==>
              exists k: nat :: 0 < k <= |stream| && stream[k - 1].id == s.stored && AddedTo(stream, s.added, k)
  {
    RunOk(stream, signals);
  }

  /** An event whose title is no entity id is never passed: its flush fails, and so does that
      of every connection after it. */
  lemma NeverPastBadTitle(stream: seq<Item>, signals: seq<Signal>, bad: nat)
    requires bad < |stream| && stream[bad].name.qid.None?
    ensures Run(stream, signals).at <= bad
  {
    RunOk(stream, signals);
    var s := Run(stream, signals);
    assert s.at > bad ==> IsAdded(stream[bad].name, s.added);
  }

  // ------------------------------------------------------- the cursor moves on

  /** The buffer of a live connection is not full, and when it is empty the stored cursor is the
      last event taken. (An event that came without an id leaves the cursor alone.) */
  predicate Recorded(stream: seq<Item>, s: State)
    requires s.from + s.taken <= |stream|
  {
    && |s.batch| < ENQUEUE_BATCH_SIZE
    && (s.batch == {} && s.taken > 0 && stream[s.from + s.taken - 1].id != "" ==> s.at == s.from + s.taken)
  }

  predicate LiveRecorded(stream: seq<Item>, s: State) {
    s.live ==> s.from + s.taken <= |stream| && Recorded(stream, s)
  }

  lemma FlushRecorded(stream: seq<Item>, s: State, fate: Fate)
    requires CursorMeans(stream, s.added, s.stored, s.at) && Buffered(stream, s) && s.live
    requires s.batch == {} ==> Recorded(stream, s)
    ensures LiveRecorded(stream, Flush(s, fate))
  {
  }

  lemma ArrivalRecorded(stream: seq<Item>, s: State, item: Item, fate: Fate)
    requires Ok(stream, s) && s.live && s.from + s.taken < |stream| && item == stream[s.from + s.taken]
    ensures LiveRecorded(stream, Take(s, item, fate))
  {
    TookOk(stream, s, item);
    var t := Took(s, item);
    assert item.name in t.batch;
    if |t.batch| >= ENQUEUE_BATCH_SIZE { FlushRecorded(stream, t, fate); }
  }

  lemma StepRecorded(stream: seq<Item>, s: State, signal: Signal)
    requires Ok(stream, s) && LiveRecorded(stream, s)
    ensures LiveRecorded(stream, Step(stream, s, signal))
  {
    match signal
    case Connect(from) =>
    case Arrival(fate) =>
      hide Take;
      if s.live && s.from + s.taken < |stream| { ArrivalRecorded(stream, s, stream[s.from + s.taken], fate); }
    case Tick(fate) =>
      hide Flush;
      if s.live { FlushRecorded(stream, s, fate); }
    case Close(_) =>
    case Crash =>
  }

  lemma {:induction false} RunRecorded(stream: seq<Item>, signals: seq<Signal>)
    ensures LiveRecorded(stream, Run(stream, signals))
  {
    if signals != [] {
      var n := |signals| - 1;
      RunOk(stream, signals[..n]);
      RunRecorded(stream, signals[..n]);
      StepRecorded(stream, Run(stream, signals[..n]), signals[n]);
    }
  }

  /** Everything taken on the connection is added, and the cursor is the id of the last of it. */
  predicate CaughtUp(stream: seq<Item>, s: State)
    requires s.from + s.taken <= |stream|
  {
    && s.batch == {} && AddedTo(stream, s.added, s.from + s.taken)
    && (s.taken > 0 && stream[s.from + s.taken - 1].id != "" ==>
          s.at == s.from + s.taken && s.stored == stream[s.at - 1].id)
  }

  lemma FlushCatchesUp(stream: seq<Item>, s: State, fate: Fate)
    requires Ok(stream, s) && LiveRecorded(stream, s) && s.live && fate.ok && AllValid(s.batch)
    ensures var t := Flush(s, fate);
            t.live && t.from == s.from && t.taken == s.taken && CaughtUp(stream, t)
  {
    FlushOk(stream, s, fate);
    AllAdded(stream, s.added, s.batch, s.from, s.from + s.taken, s.at);
    if s.batch == {} { assert s.added + QidsOf(s.batch) == s.added; }
  }

  /** At-least-once is not met by standing still. In every reachable state a live connection has
      fewer than a thousand titles buffered. An event that arrives is taken, and the connection stays
      up if its flush is answered and every title is an entity id. And so answered, a tick or the end
      of the connection leaves nothing buffered, every event taken on the connection added to
      pending, and the id of the last of them stored as last_event_id. */
  lemma CursorAdvances(stream: seq<Item>, signals: seq<Signal>, signal: Signal, s: State, t: State)
    requires s == Run(stream, signals) && t == Step(stream, s, signal) && s.live
    ensures s.from + s.taken <= |stream| && |s.batch| < ENQUEUE_BATCH_SIZE
    ensures signal.Arrival? && s.from + s.taken < |stream| ==>
              && t.from == s.from && t.taken == s.taken + 1
              && (signal.fate.ok && AllValid(s.batch + {stream[s.from + s.taken].name}) ==> t.live)
    ensures (signal.Tick? || signal.Close?) && signal.fate.ok && AllValid(s.batch) ==>
              && t.from == s.from && t.taken == s.taken && (signal.Tick? ==> t.live) && CaughtUp(stream, t)
  {
    hide Run, Ok, LiveRecorded, Take, Flush, AllValid;
    RunOk(stream, signals);
    RunRecorded(stream, signals);
    StillRecorded(stream, s);
    match signal
    case Arrival(fate) => if s.from + s.taken < |stream| { ArrivalTaken(s, stream[s.from + s.taken], fate); }
    case Tick(fate) => if fate.ok && AllValid(s.batch) { FlushCatchesUp(stream, s, fate); }
    case Close(fate) =>
      if fate.ok && AllValid(s.batch) {
        FlushCatchesUp(stream, s, fate);
        assert CaughtUp(stream, Flush(s, fate).(live := false));
      }
    case _ =>
  }

  lemma StillRecorded(stream: seq<Item>, s: State)
    requires LiveRecorded(stream, s) && s.live
    ensures s.from + s.taken <= |stream| && |s.batch| < ENQUEUE_BATCH_SIZE
  {
  }

  lemma ArrivalTaken(s: State, item: Item, fate: Fate)
    requires s.live
    ensures var t := Take(s, item, fate);
            && t.from == s.from && t.taken == s.taken + 1
            && (fate.ok && AllValid(s.batch + {item.name}) ==> t.live && AllValid(t.batch))
  {
  }

  // ------------------------------------------------- the writer as it runs

  /** None of these pipelines fails. */
  predicate AllOk(net: nat -> Fate, a: nat, b: nat) { forall n :: a <= n < b ==> net(n).ok }

  predicate ValidTitles(items: seq<Item>) { forall i :: 0 <= i < |items| ==> items[i].name.qid.Some? }

  /** The background writer of one connection, with its buffer and its store. `net` decides how
      each of its pipelines ends, of which there were `flushes` so far. */
  class BatchWriter {
    const net: nat -> Fate
    var flushes: nat
    var batchSet: set<Name>
    var batchLastEventID: string
    var added: set<Qid>
    var stored: string
    var live: bool
    ghost var from: nat
    ghost var taken: nat
    ghost var at: nat

    constructor (net: nat -> Fate, added: set<Qid>, stored: string, ghost from: nat, ghost at: nat)
      ensures this.net == net && flushes == 0
      ensures Value() == State(from, 0, {}, "", true, added, stored, at)
    {
      this.net, flushes, batchSet, batchLastEventID, live := net, 0, {}, "", true;
      this.added, this.stored, this.from, taken, this.at := added, stored, from, 0, at;
    }

    ghost function Value(): State
      reads this
    {
      State(from, taken, batchSet, batchLastEventID, live, added, stored, at)
    }

    /** flushOnce. The pipeline may break after any command, or lose its reply. When it is answered,
        the titles are in pending, the id of the last event taken is stored, and the buffer is empty. */
    method FlushOnce() returns (ok: bool)
      modifies this
      ensures Value() == Flush(old(Value()), net(old(flushes)))
      ensures ok == (old(batchSet) == {} || (AllValid(old(batchSet)) && net(old(flushes)).ok))
      ensures !ok ==> !live
      ensures ok ==> live == old(live) && batchSet == {} && added == old(added) + QidsOf(old(batchSet))
      ensures ok && old(batchSet) != {} && old(batchLastEventID) != "" ==>
                stored == old(batchLastEventID) && at == from + taken
      ensures from == old(from) && taken == old(taken)
      ensures flushes == old(flushes) + if old(batchSet) == {} || !AllValid(old(batchSet)) then 0 else 1
    {
      if batchSet == {} {
        assert added + QidsOf(batchSet) == added;
        return true;
      }
      var valid, qids := Numbers(batchSet);
      if !valid {
        live := false;
        return false;
      }
      var fate := net(flushes);
      flushes := flushes + 1;
      if fate.ok || fate.commands > 0 { added := added + qids; }
      if batchLastEventID != "" && (fate.ok || fate.commands > 1) { stored, at := batchLastEventID, from + taken; }
      ok := fate.ok;
      if ok {
        batchSet, batchLastEventID := {}, "";
      } else {
        live := false;
      }
    }

    /** EnqueueEntities' conversion of the titles. */
    method Numbers(names: set<Name>) returns (valid: bool, qids: set<Qid>)
      ensures valid == AllValid(names)
      ensures valid ==> qids == QidsOf(names)
    {
      valid, qids := true, {};
      var left := names;
      while left != {}
        invariant left <= names && valid == AllValid(names - left)
        invariant qids == QidsOf(names - left)
        decreases |left|
      {
        var name :| name in left;
        ghost var was := names - left;
        left := left - {name};
        assert names - left == was + {name};
        if name.qid.Some? { qids := qids + {name.qid.value}; } else { valid := false; }
        assert QidsOf(was + {name}) == QidsOf(was) + QidsOf({name});
      }
      assert names - left == names;
    }

    /** The writer's loop over one connection: items come off the channel, ticks flush a
        partial batch, and a closed channel flushes the rest. A failed flush ends it. If none fails
        and every title is an entity id, everything that came is in pending at the end, and the id of
        the last event is stored. */
    method WriteLoop(ghost stream: seq<Item>, items: seq<Item>)
      requires live && taken == 0 && batchSet == {} && Ok(stream, Value())
      requires from + |items| <= |stream| && items == stream[from..from + |items|]
      modifies this
      ensures Ok(stream, Value()) && !live && from == old(from) && flushes >= old(flushes)
      ensures AllOk(net, old(flushes), flushes) && ValidTitles(items) ==>
                taken == |items| && from + taken <= |stream| && CaughtUp(stream, Value())
    {
      assert LiveRecorded(stream, Value()) && AllValid(batchSet);
      hide Ok, LiveRecorded;
      var i := 0;
      while i < |items| && live
        invariant i <= |items| && from == old(from) && flushes >= old(flushes) && taken <= |items|
        invariant Ok(stream, Value()) && LiveRecorded(stream, Value())
        invariant live ==> taken == i
        invariant AllOk(net, old(flushes), flushes) && ValidTitles(items) ==> live && AllValid(batchSet)
        decreases |items| - i, live
      {
        var tick: bool := *;
        if tick {
          FlushTick(stream);
        }
        if live {
          assert items[i] == stream[from + taken];
          TakeItem(stream, items[i]);
          i := i + 1;
        }
      }
      if live {
        FlushTick(stream);
        DeadOk(stream, Value());
        live := false;
      }
    }

    /** A tick of the live connection. */
    method FlushTick(ghost stream: seq<Item>)
      requires live && Ok(stream, Value()) && LiveRecorded(stream, Value())
      modifies this
      ensures Ok(stream, Value()) && LiveRecorded(stream, Value())
      ensures from == old(from) && taken == old(taken) && flushes >= old(flushes)
      ensures AllOk(net, old(flushes), flushes) && AllValid(old(batchSet)) ==>
                live && batchSet == {} && from + taken <= |stream| && CaughtUp(stream, Value())
    {
      ghost var before, fate := Value(), net(flushes);
      var ok := FlushOnce();
      StepOk(stream, before, Tick(fate));
      StepRecorded(stream, before, Tick(fate));
      if ok { FlushCatchesUp(stream, before, if before.batch == {} then Fate(2, true) else fate); }
    }

    method TakeItem(ghost stream: seq<Item>, item: Item)
      requires live && Ok(stream, Value()) && from + taken < |stream| && stream[from + taken] == item
      requires LiveRecorded(stream, Value())
      modifies this
      ensures Ok(stream, Value()) && LiveRecorded(stream, Value())
      ensures from == old(from) && taken == old(taken) + 1 && flushes >= old(flushes)
      ensures AllOk(net, old(flushes), flushes) && AllValid(old(batchSet) + {item.name}) ==> live && AllValid(batchSet)
    {
      hide Ok, LiveRecorded, Flush, AllValid;
      ghost var before, fate := Value(), net(flushes);
      batchSet, batchLastEventID, taken := batchSet + {item.name}, item.id, taken + 1;
      if |batchSet| >= ENQUEUE_BATCH_SIZE { var ok := FlushOnce(); }
      assert Value() == Step(stream, before, Arrival(fate));
      ArrivalTaken(before, item, fate);
      StepOk(stream, before, Arrival(fate));
      StepRecorded(stream, before, Arrival(fate));
    }
  }

  // ------------------------------------------------------------------ reader

  /** The reader's fields: the last id line, and the data lines of the event so far. */
  datatype Reader = Reader(id: string, data: seq<string>)

  function Flatten(parts: seq<string>): string {
    if parts == [] then "" else Flatten(parts[..|parts| - 1]) + parts[|parts| - 1]
  }

  function ReadLine(r: Reader, line: string): Reader {
    if AfterPrefix(line, "id: ").Some? then r.(id := AfterPrefix(line, "id: ").value)
    else if AfterPrefix(line, "data: ").Some? then r.(data := r.data + [AfterPrefix(line, "data: ").value])
    else if line == "" then r.(data := [])
    else r
  }

  /** The item an empty line completes. `extract` is what extractEvent makes of the data. */
  function Completed(r: Reader, line: string, extract: string -> Option<string>): seq<Item> {
    if line != "" || r.data == [] then []
    else match extract(Flatten(r.data)) case None => [] case Some(title) => [Item(NameOf(title), r.id)]
  }

  function Items(r: Reader, lines: seq<string>, extract: string -> Option<string>): seq<Item>
    decreases |lines|
  {
    if lines == [] then []
    else Completed(r, lines[0], extract) + Items(ReadLine(r, lines[0]), lines[1..], extract)
  }

  /** A message of the event stream: its id and its data lines. */
  datatype Message = Message(id: string, data: seq<string>)

  function DataLines(data: seq<string>): seq<string> {
    if data == [] then [] else ["data: " + data[0]] + DataLines(data[1..])
  }

  function MessageLines(m: Message): seq<string> {
    ["event: message"] + (["id: " + m.id] + (DataLines(m.data) + [""]))
  }

  function StreamLinesOf(ms: seq<Message>): seq<string> {
    if ms == [] then [] else MessageLines(ms[0]) + StreamLinesOf(ms[1..])
  }

  /** A message with data, of which a title can be made. */
  predicate Relevant(m: Message, extract: string -> Option<string>) {
    m.data != [] && extract(Flatten(m.data)).Some?
  }

  /** The item of a message: its title, with its own id. */
  predicate IsItemOf(m: Message, item: Item, extract: string -> Option<string>) {
    Relevant(m, extract) && item == Item(NameOf(extract(Flatten(m.data)).value), m.id)
  }

  /** The items are those of the messages at these places, in order, and no other message is relevant. */
  predicate TakenAt(ms: seq<Message>, items: seq<Item>, at: seq<nat>, extract: string -> Option<string>) {
    && |items| == |at|
    && (forall i :: 0 <= i < |at| ==> at[i] < |ms| && IsItemOf(ms[at[i]], items[i], extract))
    && (forall i, j :: 0 <= i < j < |at| ==> at[i] < at[j])
    && forall k :: 0 <= k < |ms| && Relevant(ms[k], extract) ==> k in at
  }

  /** The data of a message is the text of its lines, one after the other. */
  lemma {:induction false} FlattenJoins(a: seq<string>, b: seq<string>, t: string)
    ensures Flatten(a + b) == Flatten(a) + Flatten(b) && Flatten([t]) == t
  {
    assert [t][..0] == [];
    if b == [] {
      assert a + b == a;
    } else {
      assert (a + b)[..|a + b| - 1] == a + b[..|b| - 1];
      FlattenJoins(a, b[..|b| - 1], t);
    }
  }

  lemma ReadPrefixes(r: Reader, t: string)
    ensures ReadLine(r, "id: " + t) == r.(id := t)
    ensures ReadLine(r, "data: " + t) == r.(data := r.data + [t])
    ensures ReadLine(r, "event: message") == r
  {
    assert ("id: " + t)[|"id: "|..] == t;
    assert ("data: " + t)[0] == 'd' && ("data: " + t)[|"data: "|..] == t;
    assert "event: message"[0] == 'e';
  }

  lemma ItemsCons(r: Reader, line: string, rest: seq<string>, extract: string -> Option<string>)
    ensures Items(r, [line] + rest, extract) == Completed(r, line, extract) + Items(ReadLine(r, line), rest, extract)
  {
    assert ([line] + rest)[1..] == rest;
  }

  lemma DataLineRead(r: Reader, t: string, rest: seq<string>, extract: string -> Option<string>)
    ensures Items(r, ["data: " + t] + rest, extract) == Items(r.(data := r.data + [t]), rest, extract)
  {
    ItemsCons(r, "data: " + t, rest, extract);
    ReadPrefixes(r, t);
  }

  lemma {:induction false} DataRead(r: Reader, data: seq<string>, rest: seq<string>, extract: string -> Option<string>)
    ensures Items(r, DataLines(data) + rest, extract) == Items(r.(data := r.data + data), rest, extract)
    decreases |data|
  {
    if data == [] {
      assert DataLines(data) + rest == rest && r.data + data == r.data;
    } else {
      var with := r.(data := r.data + [data[0]]);
      hide Items;
      Regroup(["data: " + data[0]], DataLines(data[1..]), rest);
      DataLineRead(r, data[0], DataLines(data[1..]) + rest, extract);
      DataRead(with, data[1..], rest, extract);
      assert with.data + data[1..] == r.data + data;
    }
  }

  lemma MessageRead(r: Reader, m: Message, rest: seq<string>, extract: string -> Option<string>)
    requires r.data == []
    ensures Items(r, MessageLines(m) + rest, extract) ==
            Completed(Reader(m.id, m.data), "", extract) + Items(Reader(m.id, []), rest, extract)
  {
    var l1, tail := "id: " + m.id, DataLines(m.data) + ([""] + rest);
    assert MessageLines(m) + rest == ["event: message"] + ([l1] + tail);
    ReadPrefixes(r, m.id);
    ItemsCons(r, "event: message", [l1] + tail, extract);
    ItemsCons(r, l1, tail, extract);
    DataRead(r.(id := m.id), m.data, [""] + rest, extract);
    assert [] + m.data == m.data;
    ItemsCons(Reader(m.id, m.data), "", rest, extract);
  }

  lemma CompletedIs(m: Message, extract: string -> Option<string>)
    ensures var some := Completed(Reader(m.id, m.data), "", extract);
            if Relevant(m, extract) then |some| == 1 && IsItemOf(m, some[0], extract) else some == []
  {
  }

  /** One more message in front, not relevant or relevant. */
  lemma TakenBehind(ms: seq<Message>, items: seq<Item>, at: seq<nat>, extract: string -> Option<string>, all: seq<nat>)
    requires ms != [] && TakenAt(ms[1..], items, at, extract) && !Relevant(ms[0], extract)
    requires |all| == |at| && forall i :: 0 <= i < |at| ==> all[i] == at[i] + 1
    ensures TakenAt(ms, items, all, extract)
  {
    hide Relevant, IsItemOf;
    forall i | 0 <= i < |all| ensures all[i] < |ms| && IsItemOf(ms[all[i]], items[i], extract) {
      assert ms[all[i]] == ms[1..][at[i]];
    }
    forall k | 0 <= k < |ms| && Relevant(ms[k], extract) ensures k in all {
      assert ms[1..][k - 1] == ms[k];
      var i :| 0 <= i < |at| && at[i] == k - 1;
      assert all[i] == k;
    }
  }

  lemma TakenFirst(ms: seq<Message>, item: Item, items: seq<Item>, at: seq<nat>, extract: string -> Option<string>,
                   all: seq<nat>)
    requires ms != [] && TakenAt(ms[1..], items, at, extract) && IsItemOf(ms[0], item, extract)
    requires |all| == |at| + 1 && all[0] == 0 && forall i :: 0 <= i < |at| ==> all[i + 1] == at[i] + 1
    ensures TakenAt(ms, [item] + items, all, extract)
  {
    hide Relevant, IsItemOf;
    forall i | 0 <= i < |all| ensures all[i] < |ms| && IsItemOf(ms[all[i]], ([item] + items)[i], extract) {
      if i > 0 { assert all[i] == at[i - 1] + 1 && ms[all[i]] == ms[1..][at[i - 1]]; }
    }
    forall i, j | 0 <= i < j < |all| ensures all[i] < all[j] {
      assert all[j] == at[j - 1] + 1;
      if i > 0 { assert all[i] == at[i - 1] + 1; }
    }
    forall k | 0 <= k < |ms| && Relevant(ms[k], extract) ensures k in all {
      if k > 0 {
        assert ms[1..][k - 1] == ms[k];
        var i :| 0 <= i < |at| && at[i] == k - 1;
        assert all[i + 1] == k;
      }
    }
  }

  /** The reader takes exactly the relevant messages, in order, each with its own id, over
      however many lines their data comes. */
  lemma {:induction false} ReaderTakesRelevant(r: Reader, ms: seq<Message>, extract: string -> Option<string>)
    returns (at: seq<nat>)
    requires r.data == []
    ensures TakenAt(ms, Items(r, StreamLinesOf(ms), extract), at, extract)
    decreases |ms|
  {
    at := [];
    if ms != [] {
      MessageRead(r, ms[0], StreamLinesOf(ms[1..]), extract);
      var rest := ReaderTakesRelevant(Reader(ms[0].id, []), ms[1..], extract);
      var items := Items(Reader(ms[0].id, []), StreamLinesOf(ms[1..]), extract);
      var later := seq(|rest|, i requires 0 <= i < |rest| => rest[i] + 1);
      hide TakenAt, Items, Relevant, IsItemOf, Completed;
      CompletedIs(ms[0], extract);
      if Relevant(ms[0], extract) {
        at := [0] + later;
        var some := Completed(Reader(ms[0].id, ms[0].data), "", extract);
        assert some == [some[0]];
        TakenFirst(ms, some[0], items, rest, extract, at);
      } else {
        at := later;
        assert [] + items == items;
        TakenBehind(ms, items, rest, extract, at);
      }
    }
  }
}
