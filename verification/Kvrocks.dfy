/** The store that the scripts edit in place, the pipelines that queue commands for it,
    and the changelog trimmer. Every method is proved against the functions of Store. */
module Kvrocks {
  import opened Text
  import opened Mappings
  import opened EntityMaps
  import opened ReverseIndex
  import opened Store

  const TRIM_BATCH_SIZE: nat := 10000

  /** What a script returns. */
  datatype Reply = Changed(any: bool) | Error

  /** How the connection treats a pipeline: it is answered, or the connection breaks once some of
      its commands have run. When all of them have, only the reply is lost. */
  datatype Trip = Answered | Lost(commands: nat)

  /** How many of n commands run. */
  function Ran(trip: Trip, n: nat): (k: nat)
    ensures k <= n && (trip.Answered? ==> k == n)
  {
    if trip.Lost? && trip.commands < n then trip.commands else n
  }

  /** None of the pipelines from a up to b is lost. */
  predicate NoneLost(net: nat -> Trip, a: nat, b: nat) { forall n :: a <= n < b ==> net(n).Answered? }

  /** The store, behind a network that decides about every pipeline in advance: `calls` of them
      were sent so far. */
  class Server {
    const net: nat -> Trip
    var calls: nat
    var entities: EntityMap
    var index: Index
    var log: seq<LogEntry>
    var clock: nat
    var count: int
    var meta: Meta
    ghost var removed: seq<LogEntry>
    ghost var floor: nat

    constructor (net: nat -> Trip)
      ensures Value() == EMPTY && this.net == net && calls == 0
    {
      this.net, calls := net, 0;
      entities, index, log, clock, count, meta := map[], map[], [], 0, 0, NO_META;
      removed, floor := [], 0;
    }

    ghost function Value(): Db
      reads this
    {
      Db(entities, index, removed, log, clock, floor, count, meta)
    }

    /** add_idx: walk the list looking for eid, and sort it in when it is missing. */
    method AddToIndex(eid: string, e: Entry)
      modifies this`index
      ensures index == AddIdx(old(index), eid, e)
    {
      var slot := SlotOf(e);
      if slot !in index {
        index := index[slot := eid];
        return;
      }
      var cur := Tokens(index[slot], ',');
      var parts, found := [], false;
      for i := 0 to |cur|
        invariant parts == cur[..i] && found == (eid in cur[..i])
      {
        assert cur[..i + 1] == cur[..i] + [cur[i]];
        if cur[i] == eid { found := true; }
        parts := parts + [cur[i]];
      }
      assert cur[..|cur|] == cur;
      if found { return; }
      parts := Sort(parts + [eid]);
      index := index[slot := Join(parts, ',')];
    }

    /** del_idx: keep every other id, and drop the slot when none is left. */
    method DeleteFromIndex(eid: string, e: Entry)
      modifies this`index
      ensures index == DelIdx(old(index), eid, e)
    {
      var slot := SlotOf(e);
      if slot !in index { return; }
      var cur := Tokens(index[slot], ',');
      var parts := [];
      for i := 0 to |cur|
        invariant parts == Without(cur[..i], eid)
      {
        assert cur[..i + 1][..i] == cur[..i];
        if cur[i] != eid { parts := parts + [cur[i]]; }
      }
      assert cur[..|cur|] == cur;
      if parts == [] {
        index := index - {slot};
      } else {
        index := index[slot := Join(parts, ',')];
      }
    }

    method RetractAll(eid: string, es: seq<Entry>, keep: set<Entry>)
      modifies this`index
      ensures index == Retract(old(index), eid, es, keep)
    {
      for i := 0 to |es|
        invariant index == Retract(old(index), eid, es[..i], keep)
      {
        assert es[..i + 1][..i] == es[..i];
        if es[i] !in keep { DeleteFromIndex(eid, es[i]); }
      }
      assert es[..|es|] == es;
    }

    method ExtendAll(eid: string, es: seq<Entry>, had: set<Entry>)
      modifies this`index
      ensures index == Extend(old(index), eid, es, had)
    {
      for i := 0 to |es|
        invariant index == Extend(old(index), eid, es[..i], had)
      {
        assert es[..i + 1][..i] == es[..i];
        if es[i] !in had { AddToIndex(eid, es[i]); }
      }
      assert es[..|es|] == es;
    }

    method XAdd(c: Change, now: nat)
      modifies this`log, this`clock
      ensures log == old(log) + [LogEntry(NextId(old(clock), now), c)]
      ensures clock == NextId(old(clock), now)
    {
      clock := NextId(clock, now);
      log := log + [LogEntry(clock, c)];
    }

    /** The part of the upsert script from the first decoding on. */
    method EditIndex(eid: string, prev: Option<Raw>, raw: Raw) returns (ok: bool)
      modifies this`index
      ensures ok == (Decodes(raw) && (prev.Some? ==> Decodes(prev.value)))
      ensures !ok ==> index == old(index)
      ensures ok ==>
                var was := if prev.Some? then Some(Entries(prev.value)) else None;
                index == Reindex(old(index), eid, was, Entries(raw))
    {
      if !Decodes(raw) { return false; }
      var next := Entries(raw);
      if prev.None? {
        ExtendAll(eid, next, {});
      } else {
        if !Decodes(prev.value) { return false; }
        var was := Entries(prev.value);
        RetractAll(eid, was, Members(next));
        ExtendAll(eid, next, Members(was));
      }
      ok := true;
    }

    /** The upsert script, which answers whether anything changed, or with an error. */
    method UpsertScript(q: Qid, raw: Raw, now: nat) returns (reply: Reply)
      modifies this
      ensures Value() == Upsert(old(Value()), q, raw, now) && calls == old(calls)
      ensures reply.Error? <==> Fails(old(entities), Write(Change(q, Some(raw))))
      ensures reply == Changed(false) <==> Get(old(entities), q) == Some(raw)
      ensures old(Valid(Value())) && Decodes(raw) ==> Valid(Value())
    {
      hide Valid, Reindex, Decodes, Entries;
      ghost var before := Value();
      var prev := Get(entities, q);
      if prev == Some(raw) { return Changed(false); }
      entities := entities[q := raw];
      var ok := EditIndex(FormatInt(q), prev, raw);
      reply := if ok then Changed(true) else Error;
      if ok {
        XAdd(Change(q, Some(raw)), now);
        if prev.None? { count := count + 1; }
      }
      assert Value() == Upsert(before, q, raw, now);
      if Valid(before) && Decodes(raw) { WriteValid(before, Change(q, Some(raw)), now); }
    }

    /** The delete script. */
    method DeleteScript(q: Qid, now: nat) returns (reply: Reply)
      modifies this
      ensures Value() == Delete(old(Value()), q, now) && calls == old(calls)
      ensures reply.Error? <==> Fails(old(entities), Write(Change(q, None)))
      ensures reply == Changed(false) <==> q !in old(entities)
      ensures old(Valid(Value())) ==> Valid(Value())
    {
      hide Valid, Decodes, Entries, Retract;
      ghost var before := Value();
      if Valid(before) { WriteValid(before, Change(q, None), now); }
      if q !in entities { return Changed(false); }
      var raw := entities[q];
      entities := entities - {q};
      if !Decodes(raw) { return Error; }
      RetractAll(FormatInt(q), Entries(raw), {});
      XAdd(Change(q, None), now);
      count := count - 1;
      reply := Changed(true);
      assert Value() == Delete(before, q, now);
    }

    method FlushDB()
      modifies this
      ensures Value() == Flush(old(Value())) && calls == old(calls)
    {
      entities, index, log, count, meta := map[], map[], [], 0, NO_META;
      removed, floor := [], clock;
    }

    /** One queued command. */
    method Run(cmd: Cmd, now: nat) returns (ok: bool)
      modifies this
      ensures Value() == Apply(old(Value()), cmd, now) && calls == old(calls)
      ensures ok == !Fails(old(entities), cmd)
      ensures old(Valid(Value())) && Sane(cmd) ==> Valid(Value())
    {
      ghost var before := Value();
      ok := true;
      match cmd {
        case Write(c) =>
          if c.mappings.Some? {
            var reply := UpsertScript(c.qid, c.mappings.value, now);
            ok := !reply.Error?;
          } else {
            var reply := DeleteScript(c.qid, now);
            ok := !reply.Error?;
          }
        case FlushAll => FlushDB();
        case SetLast(id) => meta := meta.(last := Some(id));
        case SetEtag(t) => meta := meta.(etag := Some(t));
        case SetOffset(o) => meta := meta.(offset := Some(o));
        case SetApplied(n) => meta := meta.(applied := Some(n));
        case SetCount(n) => count := n;
        case ClearProgress => meta := meta.(etag := None, offset := None, applied := None);
        case SetOther =>
      }
      assert Value() == Apply(before, cmd, now);
      if Valid(before) && Sane(cmd) { ApplyValid(before, cmd, now); }
    }

    /** StreamTrimOlderThan: at most `limit` entries, all older than minId, never all. */
    method StreamTrimOlderThan(minId: nat, limit: nat) returns (n: nat)
      modifies this`log, this`removed
      ensures Value() == Trim(old(Value()), minId, limit)
      ensures n == TrimCount(old(log), minId, limit) == |old(log)| - |log|
    {
      var found := Older(log, minId);
      var batch := log[..if found > limit + 1 then limit + 1 else found];
      if |batch| == 0 { return 0; }
      var trimId := batch[|batch| - 1].id;
      n := |batch| - 1;
      removed := removed + log[..n];
      log := log[n..];
    }

    /** The trimmer's backlog loop for one cutoff: it goes on while full batches are
        removed, and leaves at most one older entry behind. */
    method DrainBacklog(minId: nat)
      modifies this`log, this`removed
      ensures Older(log, minId) <= 1
      ensures old(log) != [] ==> log != []
      ensures DroppedOlder(old(log), log, minId)
      ensures old(Valid(Value())) ==> Valid(Value())
    {
      var n := TrimFullBatch(minId);
      ghost var first := old(log);
      while n >= TRIM_BATCH_SIZE
        invariant first != [] ==> log != []
        invariant DroppedOlder(first, log, minId)
        invariant n < TRIM_BATCH_SIZE ==> Older(log, minId) <= 1
        invariant old(Valid(Value())) ==> Valid(Value())
        decreases |log|, n
      {
        ghost var before := log;
        n := TrimFullBatch(minId);
        DropTransitive(first, before, log, minId);
      }
    }

    method TrimFullBatch(minId: nat) returns (n: nat)
      modifies this`log, this`removed
      ensures DroppedOlder(old(log), log, minId)
      ensures old(log) != [] ==> log != []
      ensures n < TRIM_BATCH_SIZE ==> Older(log, minId) <= 1
      ensures |log| + n == |old(log)|
      ensures old(Valid(Value())) ==> Valid(Value())
    {
      ghost var before := Value();
      n := StreamTrimOlderThan(minId, TRIM_BATCH_SIZE);
      OlderDrops(before.log, minId, n);
      assert DroppedFirst(before.log, log, minId, n);
      if Valid(before) { TrimValid(before, minId, TRIM_BATCH_SIZE); }
    }

    /** The lookup script and its reader, by the number of a property and a value: everyone
        who has this entry, each once, in the order of the list. (The reader also skips "[]"
        values; a listed entity never has one.) */
    method LookupByProperty(property: int, value: string) returns (results: seq<(Qid, Raw)>)
      requires Agrees(entities, index)
      ensures forall q: Qid ::
                Found(results, q) <==> q in entities && LookupText(property, value) in Entries(entities[q])
      ensures forall i :: 0 <= i < |results| ==> results[i].0 in entities && results[i].1 == entities[results[i].0]
      ensures forall i, j :: 0 <= i < j < |results| ==> Lt(FormatInt(results[i].0), FormatInt(results[j].0))
    {
      results := [];
      var slot := ("p:" + FormatInt(property), value);
      var eids := Holders(index, slot);
      for i := 0 to |eids|
        invariant Reads(entities, eids[..i], results)
      {
        ListedParses(entities, index, slot, eids[i]);
        var qid := ParseInt64(eids[i]).value;
        ReadsMore(entities, eids, i, results, qid);
        results := results + [(qid, entities[qid])];
      }
      assert eids[..|eids|] == eids;
      LookupExact(entities, index, property, value, results);
    }
  }

  /** The entry a lookup finds: the property printed in decimal. */
  function LookupText(property: int, value: string): string { "P" + FormatInt(property) + ":" + value }

  predicate Found(results: seq<(Qid, Raw)>, q: Qid) {
    exists i :: 0 <= i < |results| && results[i].0 == q
  }

  /** The results read for the listed ids, one by one. */
  ghost predicate Reads(entities: EntityMap, eids: seq<string>, results: seq<(Qid, Raw)>) {
    && |results| == |eids|
    && forall i :: 0 <= i < |eids| ==>
         FormatInt(results[i].0) == eids[i] && results[i].0 in entities && results[i].1 == entities[results[i].0]
  }

  lemma ReadsMore(entities: EntityMap, eids: seq<string>, i: nat, results: seq<(Qid, Raw)>, q: Qid)
    requires i < |eids| && Reads(entities, eids[..i], results)
    requires q in entities && FormatInt(q) == eids[i]
    ensures Reads(entities, eids[..i + 1], results + [(q, entities[q])])
  {
  }

  lemma ListedParses(entities: EntityMap, index: Index, slot: Slot, eid: string)
    requires Agrees(entities, index) && eid in Holders(index, slot)
    ensures ParseInt64(eid).Some? && ParseInt64(eid).value in entities && FormatInt(ParseInt64(eid).value) == eid
  {
    assert Holds(index, slot, eid);
    var q :| q in entities && FormatInt(q) == eid && slot in Slots(Entries(entities[q]));
    ParseFormatInt(q);
  }

  lemma LookupParts(property: int, value: string)
    ensures var t, n := LookupText(property, value), FormatInt(property);
            RunLength(t, ':') == 1 + |n| && t[1..1 + |n|] == n && t[2 + |n|..] == value
  {
    var head := "P" + FormatInt(property);
    FormatIntAvoids(property, ':');
    assert LookupText(property, value) == head + (":" + value);
    RunLengthPrefix(head, ":" + value, ':');
  }

  lemma SlotFromText(property: int, value: string, e: Entry)
    requires e == LookupText(property, value)
    ensures SlotOf(e) == ("p:" + FormatInt(property), value)
  {
    LookupParts(property, value);
  }

  lemma TextFromSlot(property: int, value: string, e: Entry)
    requires SlotOf(e) == ("p:" + FormatInt(property), value)
    ensures e == LookupText(property, value)
  {
    EntryParts(e);
    var p, n := ParseFlatEntry(e).value.0, FormatInt(property);
    assert p == ("p:" + p)[2..] == ("p:" + n)[2..] == n;
  }

  /** Only the entry with this text lives in the slot of a lookup. */
  lemma SlotOfLookup(property: int, value: string, e: Entry)
    ensures SlotOf(e) == ("p:" + FormatInt(property), value) <==> e == LookupText(property, value)
  {
    if e == LookupText(property, value) { SlotFromText(property, value, e); }
    if SlotOf(e) == ("p:" + FormatInt(property), value) { TextFromSlot(property, value, e); }
  }

  /** The number of an entry's property. */
  function NumberOf(e: Entry): Qid { ParseInt64(ParseFlatEntry(e).value.0).value }

  lemma LookedUpAs(e: Entry, property: Qid, value: string)
    requires LookupText(property, value) == e
    ensures ParseFlatEntry(e).value == (FormatInt(property), value) && NumberOf(e) == property
  {
    LookupParts(property, value);
    ParseFormatInt(property);
  }

  /** An entry is what some lookup asks for iff its property text is the decimal print of its
      number; then it is the lookup of that number and of its value, and no other. An entry with
      a sign or leading zeros in its property is stored and indexed, and never found. */
  lemma FoundIff(e: Entry)
    ensures (exists n: Qid, v: string :: LookupText(n, v) == e) <==>
            ParseFlatEntry(e).value.0 == FormatInt(NumberOf(e))
    ensures forall n: Qid, v: string :: LookupText(n, v) == e ==>
              n == NumberOf(e) && v == ParseFlatEntry(e).value.1
  {
    EntryParts(e);
    forall n: Qid, v: string | LookupText(n, v) == e
      ensures ParseFlatEntry(e).value == (FormatInt(n), v) && NumberOf(e) == n {
      LookedUpAs(e, n, v);
    }
    if ParseFlatEntry(e).value.0 == FormatInt(NumberOf(e)) {
      assert LookupText(NumberOf(e), ParseFlatEntry(e).value.1) == e;
    }
  }

  lemma LookupExact(entities: EntityMap, index: Index, property: int, value: string, results: seq<(Qid, Raw)>)
    requires Agrees(entities, index)
    requires Reads(entities, Holders(index, ("p:" + FormatInt(property), value)), results)
    ensures forall q: Qid :: Found(results, q) <==> q in entities && LookupText(property, value) in Entries(entities[q])
    ensures forall i, j :: 0 <= i < j < |results| ==> Lt(FormatInt(results[i].0), FormatInt(results[j].0))
  {
    var slot := ("p:" + FormatInt(property), value);
    var eids := Holders(index, slot);
    forall q: Qid ensures Found(results, q) <==> q in entities && LookupText(property, value) in Entries(entities[q]) {
      ListedIff(entities, index, property, value, q);
      if FormatInt(q) in eids {
        var i :| 0 <= i < |eids| && eids[i] == FormatInt(q);
        FormatIntInjective(results[i].0, q);
      }
      if Found(results, q) {
        var i :| 0 <= i < |results| && results[i].0 == q;
        assert eids[i] in eids;
      }
    }
  }

  lemma ListedIff(entities: EntityMap, index: Index, property: int, value: string, q: Qid)
    requires Agrees(entities, index)
    ensures FormatInt(q) in Holders(index, ("p:" + FormatInt(property), value)) <==>
            q in entities && LookupText(property, value) in Entries(entities[q])
  {
    var slot := ("p:" + FormatInt(property), value);
    OwnsAt(entities, slot, q);
    assert Holds(index, slot, FormatInt(q)) <==> Owns(entities, slot, FormatInt(q));
    if q in entities {
      forall e | e in Entries(entities[q]) ensures SlotOf(e) == slot <==> e == LookupText(property, value) {
        SlotOfLookup(property, value, e);
      }
    }
  }

  /** `rest` is `log` without some of the entries at its head that are older than minId. */
  ghost predicate DroppedOlder(log: seq<LogEntry>, rest: seq<LogEntry>, minId: nat) {
    exists k: nat :: DroppedFirst(log, rest, minId, k)
  }

  predicate DroppedFirst(log: seq<LogEntry>, rest: seq<LogEntry>, minId: nat, k: nat) {
    k <= Older(log, minId) && rest == log[k..]
  }

  lemma DropTransitive(a: seq<LogEntry>, b: seq<LogEntry>, c: seq<LogEntry>, minId: nat)
    requires DroppedOlder(a, b, minId) && DroppedOlder(b, c, minId)
    ensures DroppedOlder(a, c, minId)
  {
    var k: nat :| DroppedFirst(a, b, minId, k);
    var n: nat :| DroppedFirst(b, c, minId, n);
    OlderDrops(a, minId, k);
    assert DroppedFirst(a, c, minId, k + n);
  }

  lemma {:induction false} OlderDrops(log: seq<LogEntry>, minId: nat, k: nat)
    requires k <= Older(log, minId)
    ensures Older(log[k..], minId) == Older(log, minId) - k
  {
    if k > 0 {
      OlderDrops(log[1..], minId, k - 1);
      assert log[1..][k - 1..] == log[k..];
    } else {
      assert log[0..] == log;
    }
  }

  // -------------------------------------------------------------- pipelines

  /** qidToInt. */
  function QidToInt(qid: string): Option<Qid> {
    if qid == "" || (qid[0] != 'Q' && qid[0] != 'q') then None
    else
      match ParseInt64(qid[1..])
      case None => None
      case Some(n) => Some(n)
  }

  function IntToQid(q: Qid): string { "Q" + FormatInt(q) }

  lemma QidRoundTrip(q: Qid)
    ensures QidToInt(IntToQid(q)) == Some(q)
  {
    ParseFormatInt(q);
    assert IntToQid(q)[1..] == FormatInt(q);
  }

  /** None of the first k commands is answered with an error. */
  ghost predicate Succeeds(db: Db, cmds: seq<Cmd>, now: int -> nat, k: nat)
    requires k <= |cmds|
  {
    forall i :: 0 <= i < k ==> !Fails(ApplyPrefix(db, cmds, now, i).entities, cmds[i])
  }

  /** On a valid store good values are never refused. */
  lemma GoodBatchSucceeds(db: Db, batch: seq<Change>, now: int -> nat, k: nat)
    requires Valid(db) && AllDecodable(batch) && k <= |Puts(batch)|
    ensures Succeeds(db, Puts(batch), now, k)
  {
    hide Valid;
    PutsAt(batch);
    forall i | 0 <= i < k ensures !Fails(ApplyPrefix(db, Puts(batch), now, i).entities, Puts(batch)[i]) {
      ApplyPrefixValid(db, Puts(batch), now, i);
      GoodWriteFits(ApplyPrefix(db, Puts(batch), now, i), batch[i]);
    }
  }

  lemma GoodWriteFits(db: Db, c: Change)
    requires Valid(db) && Decodable(c)
    ensures !Fails(db.entities, Write(c))
  {
  }

  lemma NothingRan(db: Db, cmds: seq<Cmd>, now: int -> nat)
    ensures ApplyPrefix(db, cmds, now, 0) == db && Succeeds(db, cmds, now, 0)
  {
  }

  method RunNext(server: Server, cmds: seq<Cmd>, now: int -> nat, k: nat, ghost before: Db) returns (fine: bool)
    requires k < |cmds| && server.Value() == ApplyPrefix(before, cmds, now, k)
    modifies server
    ensures server.Value() == ApplyPrefix(before, cmds, now, k + 1) && server.calls == old(server.calls)
    ensures fine && Succeeds(before, cmds, now, k) <==> Succeeds(before, cmds, now, k + 1)
  {
    fine := server.Run(cmds[k], now(k));
  }

  /** A pipeline: queued commands and an error that sticks. */
  class Pipe {
    var queued: seq<Cmd>
    var err: bool

    constructor ()
      ensures queued == [] && !err
    {
      queued, err := [], false;
    }

    /** Any text but the empty one is queued unchecked. */
    method UpsertRawEntity(qid: string, raw: Raw)
      modifies this
      ensures err == (old(err) || QidToInt(qid).None? || raw == "")
      ensures queued == if err then old(queued) else old(queued) + [Write(Change(QidToInt(qid).value, Some(raw)))]
    {
      if err { return; }
      var id := QidToInt(qid);
      if id.None? { err := true; return; }
      if raw == "" { err := true; return; }
      queued := queued + [Write(Change(id.value, Some(raw)))];
    }

    /** Checks every entry before anything is queued; the first bad one poisons the pipe. */
    method UpsertEntity(qid: string, mappings: seq<string>)
      modifies this
      ensures err == (old(err) || QidToInt(qid).None? || !AllEntries(mappings))
      ensures queued == if err then old(queued)
                        else old(queued) + [Write(Change(QidToInt(qid).value, Some(Canonical(mappings))))]
    {
      if err { return; }
      var id := QidToInt(qid);
      if id.None? { err := true; return; }
      for i := 0 to |mappings|
        invariant AllEntries(mappings[..i]) && !err && queued == old(queued)
      {
        if ParseFlatEntry(mappings[i]).None? { err := true; return; }
      }
      assert mappings[..|mappings|] == mappings;
      queued := queued + [Write(Change(id.value, Some(Canonical(mappings))))];
    }

    method DeleteEntity(qid: string)
      modifies this
      ensures err == (old(err) || QidToInt(qid).None?)
      ensures queued == if err then old(queued) else old(queued) + [Write(Change(QidToInt(qid).value, None))]
    {
      if err { return; }
      var id := QidToInt(qid);
      if id.None? { err := true; return; }
      queued := queued + [Write(Change(id.value, None))];
    }

    /** SetSyncState, DelSyncStates and the other plain commands. */
    method Queue(cmd: Cmd)
      modifies this
      ensures err == old(err)
      ensures queued == if err then old(queued) else old(queued) + [cmd]
    {
      if !err { queued := queued + [cmd]; }
    }

    /** Exec: a poisoned pipe touches nothing, and one that holds nothing sends nothing. Otherwise
        the network decides: an answered pipeline runs whole, and fails exactly when one of its
        commands is answered with an error, which does not stop the commands after it; of a lost
        one some prefix ran. */
    method Exec(server: Server, now: int -> nat) returns (ok: bool, applied: nat)
      modifies server
      ensures applied <= |queued|
      ensures server.Value() == ApplyPrefix(old(server.Value()), queued, now, applied)
      ensures err || queued == [] ==> ok == !err && applied == 0 && server.calls == old(server.calls)
      ensures !err && queued != [] ==>
                var trip := server.net(old(server.calls));
                && server.calls == old(server.calls) + 1 && applied == Ran(trip, |queued|)
                && (ok <==> trip.Answered? && Succeeds(old(server.Value()), queued, now, |queued|))
      ensures old(Valid(server.Value())) && AllSane(queued) ==> Valid(server.Value())
    {
      hide Valid, Succeeds, ApplyPrefix, AllSane;
      ghost var before := server.Value();
      NothingRan(before, queued, now);
      ok, applied := !err, 0;
      if err || queued == [] { return; }
      var trip := server.net(server.calls);
      server.calls := server.calls + 1;
      while applied < Ran(trip, |queued|)
        invariant applied <= Ran(trip, |queued|) && server.calls == old(server.calls) + 1
        invariant server.Value() == ApplyPrefix(before, queued, now, applied)
        invariant ok <==> Succeeds(before, queued, now, applied)
      {
        var fine := RunNext(server, queued, now, applied, before);
        ok, applied := ok && fine, applied + 1;
      }
      if Valid(before) && AllSane(queued) { ApplyPrefixValid(before, queued, now, applied); }
      ok := ok && trip.Answered?;
    }
  }

  // ---------------------------------------------------------- whole batches

  /** What the seed and the processor write: an id and a flat list of entries. */
  datatype EntityRecord = EntityRecord(wikidataId: string, mappings: seq<string>)

  /** The change a record asks for, unless its id or one of its entries is malformed. */
  function ChangeOf(rec: EntityRecord): (r: Option<Change>)
    ensures r.Some? ==> Decodable(r.value)
  {
    var q := QidToInt(rec.wikidataId);
    if q.None? || !AllEntries(rec.mappings) then None else Some(Change(q.value, Some(Canonical(rec.mappings))))
  }

  function ChangesOf(recs: seq<EntityRecord>): (cs: seq<Option<Change>>)
    ensures |cs| == |recs| && forall i :: 0 <= i < |cs| ==> cs[i] == ChangeOf(recs[i])
  {
    seq(|recs|, i requires 0 <= i < |recs| => ChangeOf(recs[i]))
  }

  predicate AllSome<T>(os: seq<Option<T>>) { forall i :: 0 <= i < |os| ==> os[i].Some? }

  function Values<T>(os: seq<Option<T>>): seq<T>
    requires AllSome(os)
  {
    if os == [] then [] else Values(os[..|os| - 1]) + [os[|os| - 1].value]
  }

  lemma {:induction false} ValuesAt<T>(os: seq<Option<T>>)
    requires AllSome(os)
    ensures |Values(os)| == |os| && forall i :: 0 <= i < |os| ==> Values(os)[i] == os[i].value
  {
    if os != [] { ValuesAt(os[..|os| - 1]); }
  }

  lemma ValuesMore<T>(os: seq<Option<T>>, i: nat)
    requires i < |os|
    ensures AllSome(os[..i + 1]) <==> AllSome(os[..i]) && os[i].Some?
    ensures AllSome(os[..i + 1]) ==> Values(os[..i + 1]) == Values(os[..i]) + [os[i].value]
  {
    var now, was := os[..i + 1], os[..i];
    assert now == was + [os[i]] && now[..i] == was;
    if AllSome(now) {
      assert now[i].Some?;
      forall j | 0 <= j < i ensures was[j].Some? { assert now[j] == was[j]; }
    }
  }

  predicate AllStorable(recs: seq<EntityRecord>) { AllSome(ChangesOf(recs)) }

  /** The changes a batch of good records asks for. */
  function UpsertsOf(recs: seq<EntityRecord>): seq<Change>
    requires AllStorable(recs)
  {
    Values(ChangesOf(recs))
  }

  lemma UpsertsDecodable(recs: seq<EntityRecord>)
    requires AllStorable(recs)
    ensures AllDecodable(UpsertsOf(recs)) && |UpsertsOf(recs)| == |recs|
    ensures forall i :: 0 <= i < |recs| ==> UpsertsOf(recs)[i] == ChangeOf(recs[i]).value
  {
    ValuesAt(ChangesOf(recs));
    forall i | 0 <= i < |recs| ensures Decodable(UpsertsOf(recs)[i]) {
      assert ChangesOf(recs)[i] == ChangeOf(recs[i]);
    }
  }

  lemma PutsAppend(cs: seq<Change>, c: Change)
    ensures Puts(cs + [c]) == Puts(cs) + [Write(c)]
  {
    assert (cs + [c])[..|cs|] == cs;
  }

  /** What a pipe holds after these records. */
  ghost predicate Queued(pipe: Pipe, os: seq<Option<Change>>)
    reads pipe
  {
    if AllSome(os) then !pipe.err && pipe.queued == Puts(Values(os)) else pipe.err
  }

  /** One upsert after the other; the first bad record poisons the pipe. */
  method QueueUpserts(pipe: Pipe, recs: seq<EntityRecord>)
    requires !pipe.err && pipe.queued == []
    modifies pipe
    ensures Queued(pipe, ChangesOf(recs))
  {
    ghost var os := ChangesOf(recs);
    for i := 0 to |recs|
      invariant Queued(pipe, os[..i])
    {
      ValuesMore(os, i);
      QueueUpsert(pipe, recs[i]);
      if AllSome(os[..i + 1]) { PutsAppend(Values(os[..i]), os[i].value); }
    }
    assert os[..|recs|] == os;
  }

  method QueueUpsert(pipe: Pipe, rec: EntityRecord)
    modifies pipe
    ensures pipe.err == (old(pipe.err) || ChangeOf(rec).None?)
    ensures pipe.queued == if pipe.err then old(pipe.queued) else old(pipe.queued) + [Write(ChangeOf(rec).value)]
  {
    pipe.UpsertEntity(rec.wikidataId, rec.mappings);
  }
}
