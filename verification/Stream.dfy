/** The server side of the change stream: the coverage check, and the bounded read loop. */
module Stream {
  import opened Text
  import opened EntityMaps
  import opened Store
  import opened StreamIds

  const STREAM_READ_COUNT: nat := 100

  function Last(log: seq<LogEntry>): nat
    requires log != []
  {
    log[|log| - 1].id
  }

  // ---------------------------------------------------------- coverage check

  /** checkStreamGap and isSnapshotCurrent on a cursor: there are retained entries, and the
      cursor is not older than the oldest one. */
  predicate Covered(log: seq<LogEntry>, cursor: nat) {
    log != [] && cursor >= log[0].id
  }

  /** checkStreamGap on the text of the request. */
  predicate CoveredText(log: seq<LogEntry>, since: string) {
    since != "0" && since != "0-0" && log != [] && CompareStreamIds(since, IdText(log[0].id)) >= 0
  }

  /** The check on text is the check on positions; the special case for "0" and "0-0" agrees
      with it because no entry has id 0-0. */
  lemma CoveredTextIsCovered(log: seq<LogEntry>, since: string)
    requires log != [] ==> 0 < log[0].id < BASE * BASE
    ensures CoveredText(log, since) <==> Covered(log, Rank(since))
  {
    if log != [] {
      RankIdText(log[0].id);
      CompareIsRankOrder(since, IdText(log[0].id));
      assert Rank("0") == 0 by { assert RunLength("0", '-') == 1; assert "0"[..1] == "0"; assert ParseUint("0") == 0; }
      assert Rank("0-0") == 0 by {
        assert RunLength("0-0", '-') == 1;
        assert "0-0"[..1] == "0" && "0-0"[2..] == "0";
        assert ParseUint("0") == 0;
      }
    }
  }

  /** An accepted cursor belongs to the current changelog, and every entry appended to it
      after the cursor is still retained. */
  lemma CoverageSound(db: Db, cursor: nat)
    requires Ordered(db) && Covered(db.log, cursor)
    ensures cursor > db.floor
    ensures After(History(db), cursor) == After(db.log, cursor)
  {
    assert History(db)[|db.removed|] == db.log[0];
    forall i | 0 <= i < |db.removed| ensures db.removed[i].id <= cursor {
      assert History(db)[i] == db.removed[i];
    }
    AfterNothing(db.removed, cursor);
    AfterSkips(db.removed, db.log, cursor);
  }

  /** Exactly: a cursor that names an entry of the current history is accepted iff that entry
      is still retained. */
  lemma CoveredIff(db: Db, cursor: nat)
    requires Ordered(db) && db.log != []
    requires exists e :: e in History(db) && e.id == cursor
    ensures Covered(db.log, cursor) <==> exists e :: e in db.log && e.id == cursor
  {
    var n := |db.removed|;
    assert History(db)[n] == db.log[0];
    if d :| d in db.log && d.id == cursor {
      var j :| 0 <= j < |db.log| && db.log[j] == d;
      assert History(db)[n + j] == d;
    }
    if Covered(db.log, cursor) {
      var e :| e in History(db) && e.id == cursor;
      var i :| 0 <= i < |History(db)| && History(db)[i] == e;
      assert i >= n;
      assert db.log[i - n] == e;
    }
  }

  /** A cursor from before a flush is never accepted, whatever happened since. */
  lemma FlushedCursorRejected(before: Db, ops: seq<Op>, cursor: nat)
    requires Ordered(before) && cursor <= before.clock
    ensures !Covered(PerformAll(Flush(before), ops).log, cursor)
  {
    PerformAllOrdered(Flush(before), ops);
    var db := PerformAll(Flush(before), ops);
    if db.log != [] { assert History(db)[|db.removed|] == db.log[0]; }
  }

  lemma TrimKeepsLast(db: Db, minId: nat, limit: nat)
    requires db.log != []
    ensures Trim(db, minId, limit).log != []
    ensures Last(Trim(db, minId, limit).log) == Last(db.log)
  {
  }

  lemma LastCovered(db: Db)
    requires Ordered(db) && db.log != []
    ensures Covered(db.log, Last(db.log))
  {
    var n := |db.removed|;
    assert History(db)[n] == db.log[0] && History(db)[n + |db.log| - 1] == db.log[|db.log| - 1];
  }

  /** A caught-up reader survives any number of trims: its cursor stays the last id, and
      stays covered. */
  lemma {:induction false} CaughtUpStaysCovered(db: Db, ops: seq<Op>)
    requires Ordered(db) && db.log != []
    requires forall i :: 0 <= i < |ops| ==> ops[i].TrimTo?
    ensures PerformAll(db, ops).log != [] && Last(PerformAll(db, ops).log) == Last(db.log)
    ensures Covered(PerformAll(db, ops).log, Last(db.log))
  {
    if ops != [] {
      var n := |ops| - 1;
      CaughtUpStaysCovered(db, ops[..n]);
      TrimKeepsLast(PerformAll(db, ops[..n]), ops[n].minId, ops[n].limit);
    }
    PerformAllOrdered(db, ops);
    LastCovered(PerformAll(db, ops));
  }

  // --------------------------------------------------------------- read loop

  /** XREAD COUNT count after the cursor. */
  function Read(log: seq<LogEntry>, cursor: nat, count: nat): (r: seq<LogEntry>)
    ensures |r| <= count
  {
    var all := After(log, cursor);
    if |all| > count then all[..count] else all
  }

  function Min(a: nat, b: nat): nat { if a < b then a else b }

  /** What the loop sends from its n-th read on, when the i-th read sees views[i]. */
  function Served(views: seq<seq<LogEntry>>, n: nat, cursor: nat, budget: nat, wait: bool): (r: seq<LogEntry>)
    requires n <= |views|
    ensures |r| <= budget
    decreases |views| - n
  {
    if n == |views| || budget == 0 then []
    else
      var events := Read(views[n], cursor, Min(STREAM_READ_COUNT, budget));
      if events == [] then if wait then Served(views, n + 1, cursor, budget, wait) else []
      else events + Served(views, n + 1, Last(events), budget - |events|, wait)
  }

  /** The view is a window of the history whose start no trim moved past the cursor. */
  ghost predicate Window(h: seq<LogEntry>, view: seq<LogEntry>, cursor: nat) {
    exists t: nat, n: nat :: WindowAt(h, view, cursor, t, n)
  }

  predicate WindowAt(h: seq<LogEntry>, view: seq<LogEntry>, cursor: nat, t: nat, n: nat) {
    t <= n <= |h| && view == h[t..n] && After(h[..t], cursor) == []
  }

  /** No trim passes the loop's cursor and no flush intervenes, read by read. */
  ghost predicate Undisturbed(h: seq<LogEntry>, views: seq<seq<LogEntry>>, n: nat, cursor: nat, budget: nat)
    requires n <= |views|
    decreases |views| - n
  {
    n == |views| || budget == 0 ||
    (Window(h, views[n], cursor) &&
     var events := Read(views[n], cursor, Min(STREAM_READ_COUNT, budget));
     if events == [] then Undisturbed(h, views, n + 1, cursor, budget)
     else Undisturbed(h, views, n + 1, Last(events), budget - |events|))
  }

  lemma WindowReads(h: seq<LogEntry>, view: seq<LogEntry>, cursor: nat)
    requires Increasing(h) && Window(h, view, cursor)
    ensures After(view, cursor) <= After(h, cursor)
  {
    var t: nat, n: nat :| WindowAt(h, view, cursor, t, n);
    assert h == h[..t] + (view + h[n..]);
    AfterInParts(h[..t], view, h[n..], cursor);
  }

  lemma AfterInParts(gone: seq<LogEntry>, view: seq<LogEntry>, rest: seq<LogEntry>, cursor: nat)
    requires Increasing(gone + (view + rest)) && After(gone, cursor) == []
    ensures After(view, cursor) <= After(gone + (view + rest), cursor)
  {
    AfterSkips(gone, view + rest, cursor);
    IncreasingParts(gone, view + rest);
    AfterOfPrefix(view, rest, cursor);
  }

  lemma AfterOfPrefix(a: seq<LogEntry>, b: seq<LogEntry>, cursor: nat)
    requires Increasing(a + b)
    ensures After(a, cursor) <= After(a + b, cursor)
  {
    AfterIsSuffix(a, cursor);
    IncreasingParts(a, b);
    if After(a, cursor) != [] {
      var last := a[|a| - 1];
      assert (a + b)[|a| - 1] == last;
      assert last in After(a, cursor);
      AfterMembers(a, cursor);
      forall j | 0 <= j < |b| ensures b[j].id > cursor {
        assert (a + b)[|a| + j] == b[j];
      }
      AfterConcat(a, b, cursor);
    }
  }

  /** One read continues the history: what it takes is its beginning, the rest comes next. */
  lemma ReadAdvances(h: seq<LogEntry>, view: seq<LogEntry>, cursor: nat, count: nat)
    requires Increasing(h) && Window(h, view, cursor)
    ensures var events := Read(view, cursor, count);
            events != [] ==> After(h, cursor) == events + After(h, Last(events))
  {
    var events := Read(view, cursor, count);
    WindowReads(h, view, cursor);
    assert events <= After(view, cursor) <= After(h, cursor);
    if events != [] { AfterAdvance(h, cursor, events, After(h, cursor)[|events|..]); }
  }

  lemma PrefixAfter(events: seq<LogEntry>, more: seq<LogEntry>, rest: seq<LogEntry>)
    requires more <= rest
    ensures events + more <= events + rest
  {
  }

  /** The chunked loop sends exactly a contiguous in-order run of the history after
      `since`, no longer than the limit. */
  lemma {:induction false} ServedIsOneSlice(h: seq<LogEntry>, views: seq<seq<LogEntry>>, n: nat, since: nat,
                                            budget: nat, wait: bool)
    requires n <= |views| && Increasing(h) && Undisturbed(h, views, n, since, budget)
    ensures Served(views, n, since, budget, wait) <= After(h, since)
    decreases |views| - n
  {
    if n < |views| && budget > 0 {
      var events := Read(views[n], since, Min(STREAM_READ_COUNT, budget));
      if events == [] {
        if wait { ServedIsOneSlice(h, views, n + 1, since, budget, wait); }
      } else {
        ReadAdvances(h, views[n], since, Min(STREAM_READ_COUNT, budget));
        ServedIsOneSlice(h, views, n + 1, Last(events), budget - |events|, wait);
        PrefixAfter(events, Served(views, n + 1, Last(events), budget - |events|, wait), After(h, Last(events)));
      }
    }
  }

  /** The loop does not look at the coverage again, so the hypothesis is needed, exactly: a
      read of the log trimmed to h[t..] continues the history after the cursor iff no trim
      passed the cursor or there is nothing left to read. */
  lemma ReadContinuesIff(h: seq<LogEntry>, t: nat, cursor: nat, count: nat)
    requires Increasing(h) && t <= |h| && count > 0
    ensures Read(h[t..], cursor, count) <= After(h, cursor) <==> After(h[..t], cursor) == [] || t == |h|
  {
    var kept := h[t..];
    assert h == h[..t] + kept;
    if After(h[..t], cursor) == [] {
      AfterSkips(h[..t], kept, cursor);
    } else if t < |h| {
      TrimmedPastCursor(h[..t], kept, cursor);
    }
  }

  lemma Unwritten(m: EntityMap, cs: seq<Change>, q: Qid)
    requires !Writes(cs, q)
    ensures Get(Replay(m, cs), q) == Get(m, q)
  {
    ReplayAt(m, cs, q);
    LastValueOfUnwritten(cs, q, Get(m, q));
  }

  lemma AllAfterFlush(db: Db, cursor: nat)
    requires Ordered(db) && cursor <= db.floor
    ensures After(db.log, cursor) == db.log
  {
    if db.log != [] { assert History(db)[|db.removed|] == db.log[0]; }
  }

  lemma RetainedReplays(db: Db, base: EntityMap)
    requires Valid(db) && base == Replay(map[], Changes(db.removed))
    ensures db.entities == Replay(base, Changes(db.log))
  {
    ChangesConcat(db.removed, db.log);
    ReplayConcat(map[], Changes(db.removed), Changes(db.log));
  }

  /** A flush under an open stream: the loop reads on from its old cursor and sends everything
      retained since. Exactly when is that still right for the reader? Iff each entity is written
      again in it, or the reader has it as the store does. */
  lemma ReadAfterFlushIff(db: Db, cursor: nat, entities: EntityMap)
    requires Valid(db) && cursor <= db.floor
    ensures After(db.log, cursor) == db.log
    ensures Replay(entities, Changes(db.log)) == db.entities <==>
            forall q :: Writes(Changes(db.log), q) || Get(entities, q) == Get(db.entities, q)
  {
    var cs, base := Changes(db.log), Replay(map[], Changes(db.removed));
    AllAfterFlush(db, cursor);
    RetainedReplays(db, base);
    hide Valid, Replay, Changes, After;
    ReplaySameIff(entities, base, cs);
    forall q | !Writes(cs, q) ensures Get(base, q) == Get(db.entities, q) {
      Unwritten(base, cs, q);
    }
  }

  lemma TrimmedPastCursor(gone: seq<LogEntry>, kept: seq<LogEntry>, cursor: nat)
    requires Increasing(gone + kept) && After(gone, cursor) != [] && kept != []
    ensures After(kept, cursor) == kept
    ensures After(gone + kept, cursor) != [] && After(gone + kept, cursor)[0].id < kept[0].id
  {
    IncreasingParts(gone, kept);
    AfterMembers(gone, cursor);
    var e := After(gone, cursor)[0];
    assert e in gone && e.id > cursor;
    var i :| 0 <= i < |gone| && gone[i] == e;
    forall j | 0 <= j < |kept| ensures kept[j].id > e.id {
      assert (gone + kept)[|gone| + j] == kept[j] && (gone + kept)[i] == e;
    }
    AfterConcat(gone, kept, cursor);
  }

  // ------------------------------------------------------------------ handler

  /** The limit of parseStreamRequestOptions: the server's maximum, or a smaller request. */
  function EffectiveLimit(raw: string, maxEvents: int): (r: Option<int>)
    ensures r.Some? ==> 0 < r.value <= maxEvents
    ensures r.Some? && raw != "" ==> ParseInt64(raw).Some? && r.value <= ParseInt64(raw).value
    ensures r.Some? && r.value != maxEvents ==> raw != "" && r.value == ParseInt64(raw).value
    ensures r.None? <==> maxEvents <= 0 || (raw != "" && (ParseInt64(raw).None? || ParseInt64(raw).value <= 0))
  {
    if maxEvents <= 0 then None
    else if raw == "" then Some(maxEvents)
    else
      match ParseInt64(raw)
      case None => None
      case Some(n) => if n <= 0 then None else Some(if n < maxEvents then n else maxEvents)
  }

  /** Its timeout: the values of the parameter, if it is present at all, must be one duration.
      `parse` is the parser of durations. */
  function EffectiveTimeout(raw: Option<seq<string>>, parse: string -> Option<int>, maxTimeout: int): (r: Option<int>)
    ensures r.Some? ==> 0 <= r.value <= maxTimeout
    ensures r.Some? && raw.Some? ==>
              |raw.value| == 1 && parse(raw.value[0]).Some? && r.value <= parse(raw.value[0]).value
    ensures r.Some? && r.value != maxTimeout ==> raw.Some? && Some(r.value) == parse(raw.value[0])
    ensures r.None? <==>
            maxTimeout < 0 || (raw.Some? && (|raw.value| != 1 || raw.value[0] == "" ||
                                             parse(raw.value[0]).None? || parse(raw.value[0]).value < 0))
  {
    if maxTimeout < 0 then None
    else if raw.None? then Some(maxTimeout)
    else if |raw.value| != 1 || raw.value[0] == "" then None
    else
      match parse(raw.value[0])
      case None => None
      case Some(n) => if n < 0 then None else Some(if n < maxTimeout then n else maxTimeout)
  }

  /** The query of a request, and what the server allows. */
  datatype Query = Query(limit: string, timeout: Option<seq<string>>, maxEvents: int, maxTimeout: int)

  /** The limit, and whether reads may wait for new entries. */
  datatype Options = Options(limit: nat, wait: bool)

  function ParseOptions(q: Query, parse: string -> Option<int>): (r: Option<Options>)
    ensures r.None? <==>
            EffectiveLimit(q.limit, q.maxEvents).None? || EffectiveTimeout(q.timeout, parse, q.maxTimeout).None?
    ensures r.Some? ==> Some(r.value.limit) == EffectiveLimit(q.limit, q.maxEvents)
    ensures r.Some? ==> (r.value.wait <==> EffectiveTimeout(q.timeout, parse, q.maxTimeout) != Some(0))
  {
    match (EffectiveLimit(q.limit, q.maxEvents), EffectiveTimeout(q.timeout, parse, q.maxTimeout))
    case (Some(limit), Some(timeout)) => Some(Options(limit, timeout > 0))
    case _ => None
  }

  datatype Response = BadRequest | Unavailable | Reset | Events(sent: seq<LogEntry>, cursor: nat)

  /** ServeStream. `atCheck` is the log the coverage check sees (None: the store cannot be
      reached), `views` what the successive reads see. */
  method ServeStream(atCheck: Option<seq<LogEntry>>, views: seq<seq<LogEntry>>, since: nat, query: Query,
                     parse: string -> Option<int>)
    returns (r: Response)
    ensures r.BadRequest? <==> ParseOptions(query, parse).None?
    ensures r.Unavailable? <==> !r.BadRequest? && atCheck.None?
    ensures r.Reset? <==> !r.BadRequest? && atCheck.Some? && !Covered(atCheck.value, since)
    ensures r.Events? ==>
              var options := ParseOptions(query, parse).value;
              r.sent == Served(views, 0, since, options.limit, options.wait)
    ensures r.Events? ==> r.cursor == LastOr(r.sent, since)
  {
    var parsed := ParseOptions(query, parse);
    if parsed.None? { return BadRequest; }
    if atCheck.None? { return Unavailable; }
    if !Covered(atCheck.value, since) { return Reset; }
    var sent, cursor := SendReads(views, since, parsed.value.limit, parsed.value.wait);
    r := Events(sent, cursor);
  }

  /** What was sent and what is still to come are everything. */
  ghost predicate Sending(all: seq<LogEntry>, sent: seq<LogEntry>, views: seq<seq<LogEntry>>, n: nat, cursor: nat,
                          left: nat, wait: bool)
    requires n <= |views|
  {
    all == sent + Served(views, n, cursor, left, wait)
  }

  lemma SendingNext(all: seq<LogEntry>, sent: seq<LogEntry>, views: seq<seq<LogEntry>>, n: nat, cursor: nat,
                    left: nat, wait: bool)
    requires n < |views| && left > 0 && Sending(all, sent, views, n, cursor, left, wait)
    ensures var events := Read(views[n], cursor, Min(STREAM_READ_COUNT, left));
            if events == [] then if wait then Sending(all, sent, views, n + 1, cursor, left, wait) else all == sent
            else Sending(all, sent + events, views, n + 1, Last(events), left - |events|, wait)
  {
    var events := Read(views[n], cursor, Min(STREAM_READ_COUNT, left));
    if events != [] { Regroup(sent, events, Served(views, n + 1, Last(events), left - |events|, wait)); }
  }

  /** The read loop. */
  method SendReads(views: seq<seq<LogEntry>>, since: nat, limit: nat, wait: bool)
    returns (sent: seq<LogEntry>, cursor: nat)
    ensures sent == Served(views, 0, since, limit, wait)
    ensures cursor == LastOr(sent, since)
  {
    var n, eventsSent := 0, 0;
    sent, cursor := [], since;
    ghost var all := Served(views, 0, since, limit, wait);
    while eventsSent < limit && n < |views|
      invariant n <= |views| && |sent| == eventsSent <= limit
      invariant cursor == LastOr(sent, since)
      invariant Sending(all, sent, views, n, cursor, limit - eventsSent, wait)
    {
      SendingNext(all, sent, views, n, cursor, limit - eventsSent, wait);
      var events := Read(views[n], cursor, Min(STREAM_READ_COUNT, limit - eventsSent));
      n := n + 1;
      if events != [] {
        sent, cursor := SendEvents(events, sent, cursor);
        eventsSent := eventsSent + |events|;
      } else if !wait {
        return;
      }
    }
  }

  method SendEvents(events: seq<LogEntry>, before: seq<LogEntry>, at: nat) returns (sent: seq<LogEntry>, cursor: nat)
    ensures sent == before + events && cursor == LastOr(events, at)
  {
    sent, cursor := before, at;
    for i := 0 to |events|
      invariant sent == before + events[..i] && cursor == LastOr(events[..i], at)
    {
      sent := sent + [events[i]];
      cursor := events[i].id;
    }
    assert events[..|events|] == events;
  }

  function LastOr(es: seq<LogEntry>, cursor: nat): nat {
    if es == [] then cursor else Last(es)
  }
}
