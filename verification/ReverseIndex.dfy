/** The reverse index: for every slot (property key, value) the comma-joined list of
    the entity ids whose mappings contain that entry, as the Lua scripts edit it. */
module ReverseIndex {
  import opened Text
  import opened Mappings
  import opened EntityMaps

  type Index = map<Slot, string>

  function Holders(idx: Index, slot: Slot): seq<string> {
    if slot in idx then Tokens(idx[slot], ',') else []
  }

  predicate Holds(idx: Index, slot: Slot, eid: string) { eid in Holders(idx, slot) }

  predicate GoodList(list: string) {
    var parts := Tokens(list, ',');
    parts != [] && Ascending(parts) && Join(parts, ',') == list
  }

  /** Every list is nonempty, sorted, free of repeats and canonically joined. */
  ghost predicate WellFormed(idx: Index) {
    forall slot :: slot in idx ==> GoodList(idx[slot])
  }

  function Without(parts: seq<string>, eid: string): seq<string> {
    if parts == [] then []
    else
      var n := |parts| - 1;
      Without(parts[..n], eid) + if parts[n] == eid then [] else [parts[n]]
  }

  /** add_idx of the upsert script. */
  function AddIdx(idx: Index, eid: string, e: Entry): Index {
    var slot := SlotOf(e);
    if slot !in idx then idx[slot := eid]
    else if eid in Tokens(idx[slot], ',') then idx
    else idx[slot := Join(Sort(Tokens(idx[slot], ',') + [eid]), ',')]
  }

  /** del_idx of the upsert script, and the same loop of the delete script. */
  function DelIdx(idx: Index, eid: string, e: Entry): Index {
    var slot := SlotOf(e);
    if slot !in idx then idx
    else
      var parts := Without(Tokens(idx[slot], ','), eid);
      if parts == [] then idx - {slot} else idx[slot := Join(parts, ',')]
  }

  /** DelIdx for every entry that is not kept. */
  function Retract(idx: Index, eid: string, es: seq<Entry>, keep: set<Entry>): Index {
    if es == [] then idx
    else
      var n := |es| - 1;
      var before := Retract(idx, eid, es[..n], keep);
      if es[n] in keep then before else DelIdx(before, eid, es[n])
  }

  /** AddIdx for every entry that was not there before. */
  function Extend(idx: Index, eid: string, es: seq<Entry>, had: set<Entry>): Index {
    if es == [] then idx
    else
      var n := |es| - 1;
      var before := Extend(idx, eid, es[..n], had);
      if es[n] in had then before else AddIdx(before, eid, es[n])
  }

  function Members(es: seq<Entry>): set<Entry> { set e | e in es }

  /** The index edits of one changing upsert. */
  function Reindex(idx: Index, eid: string, prev: Option<seq<Entry>>, next: seq<Entry>): Index {
    match prev
    case None => Extend(idx, eid, next, {})
    case Some(was) => Extend(Retract(idx, eid, was, Members(next)), eid, next, Members(was))
  }

  // ------------------------------------------------- what one edit does

  lemma {:induction false} WithoutMembers(parts: seq<string>, eid: string)
    ensures forall t :: t in Without(parts, eid) <==> t in parts && t != eid
    ensures Ascending(parts) ==> Ascending(Without(parts, eid))
  {
    if parts != [] {
      var n := |parts| - 1;
      var rest := Without(parts[..n], eid);
      WithoutMembers(parts[..n], eid);
      assert parts == parts[..n] + [parts[n]];
      if Ascending(parts) {
        forall i | 0 <= i < |rest| ensures Lt(rest[i], parts[n]) {
          assert rest[i] in parts[..n];
        }
      }
    }
  }

  lemma GoodJoin(parts: seq<string>)
    requires parts != [] && Ascending(parts) && AreTokens(parts, ',')
    ensures GoodList(Join(parts, ',')) && Tokens(Join(parts, ','), ',') == parts
  {
    TokensJoin(parts, ',');
  }

  lemma TokensOf(parts: seq<string>, of: seq<string>, extra: string)
    requires AreTokens(of, ',') && IsToken(extra, ',')
    requires forall t :: t in parts ==> t in of || t == extra
    ensures AreTokens(parts, ',')
  {
    forall i | 0 <= i < |parts| ensures IsToken(parts[i], ',') {
      assert parts[i] in parts;
    }
  }

  lemma AddIdxHolds(idx: Index, eid: string, e: Entry)
    requires WellFormed(idx) && IsToken(eid, ',')
    ensures WellFormed(AddIdx(idx, eid, e))
    ensures forall slot, t :: Holds(AddIdx(idx, eid, e), slot, t) <==>
                              Holds(idx, slot, t) || (slot == SlotOf(e) && t == eid)
  {
    var slot := SlotOf(e);
    if slot !in idx {
      GoodJoin([eid]);
    } else {
      var parts := Tokens(idx[slot], ',');
      if eid !in parts {
        SortAppended(parts, eid);
        TokensAreTokens(idx[slot], ',');
        TokensOf(Sort(parts + [eid]), parts, eid);
        assert eid in Sort(parts + [eid]);
        GoodJoin(Sort(parts + [eid]));
      }
    }
  }

  lemma DelIdxHolds(idx: Index, eid: string, e: Entry)
    requires WellFormed(idx) && IsToken(eid, ',')
    ensures WellFormed(DelIdx(idx, eid, e))
    ensures forall slot, t :: Holds(DelIdx(idx, eid, e), slot, t) <==>
                              Holds(idx, slot, t) && !(slot == SlotOf(e) && t == eid)
  {
    var slot := SlotOf(e);
    if slot in idx {
      var parts := Tokens(idx[slot], ',');
      WithoutMembers(parts, eid);
      TokensAreTokens(idx[slot], ',');
      TokensOf(Without(parts, eid), parts, eid);
      if Without(parts, eid) != [] { GoodJoin(Without(parts, eid)); }
    }
  }

  predicate Edited(es: seq<Entry>, skip: set<Entry>, slot: Slot) {
    exists e :: e in es && e !in skip && SlotOf(e) == slot
  }

  lemma EditedStep(es: seq<Entry>, skip: set<Entry>, slot: Slot)
    requires es != []
    ensures Edited(es, skip, slot) <==>
            Edited(es[..|es| - 1], skip, slot) || (es[|es| - 1] !in skip && SlotOf(es[|es| - 1]) == slot)
  {
    assert es == es[..|es| - 1] + [es[|es| - 1]];
  }

  lemma {:induction false} RetractHolds(idx: Index, eid: string, es: seq<Entry>, keep: set<Entry>)
    requires WellFormed(idx) && IsToken(eid, ',')
    ensures WellFormed(Retract(idx, eid, es, keep))
    ensures forall slot, t :: Holds(Retract(idx, eid, es, keep), slot, t) <==>
                              Holds(idx, slot, t) && !(t == eid && Edited(es, keep, slot))
  {
    if es != [] {
      var n := |es| - 1;
      RetractHolds(idx, eid, es[..n], keep);
      forall slot ensures Edited(es, keep, slot) <==>
                          Edited(es[..n], keep, slot) || (es[n] !in keep && SlotOf(es[n]) == slot) {
        EditedStep(es, keep, slot);
      }
      if es[n] !in keep { DelIdxHolds(Retract(idx, eid, es[..n], keep), eid, es[n]); }
    }
  }

  lemma {:induction false} ExtendHolds(idx: Index, eid: string, es: seq<Entry>, had: set<Entry>)
    requires WellFormed(idx) && IsToken(eid, ',')
    ensures WellFormed(Extend(idx, eid, es, had))
    ensures forall slot, t :: Holds(Extend(idx, eid, es, had), slot, t) <==>
                              Holds(idx, slot, t) || (t == eid && Edited(es, had, slot))
  {
    if es != [] {
      var n := |es| - 1;
      ExtendHolds(idx, eid, es[..n], had);
      forall slot ensures Edited(es, had, slot) <==>
                          Edited(es[..n], had, slot) || (es[n] !in had && SlotOf(es[n]) == slot) {
        EditedStep(es, had, slot);
      }
      if es[n] !in had { AddIdxHolds(Extend(idx, eid, es[..n], had), eid, es[n]); }
    }
  }

  // --------------------------------------------------- one upsert or delete

  /** Whatever repeats the old and new mappings contain, after an upsert eid is listed
      exactly in the slots of the new mappings, and no other entity moved. */
  lemma ReindexHolds(idx: Index, eid: string, prev: Option<seq<Entry>>, next: seq<Entry>)
    requires WellFormed(idx) && IsToken(eid, ',')
    requires forall slot :: Holds(idx, slot, eid) <==> prev.Some? && slot in Slots(prev.value)
    ensures WellFormed(Reindex(idx, eid, prev, next))
    ensures forall slot, t :: Holds(Reindex(idx, eid, prev, next), slot, t) <==>
                              if t == eid then slot in Slots(next) else Holds(idx, slot, t)
  {
    var was := if prev.Some? then prev.value else [];
    var mid := if prev.Some? then Retract(idx, eid, was, Members(next)) else idx;
    var had := if prev.Some? then Members(was) else {};
    if prev.Some? { RetractHolds(idx, eid, was, Members(next)); }
    ExtendHolds(mid, eid, next, had);
    forall slot ensures Holds(Reindex(idx, eid, prev, next), slot, eid) <==> slot in Slots(next) {
      if slot in Slots(next) {
        var e :| e in next && SlotOf(e) == slot;
        if e in had {
          forall d | d in was && SlotOf(d) == slot ensures d in Members(next) {
            SlotInjective(d, e);
          }
        }
      } else if slot in Slots(was) {
        var d :| d in was && SlotOf(d) == slot;
        assert d !in Members(next);
      }
    }
  }

  lemma UnindexHolds(idx: Index, eid: string, was: seq<Entry>)
    requires WellFormed(idx) && IsToken(eid, ',')
    requires forall slot :: Holds(idx, slot, eid) <==> slot in Slots(was)
    ensures WellFormed(Retract(idx, eid, was, {}))
    ensures forall slot, t :: Holds(Retract(idx, eid, was, {}), slot, t) <==> t != eid && Holds(idx, slot, t)
  {
    RetractHolds(idx, eid, was, {});
    forall slot | slot in Slots(was) ensures Edited(was, {}, slot) {
      var e :| e in was && SlotOf(e) == slot;
    }
  }

  // ------------------------------------------------ agreement with the map

  predicate Owns(entities: EntityMap, slot: Slot, eid: string) {
    exists q :: q in entities && FormatInt(q) == eid && slot in Slots(Entries(entities[q]))
  }

  /** The index agrees with the entity map it speeds up. */
  ghost predicate Agrees(entities: EntityMap, idx: Index) {
    && WellFormed(idx)
    && forall slot, eid :: Holds(idx, slot, eid) <==> Owns(entities, slot, eid)
  }

  lemma OwnsAt(entities: EntityMap, slot: Slot, q: Qid)
    ensures Owns(entities, slot, FormatInt(q)) <==> q in entities && slot in Slots(Entries(entities[q]))
  {
    if Owns(entities, slot, FormatInt(q)) {
      var r :| r in entities && FormatInt(r) == FormatInt(q) && slot in Slots(Entries(entities[r]));
      FormatIntInjective(r, q);
    }
  }

  /** In plain terms: id q is listed under (P, value) iff its mappings contain "P<prop>:<value>". */
  lemma AgreesMeans(entities: EntityMap, idx: Index, e: Entry, q: Qid)
    requires Agrees(entities, idx)
    ensures FormatInt(q) in Holders(idx, SlotOf(e)) <==> q in entities && e in Entries(entities[q])
  {
    OwnsAt(entities, SlotOf(e), q);
    assert Holds(idx, SlotOf(e), FormatInt(q)) <==> Owns(entities, SlotOf(e), FormatInt(q));
    if q in entities && SlotOf(e) in Slots(Entries(entities[q])) {
      var d :| d in Entries(entities[q]) && SlotOf(d) == SlotOf(e);
      SlotInjective(d, e);
    }
  }

  lemma OwnsElsewhere(a: EntityMap, b: EntityMap, q: Qid, slot: Slot, eid: string)
    requires a - {q} == b - {q} && eid != FormatInt(q)
    ensures Owns(a, slot, eid) <==> Owns(b, slot, eid)
  {
    forall r | r != q ensures r in a <==> r in b {
      assert r in a - {q} <==> r in b - {q};
    }
    forall r | r != q && r in a ensures a[r] == b[r] {
      assert a[r] == (a - {q})[r] == (b - {q})[r] == b[r];
    }
  }

  lemma EidIsToken(q: Qid)
    ensures IsToken(FormatInt(q), ',')
  {
    FormatIntAvoids(q, ',');
  }

  function EntriesAt(entities: EntityMap, q: Qid): Option<seq<Entry>> {
    if q in entities then Some(Entries(entities[q])) else None
  }

  /** An upsert keeps the index in agreement. */
  lemma UpsertAgrees(entities: EntityMap, idx: Index, q: Qid, raw: Raw)
    requires Agrees(entities, idx)
    ensures Agrees(entities[q := raw], Reindex(idx, FormatInt(q), EntriesAt(entities, q), Entries(raw)))
  {
    var eid := FormatInt(q);
    EidIsToken(q);
    forall slot ensures Holds(idx, slot, eid) <==> q in entities && slot in Slots(Entries(entities[q])) {
      OwnsAt(entities, slot, q);
      assert Holds(idx, slot, eid) <==> Owns(entities, slot, eid);
    }
    ReindexHolds(idx, eid, EntriesAt(entities, q), Entries(raw));
    var after := Reindex(idx, eid, EntriesAt(entities, q), Entries(raw));
    forall slot, t ensures Holds(after, slot, t) <==> Owns(entities[q := raw], slot, t) {
      if t == eid { OwnsAt(entities[q := raw], slot, q); }
      else {
        assert entities[q := raw] - {q} == entities - {q};
        OwnsElsewhere(entities, entities[q := raw], q, slot, t);
      }
    }
  }

  /** So does a delete. */
  lemma DeleteAgrees(entities: EntityMap, idx: Index, q: Qid)
    requires Agrees(entities, idx) && q in entities
    ensures Agrees(entities - {q}, Retract(idx, FormatInt(q), Entries(entities[q]), {}))
  {
    var eid := FormatInt(q);
    EidIsToken(q);
    forall slot ensures Holds(idx, slot, eid) <==> slot in Slots(Entries(entities[q])) {
      OwnsAt(entities, slot, q);
      assert Holds(idx, slot, eid) <==> Owns(entities, slot, eid);
    }
    UnindexHolds(idx, eid, Entries(entities[q]));
    var after := Retract(idx, eid, Entries(entities[q]), {});
    forall slot, t ensures Holds(after, slot, t) <==> Owns(entities - {q}, slot, t) {
      if t == eid { OwnsAt(entities - {q}, slot, q); }
      else {
        assert (entities - {q}) - {q} == entities - {q};
        OwnsElsewhere(entities, entities - {q}, q, slot, t);
      }
    }
  }

  /** The index is a function of the entity map: two stores with the same entities
      have the same index text, whatever histories led there. */
  lemma IndexUnique(entities: EntityMap, a: Index, b: Index)
    requires Agrees(entities, a) && Agrees(entities, b)
    ensures a == b
  {
    forall slot ensures slot in a <==> slot in b {
      assert slot in a ==> Holds(a, slot, Holders(a, slot)[0]);
      assert slot in b ==> Holds(b, slot, Holders(b, slot)[0]);
    }
    forall slot | slot in a ensures a[slot] == b[slot] {
      forall t ensures t in Holders(a, slot) <==> t in Holders(b, slot) {
        assert Holds(a, slot, t) <==> Holds(b, slot, t);
      }
      AscendingUnique(Holders(a, slot), Holders(b, slot));
    }
  }

  lemma EmptyAgrees()
    ensures Agrees(map[], map[])
  {
  }
}
