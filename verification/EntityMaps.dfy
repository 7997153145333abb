/** Changes and their replay. A snapshot line, a changelog entry and a stream
    event are all one change: set the mappings of an entity, or remove it. */
module EntityMaps {
  import opened Text
  import opened Mappings

  /** A numeric Wikidata id; ParseInt keeps it within int64. */
  type Qid = q: int | IsInt64(q) witness 0

  type EntityMap = map<Qid, Raw>

  datatype Change = Change(qid: Qid, mappings: Option<Raw>)

  /** A change the scripts can work with: a removal, or mappings that decode. */
  predicate Decodable(c: Change) { c.mappings.Some? ==> Decodes(c.mappings.value) }

  predicate AllDecodable(cs: seq<Change>) { forall i :: 0 <= i < |cs| ==> Decodable(cs[i]) }

  predicate AllDecode(m: EntityMap) { forall q :: q in m ==> Decodes(m[q]) }

  /** A change the line formats can carry. */
  predicate PlainChange(c: Change) { c.mappings.Some? ==> Plain(c.mappings.value) }

  predicate AllPlain(cs: seq<Change>) { forall i :: 0 <= i < |cs| ==> PlainChange(cs[i]) }

  predicate PlainMap(m: EntityMap) { forall q :: q in m ==> Plain(m[q]) }

  lemma DecodableIsPlain(c: Change)
    requires Decodable(c)
    ensures PlainChange(c)
  {
    if c.mappings.Some? { RawIsOneLine(c.mappings.value); }
  }

  function Get(m: EntityMap, q: Qid): Option<Raw> {
    if q in m then Some(m[q]) else None
  }

  function ApplyChange(m: EntityMap, c: Change): EntityMap {
    if c.mappings.Some? then m[c.qid := c.mappings.value] else m - {c.qid}
  }

  function Replay(m: EntityMap, cs: seq<Change>): EntityMap {
    if cs == [] then m else ApplyChange(Replay(m, cs[..|cs| - 1]), cs[|cs| - 1])
  }

  predicate Writes(cs: seq<Change>, q: Qid) {
    exists i :: 0 <= i < |cs| && cs[i].qid == q
  }

  /** The value the last change of q leaves, or what there was before. */
  function LastValue(cs: seq<Change>, q: Qid, before: Option<Raw>): Option<Raw> {
    if cs == [] then before
    else if cs[|cs| - 1].qid == q then cs[|cs| - 1].mappings
    else LastValue(cs[..|cs| - 1], q, before)
  }

  lemma LastValueAppend(cs: seq<Change>, c: Change, q: Qid, before: Option<Raw>)
    ensures LastValue(cs + [c], q, before) == if c.qid == q then c.mappings else LastValue(cs, q, before)
  {
    assert (cs + [c])[..|cs|] == cs;
  }

  lemma {:induction false} ReplayAt(m: EntityMap, cs: seq<Change>, q: Qid)
    ensures Get(Replay(m, cs), q) == LastValue(cs, q, Get(m, q))
  {
    if cs != [] { ReplayAt(m, cs[..|cs| - 1], q); }
  }

  lemma {:induction false} LastValueOfWritten(cs: seq<Change>, q: Qid, a: Option<Raw>, b: Option<Raw>)
    requires Writes(cs, q)
    ensures LastValue(cs, q, a) == LastValue(cs, q, b)
  {
    var i :| 0 <= i < |cs| && cs[i].qid == q;
    if cs[|cs| - 1].qid != q {
      assert cs[..|cs| - 1][i].qid == q;
      LastValueOfWritten(cs[..|cs| - 1], q, a, b);
    }
  }

  lemma {:induction false} LastValueOfUnwritten(cs: seq<Change>, q: Qid, a: Option<Raw>)
    requires !Writes(cs, q)
    ensures LastValue(cs, q, a) == a
  {
    if cs != [] {
      assert cs[|cs| - 1].qid != q;
      assert !Writes(cs[..|cs| - 1], q);
      LastValueOfUnwritten(cs[..|cs| - 1], q, a);
    }
  }

  lemma SameAt(a: EntityMap, b: EntityMap)
    requires forall q :: Get(a, q) == Get(b, q)
    ensures a == b
  {
    forall q ensures q in a <==> q in b {
      assert Get(a, q) == Get(b, q);
    }
    forall q | q in a ensures a[q] == b[q] {
      assert Get(a, q) == Get(b, q);
    }
  }

  /** Replaying onto two maps that differ only where the changes write gives one map. */
  lemma ReplayForgets(a: EntityMap, b: EntityMap, cs: seq<Change>)
    requires forall q :: !Writes(cs, q) ==> Get(a, q) == Get(b, q)
    ensures Replay(a, cs) == Replay(b, cs)
  {
    forall q ensures Get(Replay(a, cs), q) == Get(Replay(b, cs), q) {
      ReplayAt(a, cs, q);
      ReplayAt(b, cs, q);
      if Writes(cs, q) { LastValueOfWritten(cs, q, Get(a, q), Get(b, q)); }
    }
    SameAt(Replay(a, cs), Replay(b, cs));
  }

  /** That is exact. */
  lemma ReplaySameIff(a: EntityMap, b: EntityMap, cs: seq<Change>)
    ensures Replay(a, cs) == Replay(b, cs) <==> forall q :: Writes(cs, q) || Get(a, q) == Get(b, q)
  {
    if q :| !Writes(cs, q) && Get(a, q) != Get(b, q) {
      ReplayAt(a, cs, q);
      ReplayAt(b, cs, q);
      LastValueOfUnwritten(cs, q, Get(a, q));
      LastValueOfUnwritten(cs, q, Get(b, q));
    } else {
      ReplayForgets(a, b, cs);
    }
  }

  /** A map that already contains a change replays to the same result: the reader may
      run ahead of its cursor on the entities that are still to be replayed. */
  lemma ReplayAbsorbs(m: EntityMap, c: Change, cs: seq<Change>)
    requires Writes(cs, c.qid)
    ensures Replay(ApplyChange(m, c), cs) == Replay(m, cs)
  {
    ReplayForgets(ApplyChange(m, c), m, cs);
  }

  lemma {:induction false} ReplayConcat(m: EntityMap, a: seq<Change>, b: seq<Change>)
    ensures Replay(m, a + b) == Replay(Replay(m, a), b)
  {
    if b == [] {
      assert a + b == a;
    } else {
      assert (a + b)[..|a + b| - 1] == a + b[..|b| - 1];
      ReplayConcat(m, a, b[..|b| - 1]);
    }
  }

  lemma ReplayAppend(m: EntityMap, cs: seq<Change>, c: Change)
    ensures Replay(m, cs + [c]) == ApplyChange(Replay(m, cs), c)
  {
    assert (cs + [c])[..|cs|] == cs;
  }

  lemma {:induction false} ReplayDecodes(m: EntityMap, cs: seq<Change>)
    requires AllDecode(m) && AllDecodable(cs)
    ensures AllDecode(Replay(m, cs))
  {
    if cs != [] {
      ReplayDecodes(m, cs[..|cs| - 1]);
      assert Decodable(cs[|cs| - 1]);
    }
  }

  lemma ReplayNext(m: EntityMap, cs: seq<Change>, k: nat)
    requires 0 < k <= |cs|
    ensures Replay(m, cs[..k]) == ApplyChange(Replay(m, cs[..k - 1]), cs[k - 1])
  {
    assert cs[..k][..k - 1] == cs[..k - 1];
  }

  lemma ReplayCons(m: EntityMap, c: Change, cs: seq<Change>)
    ensures Replay(m, [c] + cs) == Replay(ApplyChange(m, c), cs)
  {
    ReplayConcat(m, [c], cs);
    assert Replay(m, [c]) == ApplyChange(m, c) by {
      assert [c][..0] == [];
    }
  }

  /** Applying any part of the pending changes first, in any order and any number of
      times, does not change what replaying all of them gives. */
  lemma {:induction false} ReplayAbsorbsAll(m: EntityMap, early: seq<Change>, cs: seq<Change>)
    requires forall c :: c in early ==> Writes(cs, c.qid)
    ensures Replay(Replay(m, early), cs) == Replay(m, cs)
  {
    if early != [] {
      var n := |early| - 1;
      ReplayAbsorbsAll(m, early[..n], cs);
      assert early[n] in early;
      ReplayAbsorbs(Replay(m, early[..n]), early[n], cs);
    }
  }
}
