/** extractExternalIDs: from the claims of an item to the canonical list of its mappings. */
module Canonicaliser {
  import opened Text
  import opened Mappings
  import opened EntityMaps
  import opened Store

  /** A claim: the datatype of its main snak, its string value ("" when it has none), its rank. */
  datatype Claim = Claim(dataType: string, value: string, rank: string)

  type Claims = map<string, seq<Claim>>

  /** rankOrder: preferred before all others, deprecated after them. */
  function RankOrder(rank: string): (r: int)
    ensures -1 <= r <= 1
    ensures (r == -1 <==> rank == "preferred") && (r == 1 <==> rank == "deprecated")
  {
    if rank == "preferred" then -1 else if rank == "deprecated" then 1 else 0
  }

  /** An entry before sorting. */
  datatype Found = Found(prop: string, rank: int, value: string)

  predicate IsProperty(key: string) { |key| >= 2 && key[0] == 'P' && ParseInt64(key[1..]).Some? }

  function FoundIn(key: string, c: Claim): seq<Found> {
    if c.dataType == "external-id" && c.value != "" then [Found(key, RankOrder(c.rank), c.value)] else []
  }

  function Collected(key: string, claims: seq<Claim>): seq<Found> {
    if claims == [] then [] else Collected(key, claims[..|claims| - 1]) + FoundIn(key, claims[|claims| - 1])
  }

  /** The collecting loops, visiting the properties in this order. */
  function CollectAll(order: seq<string>, claims: Claims): seq<Found>
    requires forall k :: k in order ==> k in claims
  {
    if order == [] then []
    else
      var n := |order| - 1;
      CollectAll(order[..n], claims) + if IsProperty(order[n]) then Collected(order[n], claims[order[n]]) else []
  }

  // ------------------------------------------------------------------- order

  predicate Less(a: Found, b: Found) {
    if a.prop != b.prop then Lt(a.prop, b.prop)
    else if a.rank != b.rank then a.rank < b.rank
    else Lt(a.value, b.value)
  }

  predicate Leq(a: Found, b: Found) { a == b || Less(a, b) }

  predicate Sorted(s: seq<Found>) { forall i, j :: 0 <= i < j < |s| ==> Leq(s[i], s[j]) }

  lemma LessTotal(a: Found, b: Found)
    ensures a == b || Less(a, b) || Less(b, a)
  {
    LtTotal(a.prop, b.prop);
    LtTotal(a.value, b.value);
  }

  lemma LessTransitive(a: Found, b: Found, c: Found)
    requires Less(a, b) && Less(b, c)
    ensures Less(a, c)
  {
    LtIrreflexive(a.prop);
    if a.prop != b.prop && b.prop != c.prop { LtTransitive(a.prop, b.prop, c.prop); }
    if a.value != b.value && b.value != c.value && Lt(a.value, b.value) && Lt(b.value, c.value) {
      LtTransitive(a.value, b.value, c.value);
    }
  }

  lemma LessIrreflexive(a: Found)
    ensures !Less(a, a)
  {
    LtIrreflexive(a.value);
  }

  lemma LessAsymmetric(a: Found, b: Found)
    requires Less(a, b)
    ensures !Less(b, a)
  {
    if Less(b, a) {
      LessTransitive(a, b, a);
      LessIrreflexive(a);
    }
  }

  function InsertFound(s: seq<Found>, x: Found): (r: seq<Found>)
    ensures multiset(r) == multiset(s) + multiset{x}
  {
    if s == [] || Less(x, s[0]) then [x] + s
    else
      assert s == [s[0]] + s[1..];
      [s[0]] + InsertFound(s[1..], x)
  }

  /** sort.Slice. It is not stable, but on this total order there is only one result. */
  function SortFound(s: seq<Found>): (r: seq<Found>)
    ensures multiset(r) == multiset(s)
  {
    if s == [] then []
    else
      assert s == s[..|s| - 1] + [s[|s| - 1]];
      InsertFound(SortFound(s[..|s| - 1]), s[|s| - 1])
  }

  lemma SameMembers(a: seq<Found>, b: seq<Found>)
    requires multiset(a) == multiset(b)
    ensures forall x :: x in a <==> x in b
  {
    forall x ensures x in a <==> x in b {
      assert x in a <==> x in multiset(a);
      assert x in b <==> x in multiset(b);
    }
  }

  lemma {:induction false} InsertSorted(s: seq<Found>, x: Found)
    requires Sorted(s)
    ensures Sorted(InsertFound(s, x))
  {
    var r := InsertFound(s, x);
    if s == [] {
    } else if Less(x, s[0]) {
      forall j | 0 < j < |r| ensures Leq(x, r[j]) {
        if j > 1 && s[0] != s[j - 1] { LessTransitive(x, s[0], s[j - 1]); }
      }
    } else {
      LessTotal(x, s[0]);
      InsertSorted(s[1..], x);
      SameMembers(InsertFound(s[1..], x), s[1..] + [x]);
      forall j | 0 < j < |r| ensures Leq(r[0], r[j]) {
        assert r[j] == InsertFound(s[1..], x)[j - 1];
        assert r[j] in s[1..] + [x];
      }
    }
  }

  lemma {:induction false} SortSorts(s: seq<Found>)
    ensures Sorted(SortFound(s))
  {
    if s != [] {
      SortSorts(s[..|s| - 1]);
      InsertSorted(SortFound(s[..|s| - 1]), s[|s| - 1]);
    }
  }

  lemma DropFirst(s: seq<Found>)
    requires s != []
    ensures multiset(s[1..]) == multiset(s) - multiset{s[0]}
  {
    assert s == [s[0]] + s[1..];
  }

  lemma SameFirst(a: seq<Found>, b: seq<Found>)
    requires Sorted(a) && Sorted(b) && a != [] && b != [] && multiset(a) == multiset(b)
    ensures a[0] == b[0]
  {
    SameMembers(a, b);
    assert a[0] in b && b[0] in a;
    if a[0] != b[0] {
      assert Leq(a[0], b[0]) && Leq(b[0], a[0]);
      LessAsymmetric(a[0], b[0]);
    }
  }

  lemma SameLength(a: seq<Found>, b: seq<Found>)
    requires multiset(a) == multiset(b)
    ensures |a| == |b|
  {
    assert |multiset(a)| == |a| && |multiset(b)| == |b|;
  }

  /** Sorted lists with the same members, repeats counted, are equal. */
  lemma {:induction false} SortedUnique(a: seq<Found>, b: seq<Found>)
    requires Sorted(a) && Sorted(b) && multiset(a) == multiset(b)
    ensures a == b
  {
    SameLength(a, b);
    if a != [] {
      SameFirst(a, b);
      DropFirst(a);
      DropFirst(b);
      SortedUnique(a[1..], b[1..]);
      assert a == [a[0]] + a[1..] && b == [b[0]] + b[1..];
    }
  }

  // ----------------------------------------------------------- deduplication

  predicate SamePair(a: Found, b: Found) { a.prop == b.prop && a.value == b.value }

  /** The look-back: an entry goes when the one before it has the same property and value. */
  predicate Kept(s: seq<Found>, i: nat)
    requires i < |s|
  {
    i == 0 || !SamePair(s[i - 1], s[i])
  }

  function Survivors(s: seq<Found>): seq<Found> {
    if s == [] then []
    else
      var n := |s| - 1;
      Survivors(s[..n]) + if Kept(s, n) then [s[n]] else []
  }

  function TextOf(e: Found): string { e.prop + ":" + e.value }

  function TextsOf(s: seq<Found>): (r: seq<string>)
    ensures |r| == |s| && forall i :: 0 <= i < |s| ==> r[i] == TextOf(s[i])
  {
    seq(|s|, i requires 0 <= i < |s| => TextOf(s[i]))
  }

  /** The output for what was found. */
  function Extracted(found: seq<Found>): seq<string> { TextsOf(Survivors(SortFound(found))) }

  predicate Strict(s: seq<Found>) { forall i, j :: 0 <= i < j < |s| ==> Less(s[i], s[j]) }

  lemma {:induction false} SurvivorsIn(s: seq<Found>)
    ensures forall x :: x in Survivors(s) ==> x in s
  {
    if s != [] {
      SurvivorsIn(s[..|s| - 1]);
      assert s == s[..|s| - 1] + [s[|s| - 1]];
    }
  }

  lemma {:induction false} SurvivorsStrict(s: seq<Found>)
    requires Sorted(s)
    ensures Strict(Survivors(s))
  {
    if s != [] {
      var n := |s| - 1;
      var rest := Survivors(s[..n]);
      SurvivorsStrict(s[..n]);
      SurvivorsIn(s[..n]);
      if Kept(s, n) {
        forall i | 0 <= i < |rest| ensures Less(rest[i], s[n]) {
          assert rest[i] in s[..n];
          var k :| 0 <= k < n && s[k] == rest[i];
          if s[k] == s[n] { Squeezed(s, k, n); }
        }
      }
    }
  }

  /** Between two equal entries of a sorted list all entries are equal. */
  lemma Squeezed(s: seq<Found>, k: nat, n: nat)
    requires Sorted(s) && k < n < |s| && s[k] == s[n]
    ensures s[n - 1] == s[n]
  {
    if s[n - 1] != s[n] {
      assert Leq(s[k], s[n - 1]) && Leq(s[n - 1], s[n]);
      LessAsymmetric(s[n - 1], s[n]);
    }
  }

  predicate HasPair(s: seq<Found>, prop: string, value: string) {
    exists i :: 0 <= i < |s| && s[i].prop == prop && s[i].value == value
  }

  lemma {:induction false} SurvivorsPairs(s: seq<Found>, prop: string, value: string)
    ensures HasPair(Survivors(s), prop, value) <==> HasPair(s, prop, value)
  {
    if s != [] {
      var n := |s| - 1;
      SurvivorsPairs(s[..n], prop, value);
      PairAppended(s[..n], s[n], prop, value);
      assert s == s[..n] + [s[n]];
      PairAppended(Survivors(s[..n]), s[n], prop, value);
      if !Kept(s, n) {
        assert Survivors(s) == Survivors(s[..n]);
        assert s[..n][n - 1] == s[n - 1];
      }
    }
  }

  lemma PairAppended(s: seq<Found>, e: Found, prop: string, value: string)
    ensures HasPair(s + [e], prop, value) <==> HasPair(s, prop, value) || (e.prop == prop && e.value == value)
  {
    if HasPair(s, prop, value) {
      var i :| 0 <= i < |s| && s[i].prop == prop && s[i].value == value;
      assert (s + [e])[i] == s[i];
    }
    assert (s + [e])[|s|] == e;
  }

  /** Different pairs have different texts, because a property has no colon. */
  lemma TextInjective(a: Found, b: Found)
    requires ':' !in a.prop && ':' !in b.prop && TextOf(a) == TextOf(b)
    ensures SamePair(a, b)
  {
    var ta, tb := a.prop + (":" + a.value), b.prop + (":" + b.value);
    assert ta == TextOf(a) && tb == TextOf(b);
    RunLengthPrefix(a.prop, ":" + a.value, ':');
    RunLengthPrefix(b.prop, ":" + b.value, ':');
    assert a.prop == ta[..|a.prop|] && b.prop == tb[..|b.prop|];
    assert a.value == ta[|a.prop| + 1..] && b.value == tb[|b.prop| + 1..];
  }

  predicate Clean(s: seq<Found>) {
    forall i :: 0 <= i < |s| ==> IsProperty(s[i].prop) && s[i].value != "" && -1 <= s[i].rank <= 1
  }

  lemma NoColon(key: string)
    requires IsProperty(key)
    ensures ':' !in key
  {
    var digits := key[1..];
    var signed := digits[0] == '-' || digits[0] == '+';
    assert AllDigits(if signed then digits[1..] else digits);
    forall i | 0 <= i < |key| ensures key[i] != ':' {
      if i >= 2 { assert key[i] == digits[i - 1] && (signed ==> digits[i - 1] == digits[1..][i - 2]); }
    }
  }

  /** Of two entries with one text in a strictly sorted list, the earlier has the lower rank. */
  lemma RanksGrow(s: seq<Found>, i: nat, j: nat)
    requires Strict(s) && Clean(s) && i < j < |s| && TextOf(s[i]) == TextOf(s[j])
    ensures s[i].rank < s[j].rank
  {
    NoColon(s[i].prop);
    NoColon(s[j].prop);
    TextInjective(s[i], s[j]);
    LtIrreflexive(s[j].value);
  }

  lemma CountAppended(s: seq<string>, x: string, t: string)
    ensures multiset(s + [x])[t] == multiset(s)[t] + if x == t then 1 else 0
  {
  }

  /** Entries with one text have different ranks, in growing order. */
  predicate RankedApart(s: seq<Found>, t: string) {
    && (forall i :: 0 <= i < |s| ==> -1 <= s[i].rank <= 1)
    && (forall i, j :: 0 <= i < j < |s| && TextOf(s[i]) == t == TextOf(s[j]) ==> s[i].rank < s[j].rank)
  }

  lemma StrictRanks(s: seq<Found>, t: string)
    requires Strict(s) && Clean(s)
    ensures RankedApart(s, t)
  {
    forall i, j | 0 <= i < j < |s| && TextOf(s[i]) == t == TextOf(s[j]) ensures s[i].rank < s[j].rank {
      RanksGrow(s, i, j);
    }
  }

  /** So there are few of them. */
  lemma {:induction false} FewPerPair(s: seq<Found>, t: string, top: int)
    requires RankedApart(s, t) && top >= -2
    requires forall i :: 0 <= i < |s| && TextOf(s[i]) == t ==> s[i].rank <= top
    ensures multiset(TextsOf(s))[t] <= top + 2
  {
    if s != [] {
      var n := |s| - 1;
      var rest := s[..n];
      assert TextsOf(s) == TextsOf(rest) + [TextOf(s[n])];
      CountAppended(TextsOf(rest), TextOf(s[n]), t);
      FewPerPair(rest, t, if TextOf(s[n]) == t then s[n].rank - 1 else top);
    }
  }

  // ------------------------------------------------------ order independence

  function Sum<T>(s: seq<T>, f: T -> nat): nat {
    if s == [] then 0 else Sum(s[..|s| - 1], f) + f(s[|s| - 1])
  }

  lemma {:induction false} SumConcat<T>(a: seq<T>, b: seq<T>, f: T -> nat)
    ensures Sum(a + b, f) == Sum(a, f) + Sum(b, f)
  {
    if b == [] {
      assert a + b == a;
    } else {
      assert (a + b)[..|a + b| - 1] == a + b[..|b| - 1];
      SumConcat(a, b[..|b| - 1], f);
    }
  }

  lemma SumOne<T>(x: T, f: T -> nat)
    ensures Sum([x], f) == f(x)
  {
    assert [x][..0] == [];
  }

  lemma SumSplit<T>(s: seq<T>, i: nat, f: T -> nat)
    requires i < |s|
    ensures Sum(s, f) == Sum(s[..i] + s[i + 1..], f) + f(s[i])
  {
    var a, x, b := s[..i], s[i], s[i + 1..];
    assert s == (a + [x]) + b;
    SumConcat(a + [x], b, f);
    SumConcat(a, [x], f);
    SumConcat(a, b, f);
    SumOne(x, f);
  }

  lemma RemoveOne<T>(a: seq<T>, b: seq<T>) returns (i: nat)
    requires a != [] && multiset(a) == multiset(b)
    ensures i < |b| && b[i] == a[|a| - 1]
    ensures multiset(a[..|a| - 1]) == multiset(b[..i] + b[i + 1..])
  {
    var n := |a| - 1;
    assert a[n] in multiset(b);
    i :| 0 <= i < |b| && b[i] == a[n];
    assert a == a[..n] + [a[n]];
    assert multiset(a[..n]) == multiset(a) - multiset{a[n]};
    assert b == (b[..i] + [b[i]]) + b[i + 1..];
    assert multiset(b) == multiset(b[..i]) + multiset{b[i]} + multiset(b[i + 1..]);
    assert multiset(b[..i] + b[i + 1..]) == multiset(b[..i]) + multiset(b[i + 1..]);
  }

  /** A sum does not depend on the order of its terms. */
  lemma {:induction false} SumAnyOrder<T>(a: seq<T>, b: seq<T>, f: T -> nat)
    requires multiset(a) == multiset(b)
    ensures Sum(a, f) == Sum(b, f)
    decreases |a|
  {
    if a == [] {
      assert |multiset(b)| == |b|;
    } else {
      var i := RemoveOne(a, b);
      SumAnyOrder(a[..|a| - 1], b[..i] + b[i + 1..], f);
      SumSplit(b, i, f);
    }
  }

  function CountIn(key: string, x: Found): Claim -> nat { c => multiset(FoundIn(key, c))[x] }

  lemma CountConcat(a: seq<Found>, b: seq<Found>, x: Found)
    ensures multiset(a + b)[x] == multiset(a)[x] + multiset(b)[x]
  {
  }

  lemma {:induction false} CollectedCounts(key: string, cs: seq<Claim>, x: Found)
    ensures multiset(Collected(key, cs))[x] == Sum(cs, CountIn(key, x))
  {
    if cs != [] {
      var n := |cs| - 1;
      CollectedCounts(key, cs[..n], x);
      CountConcat(Collected(key, cs[..n]), FoundIn(key, cs[n]), x);
    }
  }

  function CountAt(claims: Claims, x: Found): string -> nat {
    k => if k in claims && IsProperty(k) then multiset(Collected(k, claims[k]))[x] else 0
  }

  lemma {:induction false} CollectCounts(order: seq<string>, claims: Claims, x: Found)
    requires forall k :: k in order ==> k in claims
    ensures multiset(CollectAll(order, claims))[x] == Sum(order, CountAt(claims, x))
  {
    if order != [] {
      var n := |order| - 1;
      CollectCounts(order[..n], claims, x);
    }
  }

  /** Whatever order the properties are visited in, the same is found. */
  lemma CollectAnyOrder(a: seq<string>, b: seq<string>, claims: Claims)
    requires (forall k :: k in a ==> k in claims) && (forall k :: k in b ==> k in claims)
    requires multiset(a) == multiset(b)
    ensures multiset(CollectAll(a, claims)) == multiset(CollectAll(b, claims))
  {
    forall x ensures multiset(CollectAll(a, claims))[x] == multiset(CollectAll(b, claims))[x] {
      CollectCounts(a, claims, x);
      CollectCounts(b, claims, x);
      SumAnyOrder(a, b, CountAt(claims, x));
    }
  }

  lemma ClaimsAnyOrder(key: string, a: seq<Claim>, b: seq<Claim>)
    requires multiset(a) == multiset(b)
    ensures multiset(Collected(key, a)) == multiset(Collected(key, b))
  {
    forall x ensures multiset(Collected(key, a))[x] == multiset(Collected(key, b))[x] {
      CollectedCounts(key, a, x);
      CollectedCounts(key, b, x);
      SumAnyOrder(a, b, CountIn(key, x));
    }
  }

  /** The same claims, each property's in any order. */
  ghost predicate Reordered(a: Claims, b: Claims) {
    a.Keys == b.Keys && forall k :: k in a ==> multiset(a[k]) == multiset(b[k])
  }

  lemma {:induction false} ReorderedCollects(order: seq<string>, a: Claims, b: Claims)
    requires Reordered(a, b) && (forall k :: k in order ==> k in a)
    ensures (forall k :: k in order ==> k in b) && multiset(CollectAll(order, a)) == multiset(CollectAll(order, b))
  {
    forall k | k in order ensures k in b { assert k in a.Keys; }
    if order != [] {
      var n := |order| - 1;
      forall k | k in order[..n] ensures k in order {}
      assert order[n] in order;
      ReorderedCollects(order[..n], a, b);
      ClaimsAnyOrder(order[n], a[order[n]], b[order[n]]);
    }
  }

  /** An iteration order over the map: every key once. */
  ghost predicate Visits(order: seq<string>, claims: Claims) { multiset(order) == multiset(claims.Keys) }

  lemma VisitsIn(order: seq<string>, claims: Claims)
    requires Visits(order, claims)
    ensures forall k :: k in order ==> k in claims
  {
    forall k | k in order ensures k in claims { assert k in multiset(order); }
  }

  lemma SameFound(a: seq<Found>, b: seq<Found>)
    requires multiset(a) == multiset(b)
    ensures Extracted(a) == Extracted(b)
  {
    SortSorts(a);
    SortSorts(b);
    SortedUnique(SortFound(a), SortFound(b));
  }

  /** The output depends neither on the order of the map nor on that of the claims. */
  lemma OrderIrrelevant(x: seq<string>, y: seq<string>, a: Claims, b: Claims)
    requires Visits(x, a) && Visits(y, b) && Reordered(a, b)
    ensures (forall k :: k in x ==> k in a) && (forall k :: k in y ==> k in b)
    ensures Extracted(CollectAll(x, a)) == Extracted(CollectAll(y, b))
  {
    VisitsIn(x, a);
    VisitsIn(y, b);
    ReorderedCollects(x, a, b);
    CollectAnyOrder(x, y, b);
    SameFound(CollectAll(x, a), CollectAll(y, b));
  }

  // --------------------------------------------------------- what comes out

  lemma {:induction false} CollectedClean(key: string, cs: seq<Claim>)
    requires IsProperty(key)
    ensures Clean(Collected(key, cs))
  {
    if cs != [] { CollectedClean(key, cs[..|cs| - 1]); }
  }

  lemma {:induction false} CollectClean(order: seq<string>, claims: Claims)
    requires forall k :: k in order ==> k in claims
    ensures Clean(CollectAll(order, claims))
  {
    if order != [] {
      var n := |order| - 1;
      CollectClean(order[..n], claims);
      if IsProperty(order[n]) { CollectedClean(order[n], claims[order[n]]); }
    }
  }

  lemma SubsetClean(a: seq<Found>, b: seq<Found>)
    requires Clean(b) && forall x :: x in a ==> x in b
    ensures Clean(a)
  {
    forall i | 0 <= i < |a| ensures IsProperty(a[i].prop) && a[i].value != "" && -1 <= a[i].rank <= 1 {
      assert a[i] in b;
    }
  }

  /** The survivors of a found list, and what is always true of them. */
  lemma SurvivorsOf(found: seq<Found>)
    requires Clean(found)
    ensures var sv := Survivors(SortFound(found));
            Strict(sv) && Clean(sv) && Sorted(SortFound(found)) && forall x :: x in sv ==> x in found
  {
    SortSorts(found);
    SurvivorsStrict(SortFound(found));
    SurvivorsIn(SortFound(found));
    SameMembers(SortFound(found), found);
    SubsetClean(Survivors(SortFound(found)), found);
  }

  lemma EntryText(e: Found)
    requires IsProperty(e.prop) && e.value != ""
    ensures ParseFlatEntry(TextOf(e)) == Some((e.prop[1..], e.value))
  {
    NoColon(e.prop);
    var t := e.prop + (":" + e.value);
    assert t == TextOf(e);
    RunLengthPrefix(e.prop, ":" + e.value, ':');
    assert t[1..|e.prop|] == e.prop[1..] && t[|e.prop| + 1..] == e.value;
  }

  lemma AllEntriesOut(found: seq<Found>)
    requires Clean(found)
    ensures AllEntries(Extracted(found))
  {
    var sv := Survivors(SortFound(found));
    SurvivorsOf(found);
    forall i | 0 <= i < |sv| ensures ParseFlatEntry(Extracted(found)[i]).Some? { EntryText(sv[i]); }
  }

  lemma ExactlyTheseOut(found: seq<Found>, t: string)
    ensures t in Extracted(found) <==> exists e :: e in found && TextOf(e) == t
  {
    var sorted := SortFound(found);
    var sv := Survivors(sorted);
    if e :| e in found && TextOf(e) == t { PairSurvives(found, e); }
    if t in Extracted(found) {
      var i :| 0 <= i < |sv| && Extracted(found)[i] == t;
      SurvivorsIn(sorted);
      SameMembers(sorted, found);
      assert sv[i] in sv;
    }
  }

  /** One of the claims of this property gives this value, with this rank. */
  predicate Claimed(claims: Claims, prop: string, rank: int, value: string) {
    && prop in claims && IsProperty(prop) && value != ""
    && exists c :: c in claims[prop] && c.dataType == "external-id" && c.value == value && RankOrder(c.rank) == rank
  }

  /** The entry is a property with the value of one of its claims, whatever the rank. */
  predicate InClaims(claims: Claims, t: string) {
    exists prop, c ::
      && prop in claims && IsProperty(prop) && c in claims[prop]
      && c.dataType == "external-id" && c.value != "" && t == prop + ":" + c.value
  }

  lemma {:induction false} CollectedAre(key: string, cs: seq<Claim>, f: Found)
    ensures f in Collected(key, cs) <==>
            exists c ::
              c in cs && c.dataType == "external-id" && c.value != "" && f == Found(key, RankOrder(c.rank), c.value)
  {
    if cs != [] {
      var n := |cs| - 1;
      CollectedAre(key, cs[..n], f);
      assert cs == cs[..n] + [cs[n]];
      assert f in Collected(key, cs) <==> f in Collected(key, cs[..n]) || f in FoundIn(key, cs[n]);
      if c :| c in cs && c.dataType == "external-id" && c.value != "" && f == Found(key, RankOrder(c.rank), c.value) {
        assert c in cs[..n] || c == cs[n];
      }
    }
  }

  lemma {:induction false} CollectAllAre(order: seq<string>, claims: Claims, f: Found)
    requires forall k :: k in order ==> k in claims
    ensures f in CollectAll(order, claims) <==> f.prop in order && Claimed(claims, f.prop, f.rank, f.value)
  {
    if order != [] {
      var n := |order| - 1;
      var key := order[n];
      CollectAllAre(order[..n], claims, f);
      CollectedAre(key, claims[key], f);
      assert order == order[..n] + [key];
      assert f.prop in order <==> f.prop in order[..n] || f.prop == key;
      if IsProperty(key) {
        assert f in Collected(key, claims[key]) <==> f.prop == key && Claimed(claims, key, f.rank, f.value);
      }
    }
  }

  /** In every iteration order exactly what is claimed is collected. */
  lemma CollectsClaimed(order: seq<string>, claims: Claims, f: Found)
    requires Visits(order, claims)
    ensures (forall k :: k in order ==> k in claims)
    ensures f in CollectAll(order, claims) <==> Claimed(claims, f.prop, f.rank, f.value)
  {
    VisitsIn(order, claims);
    CollectAllAre(order, claims, f);
    if f.prop in claims { assert f.prop in multiset(claims.Keys) && f.prop in multiset(order); }
  }

  /** The first copy of an entry in a sorted list is kept unless the pair comes with a better rank. */
  lemma BestIsKept(s: seq<Found>, f: Found)
    requires Sorted(s) && f in s && forall e :: e in s && SamePair(e, f) ==> e.rank >= f.rank
    ensures f in Survivors(s)
  {
    var k :| 0 <= k < |s| && s[k] == f;
    var i := FirstCopy(s, f, k);
    LtIrreflexive(f.prop);
    LtIrreflexive(f.value);
    if i > 0 { assert s[i - 1] in s && Leq(s[i - 1], s[i]); }
    KeptSurvives(s, i);
  }

  lemma {:induction false} FirstCopy(s: seq<Found>, f: Found, k: nat) returns (i: nat)
    requires k < |s| && s[k] == f
    ensures i < |s| && s[i] == f && (i > 0 ==> s[i - 1] != f)
    decreases k
  {
    i := k;
    if k > 0 && s[k - 1] == f { i := FirstCopy(s, f, k - 1); }
  }

  /** What a list of mappings is for an item: entries in the order of property text, rank and
      value, each (property, rank, value) once, each of them claimed; and of every pair that is
      claimed, at least the one with the best rank. */
  ghost predicate Lists(claims: Claims, result: seq<string>, sv: seq<Found>) {
    && result == TextsOf(sv) && Strict(sv)
    && (forall i :: 0 <= i < |sv| ==> Claimed(claims, sv[i].prop, sv[i].rank, sv[i].value))
    && forall f: Found :: Claimed(claims, f.prop, f.rank, f.value) ==>
         f in sv || exists e :: e in sv && SamePair(e, f) && e.rank < f.rank
  }

  /** Canonical mappings, for the claims of any item and every iteration order: well-formed
      entries, in order; exactly those some claim gives, whatever its rank; and each at most three
      times. */
  lemma CanonicalMappings(order: seq<string>, claims: Claims, result: seq<string>, t: string)
    requires Visits(order, claims) && forall k :: k in order ==> k in claims
    requires result == Extracted(CollectAll(order, claims))
    ensures AllEntries(result)
    ensures Lists(claims, result, Survivors(SortFound(CollectAll(order, claims))))
    ensures t in result <==> InClaims(claims, t)
    ensures multiset(result)[t] <= 3
  {
    var found := CollectAll(order, claims);
    CollectClean(order, claims);
    AllEntriesOut(found);
    SurvivorsOf(found);
    StrictRanks(Survivors(SortFound(found)), t);
    FewPerPair(Survivors(SortFound(found)), t, 1);
    ListsClaims(order, claims, found);
    TextsClaimed(order, claims, found, t);
  }

  lemma ListsClaims(order: seq<string>, claims: Claims, found: seq<Found>)
    requires Visits(order, claims) && (forall k :: k in order ==> k in claims) && found == CollectAll(order, claims)
    requires Clean(found)
    ensures Lists(claims, Extracted(found), Survivors(SortFound(found)))
  {
    var s, sv := SortFound(found), Survivors(SortFound(found));
    SurvivorsOf(found);
    SameMembers(s, found);
    forall i | 0 <= i < |sv| ensures Claimed(claims, sv[i].prop, sv[i].rank, sv[i].value) {
      assert sv[i] in sv;
      CollectsClaimed(order, claims, sv[i]);
    }
    forall f: Found | Claimed(claims, f.prop, f.rank, f.value)
      ensures f in sv || exists e :: e in sv && SamePair(e, f) && e.rank < f.rank {
      CollectsClaimed(order, claims, f);
      BestOf(s, f);
    }
  }

  lemma BestOf(s: seq<Found>, f: Found)
    requires Sorted(s) && f in s
    ensures f in Survivors(s) || exists e :: e in Survivors(s) && SamePair(e, f) && e.rank < f.rank
  {
    if e :| e in s && SamePair(e, f) && e.rank < f.rank {
      var b := LeastRank(s, f, |s|);
      BestIsKept(s, b);
    } else {
      BestIsKept(s, f);
    }
  }

  /** The best rank a pair comes with among the first n. */
  lemma {:induction false} LeastRank(s: seq<Found>, f: Found, n: nat) returns (b: Found)
    requires n <= |s| && f in s
    ensures b in s && SamePair(b, f) && b.rank <= f.rank
    ensures forall i :: 0 <= i < n && SamePair(s[i], f) ==> b.rank <= s[i].rank
    decreases n
  {
    b := f;
    if n > 0 {
      b := LeastRank(s, f, n - 1);
      if SamePair(s[n - 1], f) && s[n - 1].rank < b.rank { b := s[n - 1]; }
    }
  }

  lemma TextsClaimed(order: seq<string>, claims: Claims, found: seq<Found>, t: string)
    requires Visits(order, claims) && (forall k :: k in order ==> k in claims) && found == CollectAll(order, claims)
    ensures t in Extracted(found) <==> InClaims(claims, t)
  {
    ExactlyTheseOut(found, t);
    if e :| e in found && TextOf(e) == t { CollectsClaimed(order, claims, e); }
    if InClaims(claims, t) {
      var prop, c :|
        && prop in claims && IsProperty(prop) && c in claims[prop]
        && c.dataType == "external-id" && c.value != "" && t == prop + ":" + c.value;
      var f := Found(prop, RankOrder(c.rank), c.value);
      CollectsClaimed(order, claims, f);
      assert f in found && TextOf(f) == t;
    }
  }

  lemma PairSurvives(found: seq<Found>, e: Found)
    requires e in found
    ensures TextOf(e) in Extracted(found)
  {
    var sorted, sv := SortFound(found), Survivors(SortFound(found));
    SameMembers(sorted, found);
    var i :| 0 <= i < |sorted| && sorted[i] == e;
    assert HasPair(sorted, e.prop, e.value);
    SurvivorsPairs(sorted, e.prop, e.value);
    var k :| 0 <= k < |sv| && sv[k].prop == e.prop && sv[k].value == e.value;
    assert Extracted(found)[k] == TextOf(e);
  }

  // ------------------------------------------- when duplicates really go away

  predicate NoRepeats(s: seq<Found>) { forall i, j :: 0 <= i < j < |s| ==> !SamePair(s[i], s[j]) }

  /** Something of the same property sorts between two ranks of one pair. */
  predicate Separated(found: seq<Found>, e: Found, g: Found, f: Found) {
    && e in found && g in found && f in found
    && SamePair(e, f) && g.prop == e.prop && g.value != e.value && Less(e, g) && Less(g, f)
  }

  /** Survivor number i is the entry at some index of the list. */
  lemma {:induction false} SurvivorAt(s: seq<Found>, i: nat) returns (k: nat)
    requires i < |Survivors(s)|
    ensures k < |s| && s[k] == Survivors(s)[i] && Kept(s, k)
  {
    var n := |s| - 1;
    if i < |Survivors(s[..n])| { k := SurvivorAt(s[..n], i); } else { k := n; }
  }

  lemma {:induction false} KeptSurvives(s: seq<Found>, k: nat)
    requires k < |s| && Kept(s, k)
    ensures s[k] in Survivors(s)
  {
    var n := |s| - 1;
    if k < n { KeptSurvives(s[..n], k); }
  }

  /** The first entry with a pair at or after `from`. */
  lemma {:induction false} NextOfPair(s: seq<Found>, start: nat, end: nat) returns (j: nat)
    requires start < end < |s| && !SamePair(s[start], s[end])
    ensures start < j <= end && SamePair(s[j], s[end]) && Kept(s, j)
    decreases end - start
  {
    if SamePair(s[start + 1], s[end]) { j := start + 1; } else { j := NextOfPair(s, start + 1, end); }
  }

  lemma {:induction false} FirstOfPair(s: seq<Found>, end: nat) returns (i: nat)
    requires end < |s|
    ensures i <= end && SamePair(s[i], s[end]) && Kept(s, i)
    decreases end
  {
    if Kept(s, end) { i := end; } else { i := FirstOfPair(s, end - 1); }
  }

  lemma SeparatedRepeats(found: seq<Found>, e: Found, g: Found, f: Found)
    requires Separated(found, e, g, f)
    ensures !NoRepeats(Survivors(SortFound(found)))
  {
    var s := SortFound(found);
    var sv := Survivors(s);
    SortSorts(found);
    SameMembers(s, found);
    var ie :| 0 <= ie < |s| && s[ie] == e;
    var ig :| 0 <= ig < |s| && s[ig] == g;
    var jf :| 0 <= jf < |s| && s[jf] == f;
    InOrder(s, ie, ig);
    InOrder(s, ig, jf);
    var i := FirstOfPair(s, ie);
    var j := NextOfPair(s, ig, jf);
    KeptSurvives(s, i);
    KeptSurvives(s, j);
    var a :| 0 <= a < |sv| && sv[a] == s[i];
    var b :| 0 <= b < |sv| && sv[b] == s[j];
    if s[i] == s[j] {
      assert Leq(s[i], s[ig]) && Leq(s[ig], s[j]);
      LessAsymmetric(s[i], s[ig]);
    }
    assert a != b && SamePair(sv[a], sv[b]) && SamePair(sv[b], sv[a]);
  }

  lemma InOrder(s: seq<Found>, i: nat, j: nat)
    requires Sorted(s) && i < |s| && j < |s| && Less(s[i], s[j])
    ensures i < j
  {
    LessAsymmetric(s[i], s[j]);
    LessIrreflexive(s[i]);
  }

  lemma RepeatsSeparated(found: seq<Found>, i: nat, j: nat) returns (e: Found, g: Found, f: Found)
    requires i < j < |Survivors(SortFound(found))|
    requires SamePair(Survivors(SortFound(found))[i], Survivors(SortFound(found))[j])
    ensures Separated(found, e, g, f)
  {
    var s := SortFound(found);
    SortSorts(found);
    SameMembers(s, found);
    SurvivorsStrict(s);
    var ki := SurvivorAt(s, i);
    var kj := SurvivorAt(s, j);
    InOrder(s, ki, kj);
    e, g, f := s[ki], s[kj - 1], s[kj];
    assert e in s && g in s && f in s;
    assert Leq(e, g) && Leq(g, f);
    if g.prop != e.prop {
      LtTransitive(e.prop, g.prop, e.prop);
      LtIrreflexive(e.prop);
    }
  }

  /** The output is free of repeated entries exactly when nothing of the same property sorts
      between two different ranks of one pair. */
  lemma FullyDedupedIff(found: seq<Found>)
    ensures NoRepeats(Survivors(SortFound(found))) <==> forall e, g, f :: !Separated(found, e, g, f)
  {
    var sv := Survivors(SortFound(found));
    if e, g, f :| Separated(found, e, g, f) { SeparatedRepeats(found, e, g, f); }
    if i, j :| 0 <= i < j < |sv| && SamePair(sv[i], sv[j]) { var e, g, f := RepeatsSeparated(found, i, j); }
  }

  /** Within a property the preferred values come first and the deprecated ones last. */
  lemma PreferredFirst(order: seq<string>, claims: Claims, i: nat, j: nat)
    requires Visits(order, claims) && forall k :: k in order ==> k in claims
    requires i < j < |Survivors(SortFound(CollectAll(order, claims)))|
    ensures var sv := Survivors(SortFound(CollectAll(order, claims)));
            sv[i].prop == sv[j].prop ==>
              (sv[j].rank == RankOrder("preferred") ==> sv[i].rank == RankOrder("preferred")) &&
              (sv[i].rank == RankOrder("deprecated") ==> sv[j].rank == RankOrder("deprecated"))
  {
    var found := CollectAll(order, claims);
    CollectClean(order, claims);
    SurvivorsOf(found);
    var sv := Survivors(SortFound(found));
    assert Less(sv[i], sv[j]);
    LtIrreflexive(sv[i].prop);
  }

  // ------------------------------------------------------ a repeat that survives

  const REPEATING: seq<Claim> := [
    Claim("external-id", "x", "preferred"), Claim("external-id", "y", "preferred"), Claim("external-id", "x", "normal")]

  lemma RepeatCollected(claims: Claims)
    requires claims == map["P1" := REPEATING]
    ensures CollectAll(["P1"], claims) == [Found("P1", -1, "x"), Found("P1", -1, "y"), Found("P1", 0, "x")]
  {
    var cs := REPEATING;
    assert "P1"[1..] == "1" && ParseInt64("1").Some? by { DigitsBound("1"); }
    assert cs[..3][..2] == cs[..2] && cs[..2][..1] == cs[..1] && cs[..1][..0] == [] && cs[..3] == cs;
    assert Collected("P1", cs[..1]) == [Found("P1", -1, "x")];
    assert Collected("P1", cs[..2]) == [Found("P1", -1, "x"), Found("P1", -1, "y")];
    assert ["P1"][..0] == [];
  }

  lemma ThreeSorted(a: Found, b: Found, c: Found)
    requires Less(a, b) && Less(b, c)
    ensures SortFound([a, b, c]) == [a, b, c]
  {
    LessTransitive(a, b, c);
    SortSorts([a, b, c]);
    SortedUnique(SortFound([a, b, c]), [a, b, c]);
  }

  lemma ThreeKept(a: Found, b: Found, c: Found)
    requires !SamePair(a, b) && !SamePair(b, c)
    ensures Survivors([a, b, c]) == [a, b, c]
  {
    assert [a, b, c][..2] == [a, b] && [a, b][..1] == [a] && [a][..0] == [];
    assert Survivors([a]) == [a] && Survivors([a, b]) == [a, b];
  }

  /** Only neighbours are compared, so a repeat that is not one stays. */
  lemma ThreeOut(a: Found, b: Found, c: Found)
    requires Less(a, b) && Less(b, c) && !SamePair(a, b) && !SamePair(b, c)
    ensures Extracted([a, b, c]) == [TextOf(a), TextOf(b), TextOf(c)]
  {
    ThreeSorted(a, b, c);
    ThreeKept(a, b, c);
  }

  lemma OneProperty(order: seq<string>, claims: Claims, key: string)
    requires claims.Keys == {key} && Visits(order, claims)
    ensures key in claims && (forall k :: k in order ==> k in claims)
    ensures Extracted(CollectAll(order, claims)) == Extracted(CollectAll([key], claims))
  {
    assert Visits([key], claims);
    OrderIrrelevant(order, [key], claims, claims);
  }

  lemma RepeatTexts()
    ensures Extracted([Found("P1", -1, "x"), Found("P1", -1, "y"), Found("P1", 0, "x")]) == ["P1:x", "P1:y", "P1:x"]
  {
    ThreeOut(Found("P1", -1, "x"), Found("P1", -1, "y"), Found("P1", 0, "x"));
    assert "P1" + ":" + "x" == "P1:x" && "P1" + ":" + "y" == "P1:y";
  }

  /** A repeat that survives: P1 "x" preferred and normal, with "y" preferred between them. */
  lemma RepeatSurvives(order: seq<string>, claims: Claims)
    requires claims == map["P1" := REPEATING] && Visits(order, claims)
    ensures (forall k :: k in order ==> k in claims) && Extracted(CollectAll(order, claims)) == ["P1:x", "P1:y", "P1:x"]
  {
    OneProperty(order, claims, "P1");
    RepeatCollected(claims);
    RepeatTexts();
  }

  // ------------------------------------------------------------------ method

  /** extractExternalIDs. The map may be iterated in any order; the result is the one every
      order gives, and holds exactly the entries that some claim gives, in their order. */
  method ExtractExternalIds(claims: Claims) returns (result: seq<string>)
    ensures forall t :: t in result <==> InClaims(claims, t)
    ensures exists sv :: Lists(claims, result, sv)
    ensures forall order :: Visits(order, claims) ==>
              (forall k :: k in order ==> k in claims) && result == Extracted(CollectAll(order, claims))
  {
    var entries;
    ghost var visited;
    entries, visited := VisitAll(claims);
    result := LookBack(SortFound(entries));
    CanonicalMappings(visited, claims, result, "");
    forall t ensures t in result <==> InClaims(claims, t) { CanonicalMappings(visited, claims, result, t); }
    forall order | Visits(order, claims)
      ensures (forall k :: k in order ==> k in claims) && result == Extracted(CollectAll(order, claims)) {
      OrderIrrelevant(visited, order, claims, claims);
    }
  }

  method VisitAll(claims: Claims) returns (entries: seq<Found>, ghost visited: seq<string>)
    ensures Visits(visited, claims) && (forall k :: k in visited ==> k in claims)
    ensures entries == CollectAll(visited, claims)
  {
    entries, visited := [], [];
    var left := claims.Keys;
    while left != {}
      invariant left <= claims.Keys && (forall k :: k in visited ==> k in claims)
      invariant multiset(visited) + multiset(left) == multiset(claims.Keys)
      invariant entries == CollectAll(visited, claims)
      decreases |left|
    {
      var key :| key in left;
      var some := CollectProperty(key, claims[key]);
      assert (visited + [key])[..|visited|] == visited;
      assert multiset(left) == multiset(left - {key}) + multiset{key};
      entries, visited, left := entries + some, visited + [key], left - {key};
    }
  }

  /** The look-back loop over the sorted entries. */
  method LookBack(sorted: seq<Found>) returns (result: seq<string>)
    ensures result == TextsOf(Survivors(sorted))
  {
    result := [];
    for i := 0 to |sorted|
      invariant result == TextsOf(Survivors(sorted[..i]))
    {
      SurvivorsStep(sorted, i);
      if i == 0 || !SamePair(sorted[i - 1], sorted[i]) { result := result + [TextOf(sorted[i])]; }
    }
    assert sorted[..|sorted|] == sorted;
  }

  lemma SurvivorsStep(s: seq<Found>, i: nat)
    requires i < |s|
    ensures Survivors(s[..i + 1]) == Survivors(s[..i]) + if Kept(s, i) then [s[i]] else []
  {
    assert s[..i + 1][..i] == s[..i];
    assert Kept(s[..i + 1], i) == Kept(s, i);
  }

  method CollectProperty(key: string, claims: seq<Claim>) returns (some: seq<Found>)
    ensures some == if IsProperty(key) then Collected(key, claims) else []
  {
    some := [];
    if !IsProperty(key) { return; }
    for i := 0 to |claims|
      invariant some == Collected(key, claims[..i])
    {
      assert claims[..i + 1][..i] == claims[..i];
      if claims[i].dataType == "external-id" && claims[i].value != "" {
        some := some + [Found(key, RankOrder(claims[i].rank), claims[i].value)];
      }
    }
    assert claims[..|claims|] == claims;
  }

  /** The mappings of an item: whatever the claims, each is a well-formed entry. */
  ghost function MappingsOf(order: seq<string>, claims: Claims): seq<Entry>
    requires Visits(order, claims)
  {
    VisitsIn(order, claims);
    CollectClean(order, claims);
    AllEntriesOut(CollectAll(order, claims));
    Extracted(CollectAll(order, claims))
  }

  /** Processing the same claims again, in whatever order they arrive, changes nothing in any
      structure of the store. */
  lemma SameClaimsNoChange(db: Db, q: Qid, x: seq<string>, y: seq<string>, a: Claims, b: Claims, t1: nat, t2: nat)
    requires Visits(x, a) && Visits(y, b) && Reordered(a, b)
    ensures var once := Upsert(db, q, Canonical(MappingsOf(x, a)), t1);
            Upsert(once, q, Canonical(MappingsOf(y, b)), t2) == once
  {
    OrderIrrelevant(x, y, a, b);
  }
}
