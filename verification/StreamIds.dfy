/** Redis stream ids "<ms>-<seq>" and the order compareStreamIDs decides. */
module StreamIds {
  import opened Text

  const BASE: nat := 0x1_0000_0000_0000_0000

  /** strconv.ParseUint(s, 10, 64) with its error ignored: 0 for a syntax error, the
      greatest uint64 for an overflow, whichever the scan meets first. */
  function ParseUint(s: string): (n: nat)
    ensures n <= UINT64_MAX
  {
    if s == "" then 0 else Scan(s, 0)
  }

  function Scan(s: string, n: nat): (r: nat)
    requires n <= UINT64_MAX
    ensures r <= UINT64_MAX
  {
    if s == "" then n
    else if !IsDigit(s[0]) then 0
    else
      var next := n * 10 + (s[0] - '0') as nat;
      if next > UINT64_MAX then UINT64_MAX else Scan(s[1..], next)
  }

  function Milliseconds(id: string): nat { ParseUint(id[..RunLength(id, '-')]) }

  function Sequence(id: string): nat {
    var cut := RunLength(id, '-');
    if cut == |id| then 0 else ParseUint(id[cut + 1..])
  }

  /** compareStreamIDs. */
  function CompareStreamIds(a: string, b: string): int {
    if Milliseconds(a) < Milliseconds(b) then -1
    else if Milliseconds(a) > Milliseconds(b) then 1
    else if Sequence(a) < Sequence(b) then -1
    else if Sequence(a) > Sequence(b) then 1
    else 0
  }

  /** The position of an id among all stream ids. */
  function Rank(id: string): nat { Milliseconds(id) * BASE + Sequence(id) }

  function IdText(rank: nat): string {
    FormatNat(rank / BASE) + "-" + FormatNat(rank % BASE)
  }

  /** compareStreamIDs compares ranks: on every pair of strings, well-formed or not, it is
      the order of the naturals, hence a total preorder. */
  lemma CompareIsRankOrder(a: string, b: string)
    ensures CompareStreamIds(a, b) < 0 <==> Rank(a) < Rank(b)
    ensures CompareStreamIds(a, b) == 0 <==> Rank(a) == Rank(b)
    ensures CompareStreamIds(a, b) > 0 <==> Rank(a) > Rank(b)
  {
  }

  lemma {:induction false} ScanAppend(s: string, d: char, n: nat)
    requires n <= UINT64_MAX && AllDigits(s) && IsDigit(d)
    ensures var next := Scan(s, n) * 10 + (d - '0') as nat;
            Scan(s + [d], n) == if next > UINT64_MAX then UINT64_MAX else next
  {
    if s == "" {
      assert s + [d] == [d];
    } else {
      var next := n * 10 + (s[0] - '0') as nat;
      assert (s + [d])[1..] == s[1..] + [d];
      if next <= UINT64_MAX { ScanAppend(s[1..], d, next); }
    }
  }

  lemma {:induction false} ScanFormatNat(n: nat)
    requires n <= UINT64_MAX
    ensures Scan(FormatNat(n), 0) == n
  {
    if n >= 10 {
      ScanFormatNat(n / 10);
      ScanAppend(FormatNat(n / 10), '0' + (n % 10) as char, 0);
    }
  }

  /** Printing an id and ranking the text undo each other. */
  lemma RankIdText(rank: nat)
    requires rank < BASE * BASE
    ensures Rank(IdText(rank)) == rank
  {
    var ms, sq := FormatNat(rank / BASE), FormatNat(rank % BASE);
    assert '-' !in ms;
    RunLengthPrefix(ms, "-" + sq, '-');
    assert IdText(rank) == ms + ("-" + sq);
    assert IdText(rank)[..|ms|] == ms && IdText(rank)[|ms| + 1..] == sq;
    ScanFormatNat(rank / BASE);
    ScanFormatNat(rank % BASE);
  }
}
