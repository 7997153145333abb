/** Strings as the scripts and the wire formats use them: decimal numbers,
    separated lists, and the byte order that `table.sort` sorts by. */
module Text {

  datatype Option<+T> = None | Some(value: T)

  // ------------------------------------------------------------- sequences

  /** Those of the first n elements that satisfy `keep`, in order. */
  function Picked<T>(s: seq<T>, keep: T -> bool, n: nat): seq<T>
    requires n <= |s|
  {
    if n == 0 then [] else Picked(s, keep, n - 1) + if keep(s[n - 1]) then [s[n - 1]] else []
  }

  lemma {:induction false} PickedNothing<T>(s: seq<T>, keep: T -> bool, n: nat)
    requires n <= |s| && forall i :: 0 <= i < n ==> !keep(s[i])
    ensures Picked(s, keep, n) == []
  {
    if n > 0 { PickedNothing(s, keep, n - 1); }
  }

  /** When the first k are settled and the rest are judged as before, the rest is picked. */
  lemma {:induction false} PickedLater<T>(s: seq<T>, keep: T -> bool, later: T -> bool, k: nat, n: nat)
    requires k <= n <= |s|
    requires (forall i :: 0 <= i < k ==> !later(s[i])) && (forall i :: k <= i < |s| ==> later(s[i]) == keep(s[i]))
    ensures Picked(s, keep, k) + Picked(s, later, n) == Picked(s, keep, n)
  {
    if n == k { PickedNothing(s, later, k); } else { PickedLater(s, keep, later, k, n - 1); }
  }

  /** How many elements come before the first that does not satisfy `keep`. */
  function Leading<T>(s: seq<T>, keep: T -> bool): (n: nat)
    ensures n <= |s| && forall i :: 0 <= i < n ==> keep(s[i])
    ensures n < |s| ==> !keep(s[n])
  {
    if s == [] || !keep(s[0]) then 0
    else
      var n := 1 + Leading(s[1..], keep);
      assert forall i :: 0 < i < n ==> s[i] == s[1..][i - 1];
      n
  }

  /** A step taken n times. */
  function Iterate<T>(step: T -> T, x: T, n: nat): T {
    if n == 0 then x else step(Iterate(step, x, n - 1))
  }

  lemma {:induction false} IterateFixed<T>(step: T -> T, x: T, m: nat, n: nat)
    requires m <= n && step(Iterate(step, x, m)) == Iterate(step, x, m)
    ensures Iterate(step, x, n) == Iterate(step, x, m)
  {
    if m < n { IterateFixed(step, x, m, n - 1); }
  }

  lemma Regroup<T>(a: seq<T>, b: seq<T>, c: seq<T>)
    ensures (a + b) + c == a + (b + c)
  {
  }

  // ---------------------------------------------------------------- numbers

  const INT64_MIN: int := -0x8000_0000_0000_0000
  const INT64_MAX: int := 0x7FFF_FFFF_FFFF_FFFF
  const UINT64_MAX: int := 0xFFFF_FFFF_FFFF_FFFF

  predicate IsInt64(n: int) { INT64_MIN <= n <= INT64_MAX }

  predicate IsDigit(c: char) { '0' <= c <= '9' }

  predicate AllDigits(s: string) { forall i :: 0 <= i < |s| ==> IsDigit(s[i]) }

  function FormatNat(n: nat): (s: string)
    ensures s != "" && AllDigits(s)
  {
    if n < 10 then ['0' + n as char] else FormatNat(n / 10) + ['0' + (n % 10) as char]
  }

  /** strconv.FormatInt(n, 10). */
  function FormatInt(n: int): (s: string)
    ensures s != ""
  {
    if n < 0 then "-" + FormatNat(-n) else FormatNat(n)
  }

  function DigitsValue(s: string): nat
    requires AllDigits(s)
  {
    if s == "" then 0 else DigitsValue(s[..|s| - 1]) * 10 + (s[|s| - 1] - '0') as nat
  }

  /** The number in a nonempty run of digits. */
  function ParseDigits(s: string): Option<nat> {
    if s != "" && AllDigits(s) then Some(DigitsValue(s)) else None
  }

  /** strconv.ParseInt(s, 10, 64): an optional sign, digits, and a range check. */
  function ParseInt64(s: string): Option<int> {
    var signed := s != "" && (s[0] == '-' || s[0] == '+');
    match ParseDigits(if signed then s[1..] else s)
    case None => None
    case Some(n) =>
      var v: int := if signed && s[0] == '-' then 0 - n else n;
      if IsInt64(v) then Some(v) else None
  }

  lemma {:induction false} DigitsValueFormatNat(n: nat)
    ensures DigitsValue(FormatNat(n)) == n
  {
    var s := FormatNat(n);
    if n >= 10 {
      DigitsValueFormatNat(n / 10);
      assert s[..|s| - 1] == FormatNat(n / 10);
    }
  }

  /** Printing and parsing an int64 undo each other. */
  lemma ParseFormatInt(n: int)
    requires IsInt64(n)
    ensures ParseInt64(FormatInt(n)) == Some(n)
  {
    var s := FormatInt(n);
    if n < 0 {
      DigitsValueFormatNat(-n);
      assert s[1..] == FormatNat(-n);
    } else {
      DigitsValueFormatNat(n);
      assert IsDigit(s[0]);
    }
  }

  lemma FormatIntInjective(a: int, b: int)
    requires FormatInt(a) == FormatInt(b)
    ensures a == b
  {
    assert IsDigit(FormatInt(a)[0]) == (a >= 0);
    assert IsDigit(FormatInt(b)[0]) == (b >= 0);
    if a < 0 {
      assert FormatInt(a)[1..] == FormatInt(b)[1..];
      DigitsValueFormatNat(-a);
      DigitsValueFormatNat(-b);
    } else {
      DigitsValueFormatNat(a);
      DigitsValueFormatNat(b);
    }
  }

  /** A proper beginning of a printed number is a smaller number. */
  lemma {:induction false} PrefixSmaller(n: nat, k: nat)
    requires 0 < k < |FormatNat(n)|
    ensures AllDigits(FormatNat(n)[..k]) && DigitsValue(FormatNat(n)[..k]) < n
  {
    var head := FormatNat(n / 10);
    assert FormatNat(n)[..k] == head[..k];
    if k == |head| {
      assert head[..k] == head;
      DigitsValueFormatNat(n / 10);
    } else {
      PrefixSmaller(n / 10, k);
    }
  }

  /** So a number cut short is never read as itself. */
  lemma PrefixReadsElse(n: int, k: nat)
    requires k < |FormatInt(n)|
    ensures ParseInt64(FormatInt(n)[..k]) != Some(n)
  {
    var p := FormatInt(n)[..k];
    if n < 0 {
      if k > 1 {
        assert p[1..] == FormatNat(-n)[..k - 1];
        PrefixSmaller(-n, k - 1);
      }
    } else if k > 0 {
      PrefixSmaller(n, k);
      assert IsDigit(p[0]);
    }
  }

  /** A printed number of several digits does not start with a zero. */
  lemma {:induction false} DigitsBound(s: string)
    requires AllDigits(s) && |s| <= 3
    ensures DigitsValue(s) <= 999 && (|s| <= 2 ==> DigitsValue(s) <= 99) && (|s| <= 1 ==> DigitsValue(s) <= 9)
  {
    if s != "" { DigitsBound(s[..|s| - 1]); }
  }

  /** A printed number never contains a character that is neither a digit nor a minus sign. */
  lemma FormatIntAvoids(n: int, c: char)
    requires !IsDigit(c) && c != '-'
    ensures c !in FormatInt(n)
  {
    var digits := FormatNat(if n < 0 then -n else n);
    assert c !in digits;
  }

  // ------------------------------------------------------------------ lists

  function RunLength(s: string, sep: char): (n: nat)
    ensures n <= |s| && sep !in s[..n] && (n < |s| ==> s[n] == sep)
  {
    if s == "" || s[0] == sep then 0
    else
      var n := 1 + RunLength(s[1..], sep);
      assert s[..n] == [s[0]] + s[1..][..n - 1];
      n
  }

  /** string.gmatch(s, '[^<sep>]+'): the maximal runs without a separator. */
  function Tokens(s: string, sep: char): seq<string>
    decreases |s|
  {
    if s == "" then []
    else if s[0] == sep then Tokens(s[1..], sep)
    else
      var n := RunLength(s, sep);
      assert n > 0;
      [s[..n]] + Tokens(s[n..], sep)
  }

  /** table.concat(parts, sep). */
  function Join(parts: seq<string>, sep: char): string {
    if |parts| == 0 then ""
    else if |parts| == 1 then parts[0]
    else parts[0] + [sep] + Join(parts[1..], sep)
  }

  predicate IsToken(t: string, sep: char) { t != "" && sep !in t }

  predicate AreTokens(parts: seq<string>, sep: char) {
    forall i :: 0 <= i < |parts| ==> IsToken(parts[i], sep)
  }

  lemma {:induction false} RunLengthPrefix(t: string, rest: string, sep: char)
    requires sep !in t && (rest == "" || rest[0] == sep)
    ensures RunLength(t + rest, sep) == |t|
  {
    if t == "" {
      assert t + rest == rest;
    } else {
      assert t == [t[0]] + t[1..];
      assert (t + rest)[1..] == t[1..] + rest;
      RunLengthPrefix(t[1..], rest, sep);
    }
  }

  /** Splitting a joined list gives the list back. */
  lemma {:induction false} TokensJoin(parts: seq<string>, sep: char)
    requires AreTokens(parts, sep)
    ensures Tokens(Join(parts, sep), sep) == parts
  {
    if |parts| > 0 {
      var s, t := Join(parts, sep), parts[0];
      var rest := s[|t|..];
      assert s == t + rest;
      assert s[0] == t[0] && t[0] in t;
      RunLengthPrefix(t, rest, sep);
      assert s[..|t|] == t;
      TokensJoin(parts[1..], sep);
      if |parts| > 1 {
        assert rest == [sep] + Join(parts[1..], sep);
        assert rest[1..] == Join(parts[1..], sep);
      }
    }
  }

  lemma {:induction false} TokensAreTokens(s: string, sep: char)
    ensures AreTokens(Tokens(s, sep), sep)
    decreases |s|
  {
    if s == "" {
    } else if s[0] == sep {
      TokensAreTokens(s[1..], sep);
    } else {
      TokensAreTokens(s[RunLength(s, sep)..], sep);
    }
  }

  // ------------------------------------------------------------------ lines

  function DropCR(line: string): string {
    if line != "" && line[|line| - 1] == '\r' then line[..|line| - 1] else line
  }

  /** The size of a text in UTF-8, which is what the limit of a scanner counts. */
  function ByteSize(s: string): nat {
    if s == "" then 0
    else
      var c := s[0] as int;
      (if c < 0x80 then 1 else if c < 0x800 then 2 else if c < 0x1_0000 then 3 else 4) + ByteSize(s[1..])
  }

  predicate AllFit(lines: seq<string>, limit: nat) {
    forall i :: 0 <= i < |lines| ==> ByteSize(lines[i]) < limit
  }

  datatype Scanned = Scanned(lines: seq<string>, tooLong: bool)

  /** bufio.Scanner with ScanLines: it stops with an error at a line that does not fit its
      buffer together with its line break. An unterminated last line counts unless empty,
      also when reading ended with an error. */
  function ScanLines(text: string, limit: nat): Scanned
    decreases |text|
  {
    if text == "" then Scanned([], false)
    else
      var n := RunLength(text, '\n');
      if ByteSize(text[..n]) >= limit then Scanned([], true)
      else if n == |text| then Scanned([DropCR(text)], false)
      else
        var more := ScanLines(text[n + 1..], limit);
        Scanned([DropCR(text[..n])] + more.lines, more.tooLong)
  }

  function Unlines(lines: seq<string>): string {
    if lines == [] then "" else lines[0] + "\n" + Unlines(lines[1..])
  }

  predicate IsLine(line: string) { '\n' !in line && DropCR(line) == line }

  predicate AreLines(lines: seq<string>) { forall i :: 0 <= i < |lines| ==> IsLine(lines[i]) }

  /** How many lines come before the first that does not fit. */
  function FitCount(lines: seq<string>, limit: nat): (n: nat)
    ensures n <= |lines| && AllFit(lines[..n], limit)
    ensures n < |lines| ==> ByteSize(lines[n]) >= limit
  {
    if lines == [] || ByteSize(lines[0]) >= limit then 0
    else
      var n := 1 + FitCount(lines[1..], limit);
      assert lines[..n] == [lines[0]] + lines[1..][..n - 1];
      n
  }

  /** One terminated line at the head of a text. */
  lemma ScanOne(line: string, rest: string, limit: nat)
    requires IsLine(line)
    ensures ByteSize(line) >= limit ==> ScanLines(line + "\n" + rest, limit) == Scanned([], true)
    ensures ByteSize(line) < limit ==>
              ScanLines(line + "\n" + rest, limit) ==
              Scanned([line] + ScanLines(rest, limit).lines, ScanLines(rest, limit).tooLong)
  {
    var tail := "\n" + rest;
    var text := line + tail;
    assert line + "\n" + rest == text;
    RunLengthPrefix(line, tail, '\n');
    assert text[..|line|] == line && text[|line| + 1..] == rest;
  }

  /** What a scanner makes of terminated lines followed by a text that it reads as `after`. */
  function ScannedThen(lines: seq<string>, after: Scanned, limit: nat): Scanned {
    if FitCount(lines, limit) < |lines| then Scanned(lines[..FitCount(lines, limit)], true)
    else Scanned(lines + after.lines, after.tooLong)
  }

  lemma ScannedStep(lines: seq<string>, after: Scanned, limit: nat)
    requires lines != []
    ensures ByteSize(lines[0]) >= limit ==> ScannedThen(lines, after, limit) == Scanned([], true)
    ensures ByteSize(lines[0]) < limit ==>
              var more := ScannedThen(lines[1..], after, limit);
              ScannedThen(lines, after, limit) == Scanned([lines[0]] + more.lines, more.tooLong)
  {
    assert FitCount(lines, limit) == |lines| ==> [lines[0]] + (lines[1..] + after.lines) == lines + after.lines;
  }

  lemma {:induction false} ScanThen(lines: seq<string>, rest: string, limit: nat)
    requires AreLines(lines)
    ensures ScanLines(Unlines(lines) + rest, limit) == ScannedThen(lines, ScanLines(rest, limit), limit)
  {
    var after := ScanLines(rest, limit);
    if lines == [] {
      assert Unlines(lines) + rest == rest && lines + after.lines == after.lines;
    } else {
      var more := Unlines(lines[1..]) + rest;
      assert Unlines(lines) + rest == lines[0] + "\n" + more;
      ScanOne(lines[0], more, limit);
      ScanThen(lines[1..], rest, limit);
      ScannedStep(lines, after, limit);
    }
  }

  lemma {:induction false} AllFitIff(lines: seq<string>, limit: nat)
    ensures FitCount(lines, limit) == |lines| <==> AllFit(lines, limit)
  {
    assert lines[..|lines|] == lines;
  }

  /** Reading a written text gives the lines before the first that is too long; all of them
      iff every one is below the limit. */
  lemma ScanUnlines(lines: seq<string>, limit: nat)
    requires AreLines(lines)
    ensures ScanLines(Unlines(lines), limit) ==
            Scanned(lines[..FitCount(lines, limit)], FitCount(lines, limit) < |lines|)
    ensures ScanLines(Unlines(lines), limit) == Scanned(lines, false) <==> AllFit(lines, limit)
  {
    ScanThen(lines, "", limit);
    AllFitIff(lines, limit);
    assert Unlines(lines) + "" == Unlines(lines) && lines + [] == lines;
    assert lines[..|lines|] == lines;
  }

  /** A text cut inside a line gives what was received of it as a last line. */
  lemma ScanFragment(lines: seq<string>, fragment: string, limit: nat)
    requires AreLines(lines) && AllFit(lines, limit) && IsLine(fragment) && ByteSize(fragment) < limit
    ensures ScanLines(Unlines(lines) + fragment, limit) ==
            Scanned(lines + if fragment == "" then [] else [fragment], false)
  {
    ScanThen(lines, fragment, limit);
    AllFitIff(lines, limit);
    if fragment != "" {
      assert fragment + "" == fragment;
      RunLengthPrefix(fragment, "", '\n');
      assert fragment[..|fragment|] == fragment;
    }
  }

  lemma {:induction false} UnlinesConcat(a: seq<string>, b: seq<string>)
    ensures Unlines(a + b) == Unlines(a) + Unlines(b)
  {
    if a == [] {
      assert a + b == b;
    } else {
      assert (a + b)[1..] == a[1..] + b;
      UnlinesConcat(a[1..], b);
    }
  }

  // ------------------------------------------------------------------ order

  /** Lexicographic byte order. */
  predicate Lt(a: string, b: string) {
    b != "" && (a == "" || a[0] < b[0] || (a[0] == b[0] && Lt(a[1..], b[1..])))
  }

  lemma {:induction false} LtIrreflexive(a: string)
    ensures !Lt(a, a)
  {
    if a != "" { LtIrreflexive(a[1..]); }
  }

  lemma {:induction false} LtTransitive(a: string, b: string, c: string)
    requires Lt(a, b) && Lt(b, c)
    ensures Lt(a, c)
  {
    if a != "" && a[0] == b[0] == c[0] { LtTransitive(a[1..], b[1..], c[1..]); }
  }

  lemma {:induction false} LtTotal(a: string, b: string)
    ensures a == b || Lt(a, b) || Lt(b, a)
  {
    if a != "" && b != "" && a[0] == b[0] {
      LtTotal(a[1..], b[1..]);
      assert a == [a[0]] + a[1..] && b == [b[0]] + b[1..];
    }
  }

  /** Sorted and free of repeats. */
  predicate Ascending(s: seq<string>) {
    forall i, j :: 0 <= i < j < |s| ==> Lt(s[i], s[j])
  }

  function Insert(s: seq<string>, x: string): (r: seq<string>)
    ensures multiset(r) == multiset(s) + multiset{x}
  {
    if s == [] || Lt(x, s[0]) then [x] + s
    else
      assert s == [s[0]] + s[1..];
      [s[0]] + Insert(s[1..], x)
  }

  /** table.sort. */
  function Sort(s: seq<string>): (r: seq<string>)
    ensures multiset(r) == multiset(s)
  {
    if s == [] then []
    else
      assert s == s[..|s| - 1] + [s[|s| - 1]];
      Insert(Sort(s[..|s| - 1]), s[|s| - 1])
  }

  lemma MembersFromMultiset(r: seq<string>, s: seq<string>)
    requires multiset(r) == multiset(s)
    ensures forall t :: t in r <==> t in s
  {
    forall t ensures t in r <==> t in s {
      assert t in r <==> t in multiset(r);
      assert t in s <==> t in multiset(s);
    }
  }

  lemma {:induction false} InsertAscending(s: seq<string>, x: string)
    requires Ascending(s) && x !in s
    ensures Ascending(Insert(s, x))
  {
    var r := Insert(s, x);
    if s == [] {
    } else if Lt(x, s[0]) {
      forall j | 0 < j < |r| ensures Lt(x, r[j]) {
        if j > 1 { LtTransitive(x, s[0], s[j - 1]); }
      }
    } else {
      LtTotal(x, s[0]);
      InsertAscending(s[1..], x);
      MembersFromMultiset(Insert(s[1..], x), s[1..] + [x]);
      forall j | 0 < j < |r| ensures Lt(r[0], r[j]) {
        assert r[j] == Insert(s[1..], x)[j - 1];
        assert r[j] in s[1..] + [x];
      }
    }
  }

  lemma {:induction false} InsertAtEnd(s: seq<string>, x: string)
    requires forall i :: 0 <= i < |s| ==> Lt(s[i], x)
    ensures Insert(s, x) == s + [x]
  {
    if s != [] {
      if Lt(x, s[0]) {
        LtTransitive(s[0], x, s[0]);
        LtIrreflexive(s[0]);
      }
      InsertAtEnd(s[1..], x);
    }
  }

  lemma {:induction false} SortAscendingIsIdentity(s: seq<string>)
    requires Ascending(s)
    ensures Sort(s) == s
  {
    if s != [] {
      SortAscendingIsIdentity(s[..|s| - 1]);
      InsertAtEnd(s[..|s| - 1], s[|s| - 1]);
    }
  }

  /** Appending a new element to an ascending list and sorting keeps the list
      ascending and adds exactly that element. */
  lemma SortAppended(s: seq<string>, x: string)
    requires Ascending(s) && x !in s
    ensures Ascending(Sort(s + [x]))
    ensures forall t :: t in Sort(s + [x]) <==> t in s || t == x
  {
    assert (s + [x])[..|s + [x]| - 1] == s;
    SortAscendingIsIdentity(s);
    InsertAscending(s, x);
    MembersFromMultiset(Sort(s + [x]), s + [x]);
  }

  /** An ascending list is determined by its members. */
  lemma {:induction false} AscendingUnique(a: seq<string>, b: seq<string>)
    requires Ascending(a) && Ascending(b)
    requires forall t :: t in a <==> t in b
    ensures a == b
  {
    assert a == [] <==> b == [] by {
      if a != [] { assert a[0] in a; }
      if b != [] { assert b[0] in b; }
    }
    if a != [] {
      assert a[0] in b && b[0] in a;
      var i :| 0 <= i < |b| && b[i] == a[0];
      var j :| 0 <= j < |a| && a[j] == b[0];
      if i > 0 && j > 0 {
        LtTransitive(a[0], b[0], a[0]);
        LtIrreflexive(a[0]);
      }
      assert a[0] == b[0];
      forall t ensures t in a[1..] <==> t in b[1..] {
        if t in a[1..] {
          var k :| 1 <= k < |a| && a[k] == t;
          assert t in b && t != b[0] by { LtIrreflexive(t); }
        }
        if t in b[1..] {
          var k :| 1 <= k < |b| && b[k] == t;
          assert t in a && t != a[0] by { LtIrreflexive(t); }
        }
      }
      AscendingUnique(a[1..], b[1..]);
    }
  }
}
