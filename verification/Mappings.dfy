/** Mapping entries "P<id>:<value>" and the canonical JSON array they are stored as. */
module Mappings {
  import opened Text

  // ---------------------------------------------------------------- entries

  /** parseFlatMappingEntry: property and value of a well-formed entry. */
  function ParseFlatEntry(e: string): Option<(string, string)> {
    if e == "" || e[0] != 'P' then None
    else
      var colon := RunLength(e, ':');
      if colon < 2 || colon >= |e| - 1 || ParseInt64(e[1..colon]).None? then None
      else Some((e[1..colon], e[colon + 1..]))
  }

  lemma P1IsAnEntry()
    ensures ParseFlatEntry("P1:x") == Some(("1", "x"))
  {
    assert RunLength("P1:x", ':') == 2;
    assert "P1:x"[1..2] == "1" && "P1:x"[3..] == "x";
    ParseFormatInt(1);
    assert FormatInt(1) == "1";
  }

  type Entry = e: string | ParseFlatEntry(e).Some? ghost witness (P1IsAnEntry(); "P1:x")

  /** The reverse-index slot of an entry: hash key "p:<id>" and field <value>. */
  type Slot = (string, string)

  function SlotOf(e: Entry): Slot {
    var (prop, value) := ParseFlatEntry(e).value;
    ("p:" + prop, value)
  }

  /** Different entries live in different slots. */
  lemma SlotInjective(a: Entry, b: Entry)
    requires SlotOf(a) == SlotOf(b)
    ensures a == b
  {
    var p, q := ParseFlatEntry(a).value.0, ParseFlatEntry(b).value.0;
    assert p == SlotOf(a).0[2..] == SlotOf(b).0[2..] == q;
    EntryParts(a);
    EntryParts(b);
  }

  lemma EntryParts(e: Entry)
    ensures e == "P" + ParseFlatEntry(e).value.0 + ":" + ParseFlatEntry(e).value.1
  {
  }

  function Slots(es: seq<Entry>): set<Slot> { set e | e in es :: SlotOf(e) }

  // ------------------------------------------------------------- JSON array

  function HexDigit(d: nat): char
    requires d < 16
  {
    if d < 10 then '0' + d as char else 'a' + (d - 10) as char
  }

  function HexValue(c: char): Option<nat> {
    if IsDigit(c) then Some((c - '0') as nat)
    else if 'a' <= c <= 'f' then Some((c - 'a') as nat + 10)
    else if 'A' <= c <= 'F' then Some((c - 'A') as nat + 10)
    else None
  }

  function UnicodeEscape(c: char): string
    requires c as int < 0x10000
  {
    var n := c as int;
    "\\u" + [HexDigit(n / 4096), HexDigit(n / 256 % 16), HexDigit(n / 16 % 16), HexDigit(n % 16)]
  }

  /** encoding/json's escaping of one character of a string. */
  function EscapeChar(c: char): (s: string)
    ensures s != ""
  {
    if c == '\"' || c == '\\' then ['\\', c]
    else if c == '\n' then "\\n"
    else if c == '\r' then "\\r"
    else if c == '\t' then "\\t"
    else if c as int == 8 then "\\b"
    else if c as int == 12 then "\\f"
    else if c < ' ' || c == '<' || c == '>' || c == '&' || c as int == 0x2028 || c as int == 0x2029 then
      UnicodeEscape(c)
    else [c]
  }

  function Escape(s: string): string {
    if s == "" then "" else EscapeChar(s[0]) + Escape(s[1..])
  }

  function Items(es: seq<string>): string {
    if es == [] then "]"
    else "\"" + Escape(es[0]) + "\"" + (if |es| == 1 then "]" else "," + Items(es[1..]))
  }

  /** canonicalMappingsJSON. */
  function Json(es: seq<string>): string { "[" + Items(es) }

  /** The code of a "\uXXXX" escape at the head of t, when it names a character. */
  function ReadUnicode(t: string): Option<char> {
    if |t| < 6 then None
    else
      match (HexValue(t[2]), HexValue(t[3]), HexValue(t[4]), HexValue(t[5]))
      case (Some(a), Some(b), Some(c), Some(d)) =>
        var n := a * 4096 + b * 256 + c * 16 + d;
        if n < 0xD800 || 0xE000 <= n < 0x10000 then Some(n as char) else None
      case _ => None
  }

  /** One possibly escaped character at the head of t, with the length it takes. */
  function ReadChar(t: string): (r: Option<(char, nat)>)
    ensures r.Some? ==> 0 < r.value.1 <= |t|
  {
    if t == "" || t[0] < ' ' then None
    else if t[0] != '\\' then Some((t[0], 1))
    else if |t| < 2 then None
    else if t[1] == '\"' || t[1] == '\\' || t[1] == '/' then Some((t[1], 2))
    else if t[1] == 'n' then Some(('\n', 2))
    else if t[1] == 'r' then Some(('\r', 2))
    else if t[1] == 't' then Some(('\t', 2))
    else if t[1] == 'b' then Some((8 as char, 2))
    else if t[1] == 'f' then Some((12 as char, 2))
    else if t[1] == 'u' then match ReadUnicode(t) { case Some(c) => Some((c, 6)) case None => None }
    else None
  }

  /** The string up to the closing quote, and what follows the quote. */
  function ReadString(t: string): (r: Option<(string, string)>)
    ensures r.Some? ==> |r.value.1| < |t|
    decreases |t|
  {
    if t == "" then None
    else if t[0] == '\"' then Some(("", t[1..]))
    else
      match ReadChar(t)
      case None => None
      case Some((c, n)) =>
        match ReadString(t[n..])
        case None => None
        case Some((s, rest)) => Some(([c] + s, rest))
  }

  function ReadItems(t: string): Option<seq<string>>
    decreases |t|
  {
    if t == "]" then Some([])
    else if t == "" || t[0] != '\"' then None
    else
      match ReadString(t[1..])
      case None => None
      case Some((s, rest)) =>
        if rest == "]" then Some([s])
        else if rest == "" || rest[0] != ',' || rest[1..] == "]" then None
        else match ReadItems(rest[1..]) { case None => None case Some(es) => Some([s] + es) }
  }

  /** cjson.decode of a canonical array of strings. */
  function Decode(raw: string): Option<seq<string>> {
    if raw == "" || raw[0] != '[' then None else ReadItems(raw[1..])
  }

  lemma HexRoundTrip(d: nat)
    requires d < 16
    ensures HexValue(HexDigit(d)) == Some(d)
  {
    var c := HexDigit(d);
    assert d < 10 ==> (c - '0') as nat == d;
    assert d >= 10 ==> (c - 'a') as nat == d - 10;
  }

  lemma HexSplit(n: nat)
    requires n < 0x10000
    ensures n / 4096 * 4096 + n / 256 % 16 * 256 + n / 16 % 16 * 16 + n % 16 == n
    ensures n / 4096 < 16
  {
    assert n / 256 == n / 4096 * 16 + n / 256 % 16;
    assert n / 16 == n / 256 * 16 + n / 16 % 16;
  }

  lemma ReadFourDigits(t: string, a: nat, b: nat, c: nat, d: nat)
    requires |t| >= 6 && a < 16 && b < 16 && c < 16 && d < 16
    requires t[2] == HexDigit(a) && t[3] == HexDigit(b) && t[4] == HexDigit(c) && t[5] == HexDigit(d)
    ensures var n := a * 4096 + b * 256 + c * 16 + d;
            ReadUnicode(t) == if n < 0xD800 || 0xE000 <= n < 0x10000 then Some(n as char) else None
  {
    HexRoundTrip(a);
    HexRoundTrip(b);
    HexRoundTrip(c);
    HexRoundTrip(d);
  }

  lemma ReadUnicodeEscape(c: char, rest: string)
    requires c as int < 0x10000
    ensures ReadUnicode(UnicodeEscape(c) + rest) == Some(c)
  {
    var n := c as int;
    HexSplit(n);
    ReadFourDigits(UnicodeEscape(c) + rest, n / 4096, n / 256 % 16, n / 16 % 16, n % 16);
  }

  /** A two-character escape: what stands for c after the backslash. */
  function ShortEscape(c: char): Option<char> {
    if c == '\"' || c == '\\' then Some(c)
    else if c == '\n' then Some('n')
    else if c == '\r' then Some('r')
    else if c == '\t' then Some('t')
    else if c as int == 8 then Some('b')
    else if c as int == 12 then Some('f')
    else None
  }

  lemma ReadShortEscape(c: char, d: char, rest: string)
    requires ShortEscape(c) == Some(d)
    ensures EscapeChar(c) == ['\\', d] && ReadChar(['\\', d] + rest) == Some((c, 2))
  {
    var t := ['\\', d] + rest;
    assert t[0] == '\\' && t[1] == d && |t| >= 2;
  }

  lemma ReadEscapedChar(c: char, rest: string)
    ensures ReadChar(EscapeChar(c) + rest) == Some((c, |EscapeChar(c)|))
  {
    var t := EscapeChar(c) + rest;
    if ShortEscape(c).Some? {
      ReadShortEscape(c, ShortEscape(c).value, rest);
    } else if c as int < 0x10000 && EscapeChar(c) == UnicodeEscape(c) {
      ReadUnicodeEscape(c, rest);
      assert t[0] == '\\' && t[1] == 'u';
    } else {
      assert EscapeChar(c) == [c] && t[0] == c;
    }
  }

  lemma ReadStringAt(t: string, c: char, n: nat, s: string, rest: string)
    requires t != "" && t[0] != '\"' && ReadChar(t) == Some((c, n)) && ReadString(t[n..]) == Some((s, rest))
    ensures ReadString(t) == Some(([c] + s, rest))
  {
  }

  lemma {:induction false} ReadEscaped(s: string, rest: string)
    ensures ReadString(Escape(s) + "\"" + rest) == Some((s, rest))
  {
    if s != "" {
      var more := Escape(s[1..]) + "\"" + rest;
      var t := EscapeChar(s[0]) + more;
      assert Escape(s) + "\"" + rest == t;
      ReadEscapedChar(s[0], more);
      assert t[|EscapeChar(s[0])|..] == more;
      assert t[0] == EscapeChar(s[0])[0] != '\"';
      ReadEscaped(s[1..], rest);
      ReadStringAt(t, s[0], |EscapeChar(s[0])|, s[1..], rest);
      assert [s[0]] + s[1..] == s;
    }
  }

  lemma ReadItemsAt(t: string, s: string, rest: string)
    requires t != "" && t[0] == '\"' && ReadString(t[1..]) == Some((s, rest))
    ensures rest == "]" ==> ReadItems(t) == Some([s])
    ensures rest != "" && rest[0] == ',' && rest[1..] != "]" && ReadItems(rest[1..]).Some? ==>
              ReadItems(t) == Some([s] + ReadItems(rest[1..]).value)
  {
  }

  lemma ReadOneItem(s: string)
    ensures ReadItems(Items([s])) == Some([s])
  {
    var t := Items([s]);
    assert t[1..] == Escape(s) + "\"" + "]";
    ReadEscaped(s, "]");
    ReadItemsAt(t, s, "]");
  }

  lemma ReadMoreItems(s: string, es: seq<string>)
    requires es != [] && ReadItems(Items(es)) == Some(es)
    ensures ReadItems(Items([s] + es)) == Some([s] + es)
  {
    var t, tail := Items([s] + es), "," + Items(es);
    assert ([s] + es)[1..] == es;
    assert t[1..] == Escape(s) + "\"" + tail;
    ReadEscaped(s, tail);
    assert tail[1..] == Items(es) && Items(es)[0] == '\"';
    ReadItemsAt(t, s, tail);
  }

  lemma {:induction false} ReadItemsRoundTrip(es: seq<string>)
    ensures ReadItems(Items(es)) == Some(es)
  {
    if |es| == 1 {
      ReadOneItem(es[0]);
      assert es == [es[0]];
    } else if es != [] {
      ReadItemsRoundTrip(es[1..]);
      ReadMoreItems(es[0], es[1..]);
      assert es == [es[0]] + es[1..];
    }
  }

  /** Decoding the canonical text gives the entries back. */
  lemma DecodeJson(es: seq<string>)
    ensures Decode(Json(es)) == Some(es)
  {
    ReadItemsRoundTrip(es);
    assert Json(es)[1..] == Items(es);
  }

  // ----------------------------------------------------------- stored value

  predicate AllEntries(es: seq<string>) { forall i :: 0 <= i < |es| ==> ParseFlatEntry(es[i]).Some? }

  /** A mappings value as the store keeps it: any text. The scripts can work with it when it
      decodes to entries. */
  type Raw = string

  predicate Decodes(raw: Raw) { Decode(raw).Some? && AllEntries(Decode(raw).value) }

  function Entries(raw: Raw): seq<Entry> { if Decodes(raw) then Decode(raw).value else [] }

  function Canonical(es: seq<Entry>): (raw: Raw)
    ensures Decodes(raw) && Entries(raw) == es
  {
    DecodeJson(es);
    Json(es)
  }

  // ------------------------------------------------------------- line breaks

  predicate NoBreak(s: string) { '\n' !in s && '\r' !in s }

  /** A text the line formats can carry, whether or not it decodes. */
  predicate Plain(raw: Raw) { raw != "" && NoBreak(raw) }

  lemma ReadCharNoBreak(t: string)
    requires ReadChar(t).Some?
    ensures NoBreak(t[..ReadChar(t).value.1])
  {
    if t[0] == '\\' && t[1] == 'u' {
      assert t[..6] == [t[0], t[1], t[2], t[3], t[4], t[5]];
    } else if t[0] == '\\' {
      assert t[..2] == [t[0], t[1]];
    } else {
      assert t[..1] == [t[0]];
    }
  }

  lemma {:induction false} ReadStringNoBreak(t: string)
    requires ReadString(t).Some?
    ensures var k := |t| - |ReadString(t).value.1|;
            0 < k <= |t| && ReadString(t).value.1 == t[k..] && NoBreak(t[..k])
    decreases |t|
  {
    if t[0] == '\"' {
      assert t[..1] == [t[0]];
    } else {
      var n := ReadChar(t).value.1;
      ReadCharNoBreak(t);
      ReadStringNoBreak(t[n..]);
      var k := |t| - |ReadString(t).value.1|;
      assert t[..k] == t[..n] + t[n..][..k - n];
    }
  }

  lemma EndsAlike(head: string, tail: string)
    requires NoBreak(head) && NoBreak(tail) && tail != "" && tail[|tail| - 1] == ']'
    ensures NoBreak(head + tail) && (head + tail)[|head + tail| - 1] == ']'
  {
  }

  lemma {:induction false} ReadItemsNoBreak(t: string)
    requires ReadItems(t).Some?
    ensures t != "" && t[|t| - 1] == ']' && NoBreak(t)
    decreases |t|
  {
    if t != "]" {
      ReadStringNoBreak(t[1..]);
      var rest := ReadString(t[1..]).value.1;
      var head := [t[0]] + t[1..][..|t| - |rest| - 1];
      assert t == head + rest;
      if rest != "]" {
        ReadItemsNoBreak(rest[1..]);
        EndsAlike([rest[0]], rest[1..]);
        assert rest == [rest[0]] + rest[1..];
      }
      hide ReadItems, ReadString;
      EndsAlike(head, rest);
    }
  }

  /** Values that decode fit on one line of the wire formats. */
  lemma RawIsOneLine(raw: Raw)
    requires Decodes(raw)
    ensures |raw| >= 2 && raw[0] == '[' && raw[|raw| - 1] == ']' && Plain(raw)
  {
    ReadItemsNoBreak(raw[1..]);
    assert raw == [raw[0]] + raw[1..];
  }

  // -------------------------------------------------------------- truncation

  lemma ReadUnicodeMore(t: string, x: string)
    requires ReadUnicode(t).Some?
    ensures ReadUnicode(t + x) == ReadUnicode(t)
  {
    assert forall i :: 0 <= i < 6 ==> (t + x)[i] == t[i];
  }

  lemma ReadCharMore(t: string, x: string)
    requires ReadChar(t).Some?
    ensures ReadChar(t + x) == ReadChar(t)
  {
    assert (t + x)[0] == t[0];
    if t[0] == '\\' {
      assert (t + x)[1] == t[1];
      if t[1] == 'u' { ReadUnicodeMore(t, x); }
    }
  }

  lemma {:induction false} ReadStringMore(t: string, x: string)
    requires ReadString(t).Some?
    ensures ReadString(t + x) == Some((ReadString(t).value.0, ReadString(t).value.1 + x))
    decreases |t|
  {
    assert (t + x)[0] == t[0];
    if t[0] == '\"' {
      assert (t + x)[1..] == t[1..] + x;
    } else {
      var (c, n) := ReadChar(t).value;
      ReadCharMore(t, x);
      assert (t + x)[n..] == t[n..] + x;
      ReadStringMore(t[n..], x);
      ReadStringAt(t + x, c, n, ReadString(t[n..]).value.0, ReadString(t[n..]).value.1 + x);
    }
  }

  /** Nothing can follow a complete array. */
  lemma {:induction false} ReadItemsMore(t: string, x: string)
    requires ReadItems(t).Some? && x != ""
    ensures ReadItems(t + x) == None
    decreases |t|
  {
    assert (t + x)[0] == t[0];
    if t != "]" {
      var (s, rest) := ReadString(t[1..]).value;
      assert (t + x)[1..] == t[1..] + x;
      ReadStringMore(t[1..], x);
      assert (rest + x)[0] == rest[0];
      if rest != "]" {
        assert (rest + x)[1..] == rest[1..] + x;
        ReadItemsMore(rest[1..], x);
      }
    }
  }

  /** A value cut short never decodes. */
  lemma TruncatedFails(raw: Raw, k: nat)
    requires Decodes(raw) && k < |raw|
    ensures !Decodes(raw[..k])
  {
    var cut, x := raw[..k], raw[k..];
    if Decode(cut).Some? {
      assert raw == cut + x && raw[1..] == cut[1..] + x;
      ReadItemsMore(cut[1..], x);
    }
  }
}
