/**
 * The text the client stores for its history: JSON.stringify of an array of
 * records {id, createdAt, transcript}, and a reader for that text standing
 * in for JSON.parse (meeting-recorder-pwa-v2/app.js, loadHistory and
 * saveHistory). The reader accepts the texts JSON.stringify writes for a
 * history, with the escapes JSON allows in strings, and rejects the rest.
 */
module HistoryJson {
  import opened Wrappers
  import opened Digits

  /** One history record: a millisecond timestamp id, an ISO creation time and the transcript. */
  datatype Entry = Entry(id: nat, createdAt: string, transcript: string)

  // ---------------------------------------------------------------------
  // Writing: JSON.stringify
  // ---------------------------------------------------------------------

  /** How JSON.stringify writes one character inside a string literal. */
  function EscapeChar(c: char): (s: string)
    ensures |s| >= 1
  {
    if c == '"' then "\\\""
    else if c == '\\' then "\\\\"
    else if c as int == 8 then "\\b"
    else if c as int == 9 then "\\t"
    else if c as int == 10 then "\\n"
    else if c as int == 12 then "\\f"
    else if c as int == 13 then "\\r"
    else if c as int < 0x20 then "\\u00" + [HexDigit(c as int / 16), HexDigit(c as int % 16)]
    else [c]
  }

  function Escape(s: string): string {
    if s == [] then "" else EscapeChar(s[0]) + Escape(s[1..])
  }

  function Quote(s: string): string {
    "\"" + Escape(s) + "\""
  }

  function EntryText(e: Entry): string {
    "{\"id\":" + NatToString(e.id) + ",\"createdAt\":" + Quote(e.createdAt)
      + ",\"transcript\":" + Quote(e.transcript) + "}"
  }

  /** The entries after the first, each preceded by a comma. */
  function Tail(entries: seq<Entry>): string {
    if entries == [] then "" else "," + EntryText(entries[0]) + Tail(entries[1..])
  }

  /** JSON.stringify(history). */
  function Stringify(history: seq<Entry>): (text: string)
    ensures text != "" && text[0] == '['
  {
    if history == [] then "[]" else "[" + EntryText(history[0]) + Tail(history[1..]) + "]"
  }

  // ---------------------------------------------------------------------
  // Reading
  // ---------------------------------------------------------------------

  /** `lit` at the front of `s`, and what follows it. */
  function Expect(lit: string, s: string): (r: Option<string>)
    ensures r.Some? ==> |r.value| == |s| - |lit|
  {
    if lit <= s then Some(s[|lit|..]) else None
  }

  /**
   * The character a backslash escape stands for, and the text after it; `s`
   * starts just after the backslash. A \u escape naming a surrogate code
   * unit is rejected.
   */
  function Unescape(s: string): (r: Option<(char, string)>)
    ensures r.Some? ==> |r.value.1| < |s|
  {
    if s == [] then None
    else if s[0] == '"' || s[0] == '\\' || s[0] == '/' then Some((s[0], s[1..]))
    else if s[0] == 'b' then Some((8 as char, s[1..]))
    else if s[0] == 't' then Some((9 as char, s[1..]))
    else if s[0] == 'n' then Some((10 as char, s[1..]))
    else if s[0] == 'f' then Some((12 as char, s[1..]))
    else if s[0] == 'r' then Some((13 as char, s[1..]))
    else if s[0] == 'u' && |s| >= 5
         && IsAnyHexDigit(s[1]) && IsAnyHexDigit(s[2]) && IsAnyHexDigit(s[3]) && IsAnyHexDigit(s[4]) then
      var v := HexValue(s[1]) * 4096 + HexValue(s[2]) * 256 + HexValue(s[3]) * 16 + HexValue(s[4]);
      if 0xD800 <= v < 0xE000 then None else Some((v as char, s[5..]))
    else None
  }

  /** The characters of a string literal up to its closing quote, and the text after the quote. */
  function ParseChars(s: string): (r: Option<(string, string)>)
    ensures r.Some? ==> |r.value.1| < |s|
    decreases |s|
  {
    if s == [] then None
    else if s[0] == '"' then Some(("", s[1..]))
    else if s[0] == '\\' then
      match Unescape(s[1..])
      case None => None
      case Some((c, rest)) =>
        match ParseChars(rest)
        case None => None
        case Some((t, r)) => Some(([c] + t, r))
    else if s[0] as int < 0x20 then None
    else
      match ParseChars(s[1..])
      case None => None
      case Some((t, r)) => Some(([s[0]] + t, r))
  }

  function ParseString(s: string): (r: Option<(string, string)>)
    ensures r.Some? ==> |r.value.1| < |s|
  {
    match Expect("\"", s)
    case None => None
    case Some(s1) => ParseChars(s1)
  }

  /** The number of decimal digits at the front of `s`. */
  function DigitCount(s: string): (k: nat)
    ensures k <= |s| && AllDigits(s[..k])
  {
    if s == [] || !IsDigit(s[0]) then 0
    else
      assert s[..1 + DigitCount(s[1..])] == [s[0]] + s[1..][..DigitCount(s[1..])];
      1 + DigitCount(s[1..])
  }

  /** A JSON non-negative integer: digits with no leading zero. */
  function ParseNat(s: string): (r: Option<(nat, string)>)
    ensures r.Some? ==> |r.value.1| < |s|
  {
    var k := DigitCount(s);
    if k == 0 || (k > 1 && s[0] == '0') then None else Some((Value(s[..k]), s[k..]))
  }

  function ParseEntry(s: string): (r: Option<(Entry, string)>)
    ensures r.Some? ==> |r.value.1| < |s|
  {
    match Expect("{\"id\":", s)
    case None => None
    case Some(s1) =>
      match ParseNat(s1)
      case None => None
      case Some((id, s2)) =>
        match Expect(",\"createdAt\":", s2)
        case None => None
        case Some(s3) =>
          match ParseString(s3)
          case None => None
          case Some((createdAt, s4)) =>
            match Expect(",\"transcript\":", s4)
            case None => None
            case Some(s5) =>
              match ParseString(s5)
              case None => None
              case Some((transcript, s6)) =>
                match Expect("}", s6)
                case None => None
                case Some(s7) => Some((Entry(id, createdAt, transcript), s7))
  }

  function ParseTail(s: string): (r: Option<(seq<Entry>, string)>)
    ensures r.Some? ==> |r.value.1| <= |s|
    decreases |s|
  {
    if s != [] && s[0] == ',' then
      match ParseEntry(s[1..])
      case None => None
      case Some((e, s1)) =>
        match ParseTail(s1)
        case None => None
        case Some((es, s2)) => Some(([e] + es, s2))
    else Some(([], s))
  }

  /** The history a stored text denotes, or None when the text is not a stored history. */
  function Parse(s: string): (r: Option<seq<Entry>>)
    ensures r.Some? ==> "[" <= s
    ensures r == Some([]) <==> s == "[]"
  {
    match Expect("[", s)
    case None => None
    case Some(s1) =>
      if s1 == "]" then Some([])
      else
        match ParseEntry(s1)
        case None => None
        case Some((e, s2)) =>
          match ParseTail(s2)
          case None => None
          case Some((es, s3)) => if s3 == "]" then Some([e] + es) else None
  }

  // ---------------------------------------------------------------------
  // Round trip
  // ---------------------------------------------------------------------

  lemma ExpectRoundTrip(lit: string, rest: string)
    ensures Expect(lit, lit + rest) == Some(rest)
  {
    assert lit <= lit + rest;
    assert (lit + rest)[|lit|..] == rest;
  }

  /** A control character written as \u00XX is read back by Unescape. */
  lemma UnicodeUnescape(c: char, rest: string)
    requires c as int < 0x20
    ensures Unescape(['u', '0', '0', HexDigit(c as int / 16), HexDigit(c as int % 16)] + rest) == Some((c, rest))
  {
    var u := ['u', '0', '0', HexDigit(c as int / 16), HexDigit(c as int % 16)] + rest;
    HexValueOfHexDigit(c as int / 16);
    HexValueOfHexDigit(c as int % 16);
    assert u[5..] == rest;
  }

  lemma UnicodeEscapeRoundTrip(c: char, rest: string)
    requires c as int < 0x20 && c as int !in {8, 9, 10, 12, 13}
    ensures ParseChars(EscapeChar(c) + rest)
         == match ParseChars(rest)
            case None => None
            case Some((t, r)) => Some(([c] + t, r))
  {
    var u := ['u', '0', '0', HexDigit(c as int / 16), HexDigit(c as int % 16)] + rest;
    var s := EscapeChar(c) + rest;
    assert s == ['\\'] + u;
    assert s[1..] == u;
    UnicodeUnescape(c, rest);
  }

  lemma ShortEscapeRoundTrip(c: char, rest: string)
    requires c == '"' || c == '\\' || c as int in {8, 9, 10, 12, 13}
    ensures ParseChars(EscapeChar(c) + rest)
         == match ParseChars(rest)
            case None => None
            case Some((t, r)) => Some(([c] + t, r))
  {
    var s := EscapeChar(c) + rest;
    assert |EscapeChar(c)| == 2 && EscapeChar(c)[0] == '\\';
    assert s[1..] == [EscapeChar(c)[1]] + rest;
    assert s[1..][1..] == rest;
  }

  lemma PlainCharRoundTrip(c: char, rest: string)
    requires c as int >= 0x20 && c != '"' && c != '\\'
    ensures ParseChars(EscapeChar(c) + rest)
         == match ParseChars(rest)
            case None => None
            case Some((t, r)) => Some(([c] + t, r))
  {
    assert (EscapeChar(c) + rest)[1..] == rest;
  }

  /** One escaped character reads back as that character, followed by whatever the rest reads as. */
  lemma EscapeCharRoundTrip(c: char, rest: string)
    ensures ParseChars(EscapeChar(c) + rest)
         == match ParseChars(rest)
            case None => None
            case Some((t, r)) => Some(([c] + t, r))
  {
    if c as int < 0x20 && c as int !in {8, 9, 10, 12, 13} {
      UnicodeEscapeRoundTrip(c, rest);
    } else if c == '"' || c == '\\' || c as int in {8, 9, 10, 12, 13} {
      ShortEscapeRoundTrip(c, rest);
    } else {
      PlainCharRoundTrip(c, rest);
    }
  }

  lemma {:induction false} EscapeRoundTrip(t: string, rest: string)
    ensures ParseChars(Escape(t) + "\"" + rest) == Some((t, rest))
    decreases |t|
  {
    if t == [] {
      assert Escape(t) + "\"" + rest == "\"" + rest;
      assert ("\"" + rest)[1..] == rest;
    } else {
      var x := Escape(t[1..]) + "\"" + rest;
      assert Escape(t) + "\"" + rest == EscapeChar(t[0]) + x;
      EscapeCharRoundTrip(t[0], x);
      EscapeRoundTrip(t[1..], rest);
      assert [t[0]] + t[1..] == t;
    }
  }

  lemma Regroup4(a: string, b: string, c: string, d: string)
    ensures a + b + c + d == a + (b + c + d)
  {
  }

  lemma QuoteRoundTrip(t: string, rest: string)
    ensures ParseString(Quote(t) + rest) == Some((t, rest))
  {
    Regroup4("\"", Escape(t), "\"", rest);
    ExpectRoundTrip("\"", Escape(t) + "\"" + rest);
    EscapeRoundTrip(t, rest);
  }

  lemma {:induction false} DigitCountOf(d: string, rest: string)
    requires AllDigits(d)
    requires rest == [] || !IsDigit(rest[0])
    ensures DigitCount(d + rest) == |d|
    decreases |d|
  {
    if d == [] {
      assert d + rest == rest;
    } else {
      assert (d + rest)[1..] == d[1..] + rest;
      DigitCountOf(d[1..], rest);
    }
  }

  lemma NatRoundTrip(n: nat, rest: string)
    requires rest == [] || !IsDigit(rest[0])
    ensures ParseNat(NatToString(n) + rest) == Some((n, rest))
  {
    var d := NatToString(n);
    DigitCountOf(d, rest);
    assert (d + rest)[..|d|] == d;
    assert (d + rest)[|d|..] == rest;
    ValueOfNatToString(n);
  }

  lemma Regroup7(a: string, b: string, c: string, d: string, e: string, f: string, g: string, rest: string)
    ensures a + b + c + d + e + f + g + rest == a + (b + (c + (d + (e + (f + (g + rest))))))
  {
  }

  lemma EntryRoundTrip(e: Entry, rest: string)
    ensures ParseEntry(EntryText(e) + rest) == Some((e, rest))
  {
    var l1, l2, l3, l4 := "{\"id\":", ",\"createdAt\":", ",\"transcript\":", "}";
    var n, q1, q2 := NatToString(e.id), Quote(e.createdAt), Quote(e.transcript);
    var s6 := l4 + rest;
    var s5 := q2 + s6;
    var s4 := l3 + s5;
    var s3 := q1 + s4;
    var s2 := l2 + s3;
    var s1 := n + s2;
    Regroup7(l1, n, l2, q1, l3, q2, l4, rest);
    assert EntryText(e) + rest == l1 + s1;
    ExpectRoundTrip(l1, s1);
    NatRoundTrip(e.id, s2);
    ExpectRoundTrip(l2, s3);
    QuoteRoundTrip(e.createdAt, s4);
    ExpectRoundTrip(l3, s5);
    QuoteRoundTrip(e.transcript, s6);
    ExpectRoundTrip(l4, rest);
  }

  lemma Regroup3(a: string, b: string, c: string, rest: string)
    ensures a + b + c + rest == a + (b + (c + rest))
  {
  }

  lemma AfterComma(et: string, x: string)
    ensures ("," + (et + x))[0] == ','
    ensures ("," + (et + x))[1..] == et + x
  {
  }

  lemma ParseTailStep(s: string, e: Entry, x: string, es: seq<Entry>, rest: string)
    requires s != [] && s[0] == ','
    requires ParseEntry(s[1..]) == Some((e, x))
    requires ParseTail(x) == Some((es, rest))
    ensures ParseTail(s) == Some(([e] + es, rest))
  {
  }

  lemma TailUnfold(entries: seq<Entry>, rest: string)
    requires entries != []
    ensures Tail(entries) + rest == "," + (EntryText(entries[0]) + (Tail(entries[1..]) + rest))
  {
    Regroup3(",", EntryText(entries[0]), Tail(entries[1..]), rest);
  }

  /** A comma, an entry's text and a parsable tail parse as one more entry. */
  lemma CommaEntry(e: Entry, x: string, es: seq<Entry>, rest: string)
    requires ParseTail(x) == Some((es, rest))
    ensures ParseTail("," + (EntryText(e) + x)) == Some(([e] + es, rest))
  {
    AfterComma(EntryText(e), x);
    EntryRoundTrip(e, x);
    ParseTailStep("," + (EntryText(e) + x), e, x, es, rest);
  }

  lemma TailCons(entries: seq<Entry>, rest: string)
    requires entries != []
    requires ParseTail(Tail(entries[1..]) + rest) == Some((entries[1..], rest))
    ensures ParseTail(Tail(entries) + rest) == Some((entries, rest))
  {
    CommaEntry(entries[0], Tail(entries[1..]) + rest, entries[1..], rest);
    TailUnfold(entries, rest);
    ConsSplit(entries);
  }

  lemma {:induction false} TailRoundTrip(entries: seq<Entry>, rest: string)
    requires rest == [] || rest[0] != ','
    ensures ParseTail(Tail(entries) + rest) == Some((entries, rest))
    decreases |entries|
  {
    if entries == [] {
      assert Tail(entries) + rest == rest;
    } else {
      TailRoundTrip(entries[1..], rest);
      TailCons(entries, rest);
    }
  }

  lemma ParseStep(body: string, e: Entry, x: string, es: seq<Entry>)
    requires body != "]"
    requires ParseEntry(body) == Some((e, x))
    requires ParseTail(x) == Some((es, "]"))
    ensures Parse("[" + body) == Some([e] + es)
  {
    ExpectRoundTrip("[", body);
  }

  lemma StringifyUnfold(history: seq<Entry>)
    requires history != []
    ensures Stringify(history) == "[" + (EntryText(history[0]) + (Tail(history[1..]) + "]"))
  {
    Regroup3("[", EntryText(history[0]), Tail(history[1..]), "]");
  }

  /** An opening bracket, one entry and a parsable tail parse as a whole history. */
  lemma OpenEntry(e: Entry, es: seq<Entry>)
    requires ParseTail(Tail(es) + "]") == Some((es, "]"))
    ensures Parse("[" + (EntryText(e) + (Tail(es) + "]"))) == Some([e] + es)
  {
    var et := EntryText(e);
    var tail := Tail(es) + "]";
    assert et[0] == '{';
    assert et + tail != "]" by {
      assert (et + tail)[0] == et[0];
    }
    EntryRoundTrip(e, tail);
    ParseStep(et + tail, e, tail, es);
  }

  lemma ConsSplit(history: seq<Entry>)
    requires history != []
    ensures [history[0]] + history[1..] == history
  {
  }

  lemma StringifyConsRoundTrip(history: seq<Entry>)
    requires history != []
    ensures Parse(Stringify(history)) == Some(history)
  {
    StringifyUnfold(history);
    TailRoundTrip(history[1..], "]");
    OpenEntry(history[0], history[1..]);
    ConsSplit(history);
  }

  /** What JSON.stringify writes for a history reads back as that history. */
  lemma ParseStringify(history: seq<Entry>)
    ensures Parse(Stringify(history)) == Some(history)
  {
    if history == [] {
      ExpectRoundTrip("[", "]");
    } else {
      StringifyConsRoundTrip(history);
    }
  }
}
