/**
  The enrichment record of a track (`SongInfo` in `xray.py`: a meaning and a
  list of facts) and its cached text. The text is the one `json.dumps`
  writes with its default settings, `{"meaning": ..., "facts": [...]}` with
  `": "` and `", "` as separators and every string escaped as `ensure_ascii`
  demands; `Decode` reads that layout back as `json.loads` does.
*/
module XrayRecord {
  import opened PyValues

  datatype SongXray = SongXray(meaning: string, facts: seq<string>)

  /** The list of facts, as a JSON list of strings. */
  function FactsJson(facts: seq<string>): (j: Json)
    ensures j.JArr? && |j.items| == |facts|
    ensures forall i :: 0 <= i < |facts| ==> j.items[i] == JStr(facts[i])
  {
    JArr(seq(|facts|, i requires 0 <= i < |facts| => JStr(facts[i])))
  }

  /** The dict `{"meaning": ..., "facts": [...]}`. */
  function AsJson(x: SongXray): (j: Json)
    ensures j.JObj? && Keys(j.fields) == ["meaning", "facts"]
    ensures Get(j.fields, "meaning") == Some(JStr(x.meaning))
    ensures Get(j.fields, "facts") == Some(FactsJson(x.facts))
  {
    var facts := FactsJson(x.facts);
    var fields := [("meaning", JStr(x.meaning)), ("facts", facts)];
    assert fields[1..] == [("facts", facts)];
    JObj(fields)
  }

  // ---- string escaping, as json.dumps does with ensure_ascii ----

  const HexDigits: string := "0123456789abcdef"

  /** Four lower-case hex digits. */
  function Hex4(n: nat): (s: string)
    requires n < 0x10000
    ensures |s| == 4
  {
    var m := n % 4096;
    var m2 := m % 256;
    [HexDigits[n / 4096], HexDigits[m / 256], HexDigits[m2 / 16], HexDigits[m2 % 16]]
  }

  /** The escape of one character: the two delimiters and the five control characters
      with short forms get a backslash; the other characters outside `' '..'~'` become
      `\uXXXX`, split into a surrogate pair above U+FFFF; the rest stand for themselves. */
  function EscapeChar(c: char): (s: string)
    ensures |s| >= 1 && s[0] != '"'
  {
    var code := c as int;
    if c == '"' then "\\\""
    else if c == '\\' then "\\\\"
    else if code == 8 then "\\b"
    else if code == 12 then "\\f"
    else if c == '\n' then "\\n"
    else if c == '\r' then "\\r"
    else if c == '\t' then "\\t"
    else if 0x20 <= code <= 0x7E then [c]
    else if code < 0x10000 then "\\u" + Hex4(code)
    else "\\u" + Hex4(HighSurrogate(c)) + "\\u" + Hex4(LowSurrogate(c))
  }

  /** The UTF-16 surrogate pair of a character above U+FFFF. */
  function HighSurrogate(c: char): (n: nat)
    requires c as int >= 0x10000
    ensures 0xD800 <= n < 0xDC00
  {
    0xD800 + (c as int - 0x10000) / 1024
  }

  function LowSurrogate(c: char): (n: nat)
    requires c as int >= 0x10000
    ensures 0xDC00 <= n < 0xE000
  {
    0xDC00 + (c as int - 0x10000) % 1024
  }

  /** The code point a surrogate pair stands for. */
  function Combine(hi: nat, lo: nat): (code: int)
    requires 0xD800 <= hi < 0xDC00 && 0xDC00 <= lo < 0xE000
    ensures 0x10000 <= code < 0x110000
  {
    0x10000 + (hi - 0xD800) * 1024 + (lo - 0xDC00)
  }

  lemma CombineSplits(c: char)
    requires c as int >= 0x10000
    ensures Combine(HighSurrogate(c), LowSurrogate(c)) == c as int
  {
  }

  function Escape(s: string): string
    decreases |s|
  {
    if s == [] then "" else EscapeChar(s[0]) + Escape(s[1..])
  }

  /** A string as a JSON string literal. */
  function Quoted(s: string): string {
    "\"" + Escape(s) + "\""
  }

  // ---- reading a string literal back ----

  function HexValue(c: char): Option<nat> {
    if '0' <= c <= '9' then Some(c as int - '0' as int)
    else if 'a' <= c <= 'f' then Some(c as int - 'a' as int + 10)
    else if 'A' <= c <= 'F' then Some(c as int - 'A' as int + 10)
    else None
  }

  function ParseHex4(s: string): (r: Option<(nat, string)>)
    ensures r.Some? ==> r.value.0 < 0x10000 && |s| >= 4 && r.value.1 == s[4..]
  {
    if |s| < 4 then None
    else
      match (HexValue(s[0]), HexValue(s[1]), HexValue(s[2]), HexValue(s[3]))
      case (Some(a), Some(b), Some(c), Some(d)) =>
        if a < 16 && b < 16 && c < 16 && d < 16 then Some((a * 4096 + b * 256 + c * 16 + d, s[4..]))
        else None
      case _ => None
  }

  /** The character of a `\uXXXX` escape (`s` follows the `u`), joining a surrogate pair;
      a lone surrogate is refused. */
  function ReadUnicode(s: string): (r: Option<(char, string)>)
    ensures r.Some? ==> |r.value.1| < |s|
  {
    match ParseHex4(s)
    case None => None
    case Some((n, rest)) =>
      if 0xD800 <= n < 0xDC00 then
        if |rest| >= 2 && rest[0] == '\\' && rest[1] == 'u' then
          match ParseHex4(rest[2..])
          case None => None
          case Some((m, rest2)) =>
            if 0xDC00 <= m < 0xE000 then Some((Combine(n, m) as char, rest2))
            else None
        else None
      else if 0xDC00 <= n < 0xE000 then None
      else Some((n as char, rest))
  }

  /** The character of an escape (`s` follows the backslash). */
  function ReadEscape(s: string): (r: Option<(char, string)>)
    ensures r.Some? ==> |r.value.1| < |s|
  {
    if s == [] then None
    else
      match s[0]
      case '"' => Some(('"', s[1..]))
      case '\\' => Some(('\\', s[1..]))
      case '/' => Some(('/', s[1..]))
      case 'b' => Some((8 as char, s[1..]))
      case 'f' => Some((12 as char, s[1..]))
      case 'n' => Some(('\n', s[1..]))
      case 'r' => Some(('\r', s[1..]))
      case 't' => Some(('\t', s[1..]))
      case 'u' => ReadUnicode(s[1..])
      case _ => None
  }

  /** One character of a string literal's body; `None` at the closing quote, at a raw
      control character and at an invalid escape. */
  function ReadChar(s: string): (r: Option<(char, string)>)
    ensures r.Some? ==> |r.value.1| < |s|
  {
    if s == [] || s[0] == '"' then None
    else if s[0] == '\\' then ReadEscape(s[1..])
    else if s[0] as int < 0x20 then None
    else Some((s[0], s[1..]))
  }

  /** The body of a string literal up to its closing quote, and what follows the quote. */
  function ReadBody(s: string): (r: Option<(string, string)>)
    ensures r.Some? ==> |r.value.1| < |s|
    decreases |s|
  {
    if s == [] then None
    else if s[0] == '"' then Some(("", s[1..]))
    else
      match ReadChar(s)
      case None => None
      case Some((c, rest)) =>
        match ReadBody(rest)
        case None => None
        case Some((t, after)) => Some(([c] + t, after))
  }

  function ReadQuoted(s: string): (r: Option<(string, string)>)
    ensures r.Some? ==> |r.value.1| < |s|
  {
    if s == [] || s[0] != '"' then None else ReadBody(s[1..])
  }

  // ---- the escape round trip ----

  lemma HexDigitValue(d: nat)
    requires d < 16
    ensures HexValue(HexDigits[d]) == Some(d)
  {
    if d < 10 {
      assert HexDigits[d] as int == '0' as int + d;
    } else {
      assert HexDigits[d] as int == 'a' as int + d - 10;
    }
  }

  lemma ParseHex4Inverts(n: nat, rest: string)
    requires n < 0x10000
    ensures ParseHex4(Hex4(n) + rest) == Some((n, rest))
  {
    var m := n % 4096;
    var m2 := m % 256;
    var s := Hex4(n) + rest;
    HexDigitValue(n / 4096);
    HexDigitValue(m / 256);
    HexDigitValue(m2 / 16);
    HexDigitValue(m2 % 16);
    assert s[0] == HexDigits[n / 4096] && s[1] == HexDigits[m / 256];
    assert s[2] == HexDigits[m2 / 16] && s[3] == HexDigits[m2 % 16];
    HexSplit(n);
    assert s[4..] == rest;
  }

  /** A high surrogate followed by `\u` and a low surrogate. */
  lemma ReadUnicodeHigh(hi: nat, lo: nat, tail: string, rest: string)
    requires 0xD800 <= hi < 0xDC00 && 0xDC00 <= lo < 0xE000
    requires |tail| >= 2 && tail[0] == '\\' && tail[1] == 'u' && ParseHex4(tail[2..]) == Some((lo, rest))
    ensures ReadUnicode(Hex4(hi) + tail) == Some((Combine(hi, lo) as char, rest))
  {
    ParseHex4Inverts(hi, tail);
  }

  lemma ReadUnicodePair(hi: nat, lo: nat, rest: string)
    requires 0xD800 <= hi < 0xDC00 && 0xDC00 <= lo < 0xE000
    ensures ReadUnicode(Hex4(hi) + ("\\u" + Hex4(lo) + rest))
         == Some((Combine(hi, lo) as char, rest))
  {
    var tail := "\\u" + Hex4(lo) + rest;
    assert tail[2..] == Hex4(lo) + rest;
    ParseHex4Inverts(lo, rest);
    ReadUnicodeHigh(hi, lo, tail, rest);
  }

  /** `n / 4096`, `n % 4096 / 256`, ... are the four hex digits of `n`. */
  lemma HexSplit(n: nat)
    requires n < 0x10000
    ensures var m := n % 4096; var m2 := m % 256;
      && n / 4096 < 16 && m / 256 < 16
      && n == (n / 4096) * 4096 + (m / 256) * 256 + (m2 / 16) * 16 + m2 % 16
  {
    var m := n % 4096;
    var m2 := m % 256;
    assert n == (n / 4096) * 4096 + m;
    assert m == (m / 256) * 256 + m2;
    assert m2 == (m2 / 16) * 16 + m2 % 16;
  }

  lemma ReadUnicodeEscape(t: string)
    ensures ReadChar("\\u" + t) == ReadUnicode(t)
  {
    var s := "\\u" + t;
    assert s[0] == '\\' && s[1..][0] == 'u' && s[1..][1..] == t;
  }

  lemma ReadPairEscape(hi: nat, lo: nat, rest: string)
    requires 0xD800 <= hi < 0xDC00 && 0xDC00 <= lo < 0xE000
    ensures ReadChar("\\u" + Hex4(hi) + "\\u" + Hex4(lo) + rest)
         == Some((Combine(hi, lo) as char, rest))
  {
    var tail := "\\u" + Hex4(lo) + rest;
    assert "\\u" + Hex4(hi) + "\\u" + Hex4(lo) + rest == "\\u" + (Hex4(hi) + tail);
    ReadUnicodeEscape(Hex4(hi) + tail);
    ReadUnicodePair(hi, lo, rest);
  }

  /** Reading an escaped character gives the character back and stops right after it. */
  lemma ReadShortEscape(c: char, e: char, rest: string)
    requires ReadEscape([e]) == Some((c, []))
    ensures ReadChar(['\\', e] + rest) == Some((c, rest))
  {
    var s := ['\\', e] + rest;
    assert s[1..] == [e] + rest && s[1..][1..] == rest;
  }

  lemma ReadEscapedChar(c: char, rest: string)
    ensures ReadChar(EscapeChar(c) + rest) == Some((c, rest))
  {
    var code := c as int;
    if c == '"' || c == '\\' || code == 8 || code == 12 || c == '\n' || c == '\r' || c == '\t' {
      ReadShortEscapes(c, rest);
    } else if 0x20 <= code <= 0x7E {
      ReadPrintable(c, rest);
    } else if code < 0x10000 {
      ReadBmpEscape(c, rest);
    } else {
      ReadAstralEscape(c, rest);
    }
  }

  lemma ReadPrintable(c: char, rest: string)
    requires 0x20 <= c as int <= 0x7E && c != '"' && c != '\\'
    ensures ReadChar(EscapeChar(c) + rest) == Some((c, rest))
  {
    assert EscapeChar(c) == [c];
    assert ([c] + rest)[1..] == rest;
  }

  lemma ReadUnicodeSingle(n: nat, rest: string)
    requires n < 0xD800 || 0xE000 <= n < 0x10000
    ensures ReadUnicode(Hex4(n) + rest) == Some((n as char, rest))
  {
    ParseHex4Inverts(n, rest);
  }

  lemma ReadBmpEscape(c: char, rest: string)
    requires (c as int < 0x20 || 0x7E < c as int < 0x10000)
    requires c != '\n' && c != '\r' && c != '\t' && c as int != 8 && c as int != 12
    ensures ReadChar(EscapeChar(c) + rest) == Some((c, rest))
  {
    assert EscapeChar(c) + rest == "\\u" + (Hex4(c as int) + rest);
    ReadUnicodeEscape(Hex4(c as int) + rest);
    ReadUnicodeSingle(c as int, rest);
  }

  lemma ReadAstralEscape(c: char, rest: string)
    requires c as int >= 0x10000
    ensures ReadChar(EscapeChar(c) + rest) == Some((c, rest))
  {
    assert EscapeChar(c) == "\\u" + Hex4(HighSurrogate(c)) + "\\u" + Hex4(LowSurrogate(c));
    ReadPairEscape(HighSurrogate(c), LowSurrogate(c), rest);
    CombineSplits(c);
  }

  lemma ReadShortEscapes(c: char, rest: string)
    requires c == '"' || c == '\\' || c as int == 8 || c as int == 12 || c == '\n' || c == '\r' || c == '\t'
    ensures ReadChar(EscapeChar(c) + rest) == Some((c, rest))
  {
    var e := if c == '"' then '"' else if c == '\\' then '\\' else if c as int == 8 then 'b'
      else if c as int == 12 then 'f' else if c == '\n' then 'n' else if c == '\r' then 'r' else 't';
    assert EscapeChar(c) == ['\\', e];
    ReadShortEscape(c, e, rest);
  }

  /** A character other than the closing quote, then the rest of the body. */
  lemma ReadBodyStep(e: string, c: char, tail: string)
    requires |e| >= 1 && e[0] != '"' && ReadChar(e + tail) == Some((c, tail))
    ensures ReadBody(e + tail) ==
      match ReadBody(tail)
      case None => None
      case Some((u, after)) => Some(([c] + u, after))
  {
    assert (e + tail)[0] == e[0];
  }

  lemma {:induction false} ReadBodyEscaped(t: string, rest: string)
    ensures ReadBody(Escape(t) + "\"" + rest) == Some((t, rest))
    decreases |t|
  {
    if t == [] {
      assert Escape(t) + "\"" + rest == "\"" + rest;
    } else {
      var tail := Escape(t[1..]) + "\"" + rest;
      assert Escape(t) + "\"" + rest == EscapeChar(t[0]) + tail;
      ReadEscapedChar(t[0], tail);
      ReadBodyStep(EscapeChar(t[0]), t[0], tail);
      ReadBodyEscaped(t[1..], rest);
      assert [t[0]] + t[1..] == t;
    }
  }

  /** A string literal reads back as the string it encodes. */
  lemma ReadQuotedInverts(t: string, rest: string)
    ensures ReadQuoted(Quoted(t) + rest) == Some((t, rest))
  {
    assert (Quoted(t) + rest)[1..] == Escape(t) + "\"" + rest;
    ReadBodyEscaped(t, rest);
  }

  // ---- the record's text ----

  /** The items of a list after the first, each preceded by `", "`. */
  function MoreItems(fs: seq<string>): string
    decreases |fs|
  {
    if fs == [] then "" else ", " + Quoted(fs[0]) + MoreItems(fs[1..])
  }

  /** `json.dumps` of a list of strings. */
  function ListText(fs: seq<string>): string {
    if fs == [] then "[]" else "[" + Quoted(fs[0]) + MoreItems(fs[1..]) + "]"
  }

  const MeaningPrefix: string := "{\"meaning\": "
  const FactsPrefix: string := ", \"facts\": "

  /** `json.dumps({"meaning": x.meaning, "facts": x.facts})`. */
  function Encode(x: SongXray): (s: string)
    ensures |s| > |MeaningPrefix| && s[..|MeaningPrefix|] == MeaningPrefix && s[|s| - 1] == '}'
  {
    var s := MeaningPrefix + Quoted(x.meaning) + FactsPrefix + ListText(x.facts) + "}";
    assert s == MeaningPrefix + (Quoted(x.meaning) + FactsPrefix + ListText(x.facts) + "}");
    s
  }

  /** The items after the first, up to and past the closing bracket. */
  function ReadMore(s: string): (r: Option<(seq<string>, string)>)
    ensures r.Some? ==> |r.value.1| < |s|
    decreases |s|
  {
    if |s| >= 1 && s[0] == ']' then Some(([], s[1..]))
    else if |s| >= 2 && s[..2] == ", " then ReadItems(s[2..])
    else None
  }

  /** An item and the items after it, up to and past the closing bracket. */
  function ReadItems(s: string): (r: Option<(seq<string>, string)>)
    ensures r.Some? ==> |r.value.1| < |s|
    decreases |s|
  {
    match ReadQuoted(s)
    case None => None
    case Some((f, rest)) =>
      match ReadMore(rest)
      case None => None
      case Some((fs, after)) => Some(([f] + fs, after))
  }

  /** A list of strings, from its opening bracket to past its closing one. */
  function ReadList(s: string): (r: Option<(seq<string>, string)>) {
    if |s| < 2 || s[0] != '[' then None
    else if s[1] == ']' then Some(([], s[2..]))
    else ReadItems(s[1..])
  }

  /** The facts list and the closing brace that end a cached text. */
  function ReadFacts(s: string): Option<seq<string>> {
    if |s| < |FactsPrefix| || s[..|FactsPrefix|] != FactsPrefix then None
    else
      match ReadList(s[|FactsPrefix|..])
      case None => None
      case Some((facts, after)) => if after == "}" then Some(facts) else None
  }

  /** `json.loads` of a cached text, for texts in the layout `Encode` writes; any other
      text is refused. */
  function Decode(t: string): (r: Option<SongXray>)
    ensures r.Some? ==> |t| >= |MeaningPrefix| && t[..|MeaningPrefix|] == MeaningPrefix
  {
    if |t| < |MeaningPrefix| || t[..|MeaningPrefix|] != MeaningPrefix then None
    else ReadFields(t[|MeaningPrefix|..])
  }

  /** The meaning, the facts and the closing brace after `{"meaning": `. */
  function ReadFields(s: string): Option<SongXray> {
    match ReadQuoted(s)
    case None => None
    case Some((meaning, rest)) =>
      match ReadFacts(rest)
      case None => None
      case Some(facts) => Some(SongXray(meaning, facts))
  }

  lemma {:induction false} ReadMoreInverts(fs: seq<string>, rest: string)
    ensures ReadMore(MoreItems(fs) + "]" + rest) == Some((fs, rest))
    decreases |fs|
  {
    var s := MoreItems(fs) + "]" + rest;
    if fs == [] {
      assert s == "]" + rest;
    } else {
      var tail := MoreItems(fs[1..]) + "]" + rest;
      assert s == ", " + (Quoted(fs[0]) + tail);
      assert s[..2] == ", " && s[2..] == Quoted(fs[0]) + tail;
      ReadQuotedInverts(fs[0], tail);
      ReadMoreInverts(fs[1..], rest);
      assert [fs[0]] + fs[1..] == fs;
    }
  }

  lemma ReadItemsInverts(f: string, fs: seq<string>, rest: string)
    ensures ReadItems(Quoted(f) + (MoreItems(fs) + "]" + rest)) == Some(([f] + fs, rest))
  {
    ReadQuotedInverts(f, MoreItems(fs) + "]" + rest);
    ReadMoreInverts(fs, rest);
  }

  /** Regrouping a concatenation of five texts. */
  lemma Regroup(a: string, b: string, c: string, d: string, e: string)
    ensures a + b + c + d + e == a + (b + (c + d + e))
  {
  }

  lemma ListTextLayout(fs: seq<string>, rest: string)
    requires fs != []
    ensures ListText(fs) + rest == "[" + (Quoted(fs[0]) + (MoreItems(fs[1..]) + "]" + rest))
  {
    Regroup("[", Quoted(fs[0]), MoreItems(fs[1..]), "]", rest);
  }

  lemma ReadListOpen(body: string)
    requires |body| >= 1 && body[0] != ']'
    ensures ReadList("[" + body) == ReadItems(body)
  {
    assert ("[" + body)[1..] == body;
  }

  lemma ReadListInverts(fs: seq<string>, rest: string)
    ensures ReadList(ListText(fs) + rest) == Some((fs, rest))
  {
    if fs == [] {
      var s := ListText(fs) + rest;
      assert s[2..] == rest;
    } else {
      var body := Quoted(fs[0]) + (MoreItems(fs[1..]) + "]" + rest);
      ListTextLayout(fs, rest);
      assert body[0] == '"';
      ReadListOpen(body);
      ReadItemsInverts(fs[0], fs[1..], rest);
      assert [fs[0]] + fs[1..] == fs;
    }
  }

  lemma ReadFactsInverts(fs: seq<string>)
    ensures ReadFacts(FactsPrefix + ListText(fs) + "}") == Some(fs)
  {
    var s := FactsPrefix + ListText(fs) + "}";
    assert s[..|FactsPrefix|] == FactsPrefix;
    assert s[|FactsPrefix|..] == ListText(fs) + "}";
    ReadListInverts(fs, "}");
  }

  lemma PrefixedDecode(body: string)
    ensures Decode(MeaningPrefix + body) == ReadFields(body)
  {
    var t := MeaningPrefix + body;
    assert t[..|MeaningPrefix|] == MeaningPrefix && t[|MeaningPrefix|..] == body;
  }

  lemma ReadFieldsInverts(x: SongXray)
    ensures ReadFields(Quoted(x.meaning) + (FactsPrefix + ListText(x.facts) + "}")) == Some(x)
  {
    ReadQuotedInverts(x.meaning, FactsPrefix + ListText(x.facts) + "}");
    ReadFactsInverts(x.facts);
  }

  lemma EncodeLayout(x: SongXray)
    ensures Encode(x) == MeaningPrefix + (Quoted(x.meaning) + (FactsPrefix + ListText(x.facts) + "}"))
  {
    Regroup(MeaningPrefix, Quoted(x.meaning), FactsPrefix, ListText(x.facts), "}");
  }

  /** The cached text of a record decodes to that record. */
  lemma DecodeEncode(x: SongXray)
    ensures Decode(Encode(x)) == Some(x)
  {
    EncodeLayout(x);
    PrefixedDecode(Quoted(x.meaning) + (FactsPrefix + ListText(x.facts) + "}"));
    ReadFieldsInverts(x);
  }

  /** Distinct records are cached as distinct texts. */
  lemma EncodeInjective(x: SongXray, y: SongXray)
    requires Encode(x) == Encode(y)
    ensures x == y
  {
    DecodeEncode(x);
    DecodeEncode(y);
  }
}
