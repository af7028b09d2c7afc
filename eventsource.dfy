/**
  The server-sent-events framing of the `/xray` stream, and a reader for it
  that follows the event-stream interpretation rules of section 9.2.6 of the
  WHATWG HTML Living Standard ("Server-sent events"), restricted to LF line
  ends and to the `event` and `data` fields.
*/
module EventSource {
  import opened PyValues

  predicate NoLineBreak(s: string) {
    '\n' !in s && '\r' !in s
  }

  /** One message the stream yields, before JSON encoding. */
  datatype Event =
    | DataEvent(payload: Json)
    | ErrorEvent(payload: Json)
    | ErrorText(text: string)

  /** The content of the message's data line: the payload's JSON text, or the error text. */
  function DataOf(e: Event, dumps: Json -> string): string {
    match e
    case DataEvent(p) => dumps(p)
    case ErrorEvent(p) => dumps(p)
    case ErrorText(t) => t
  }

  /** The exact text yielded: `data: <json>\n\n`, or `event: error\ndata: <text>\n\n`. */
  function Render(e: Event, dumps: Json -> string): (s: string)
    ensures |s| >= 8 && s[|s| - 2..] == "\n\n"
    ensures e.DataEvent? <==> s[..6] == "data: "
    ensures !e.DataEvent? ==> |s| >= 21 && s[..13] == "event: error\n"
  {
    if e.DataEvent? then
      var s := "data: " + DataOf(e, dumps) + "\n\n";
      assert s == "data: " + (DataOf(e, dumps) + "\n\n");
      s
    else
      var s := "event: error\ndata: " + DataOf(e, dumps) + "\n\n";
      assert s == "event: error\ndata: " + (DataOf(e, dumps) + "\n\n");
      assert s[0] == 'e';
      s
  }

  /** The whole response body: the yielded texts one after the other. */
  function Wire(events: seq<Event>, dumps: Json -> string): string
    decreases |events|
  {
    if events == [] then "" else Wire(events[..|events| - 1], dumps) + Render(events[|events| - 1], dumps)
  }

  // ---- the reader ----

  /** An event as an EventSource client dispatches it. */
  datatype Message = Message(eventType: string, data: string)

  /** What a client receives for one yielded event. */
  function Expected(e: Event, dumps: Json -> string): Message {
    Message(if e.DataEvent? then "message" else "error", DataOf(e, dumps))
  }

  function ExpectedAll(events: seq<Event>, dumps: Json -> string): (ms: seq<Message>)
    ensures |ms| == |events|
    ensures forall i :: 0 <= i < |events| ==> ms[i] == Expected(events[i], dumps)
    decreases |events|
  {
    if events == [] then []
    else ExpectedAll(events[..|events| - 1], dumps) + [Expected(events[|events| - 1], dumps)]
  }

  /** The event type and data buffers of a reader. */
  datatype Buffers = Buffers(eventType: string, data: string)

  /** A reader's state: the current, unfinished line and the buffers. */
  datatype Parser = Parser(line: string, buffers: Buffers)

  const Empty: Buffers := Buffers("", "")
  const Initial: Parser := Parser("", Empty)

  /** The position of the first colon of a line, or its length. */
  function FirstColon(s: string): (k: nat)
    ensures k <= |s|
    ensures forall i :: 0 <= i < k ==> s[i] != ':'
    ensures k < |s| ==> s[k] == ':'
  {
    if s == [] then 0 else if s[0] == ':' then 0 else 1 + FirstColon(s[1..])
  }

  function DropLeadingSpace(v: string): string {
    if |v| > 0 && v[0] == ' ' then v[1..] else v
  }

  /** A field line: `event` sets the type, `data` appends a line to the data; others are ignored. */
  function ProcessField(b: Buffers, field: string, value: string): Buffers {
    if field == "event" then b.(eventType := value)
    else if field == "data" then b.(data := b.data + value + "\n")
    else b
  }

  /** A blank line dispatches the buffered event, unless the data buffer is empty. */
  function Dispatch(b: Buffers): (Buffers, seq<Message>) {
    if b.data == "" then (Empty, [])
    else
      var data := if b.data[|b.data| - 1] == '\n' then b.data[..|b.data| - 1] else b.data;
      (Empty, [Message(if b.eventType == "" then "message" else b.eventType, data)])
  }

  function ProcessLine(b: Buffers, line: string): (Buffers, seq<Message>) {
    if line == [] then Dispatch(b)
    else if line[0] == ':' then (b, [])
    else
      var k := FirstColon(line);
      if k == |line| then (ProcessField(b, line, ""), [])
      else (ProcessField(b, line[..k], DropLeadingSpace(line[k + 1..])), [])
  }

  function Step(p: Parser, c: char): (Parser, seq<Message>) {
    if c == '\n' then
      var done := ProcessLine(p.buffers, p.line);
      (Parser("", done.0), done.1)
    else (p.(line := p.line + [c]), [])
  }

  /** Reads a text from a reader state: the final state and the messages dispatched. */
  function Feed(p: Parser, s: string): (Parser, seq<Message>)
    decreases |s|
  {
    if s == [] then (p, [])
    else
      var first := Step(p, s[0]);
      var rest := Feed(first.0, s[1..]);
      (rest.0, first.1 + rest.1)
  }

  lemma {:induction false} FeedAppend(p: Parser, a: string, b: string)
    ensures Feed(p, a + b) == (Feed(Feed(p, a).0, b).0, Feed(p, a).1 + Feed(Feed(p, a).0, b).1)
    decreases |a|
  {
    if a == [] {
      assert a + b == b;
      assert Feed(p, a) == (p, []);
      assert [] + Feed(p, b).1 == Feed(p, b).1;
    } else {
      var first := Step(p, a[0]);
      var mid := Feed(first.0, a[1..]);
      var last := Feed(mid.0, b);
      assert (a + b)[0] == a[0] && (a + b)[1..] == a[1..] + b;
      FeedAppend(first.0, a[1..], b);
      assert Feed(p, a + b) == (last.0, first.1 + (mid.1 + last.1));
      Append3(first.1, mid.1, last.1);
    }
  }

  /** Characters other than LF only extend the current line. */
  lemma {:induction false} FeedWithinLine(p: Parser, s: string)
    requires '\n' !in s
    ensures Feed(p, s) == (p.(line := p.line + s), [])
    decreases |s|
  {
    var nothing: seq<Message> := [];
    if s == [] {
      assert p.line + s == p.line;
    } else {
      var q := p.(line := p.line + [s[0]]);
      assert s[0] in s;
      assert Step(p, s[0]) == (q, nothing);
      assert '\n' !in s[1..] by {
        forall i | 0 <= i < |s[1..]| ensures s[1..][i] != '\n' { assert s[1..][i] == s[i + 1]; }
      }
      FeedWithinLine(q, s[1..]);
      assert q.line + s[1..] == p.line + s;
      assert Feed(p, s) == (Feed(q, s[1..]).0, [] + Feed(q, s[1..]).1);
      assert Feed(q, s[1..]).0 == p.(line := p.line + s);
      assert Feed(q, s[1..]).1 == [];
      assert [] + Feed(q, s[1..]).1 == nothing;
      assert Feed(p, s) == (p.(line := p.line + s), nothing);
    }
  }

  /** A complete line read from a state with an empty line buffer. */
  lemma FeedLine(b: Buffers, s: string)
    requires '\n' !in s
    ensures Feed(Parser("", b), s + "\n") == (Parser("", ProcessLine(b, s).0), ProcessLine(b, s).1)
  {
    var nothing: seq<Message> := [];
    FeedAppend(Parser("", b), s, "\n");
    FeedWithinLine(Parser("", b), s);
    assert "" + s == s;
    var done := ProcessLine(b, s);
    assert Feed(Parser(s, b), "\n") == (Parser("", done.0), done.1 + nothing);
    assert nothing + (done.1 + nothing) == done.1;
  }

  lemma {:induction false} FirstColonAfter(name: string, rest: string)
    requires ':' !in name
    ensures FirstColon(name + ":" + rest) == |name|
    decreases |name|
  {
    if name == [] {
      assert name + ":" + rest == ":" + rest;
    } else {
      assert name[0] in name;
      assert ':' !in name[1..] by {
        forall i | 0 <= i < |name[1..]| ensures name[1..][i] != ':' { assert name[1..][i] == name[i + 1]; }
      }
      assert (name + ":" + rest)[1..] == name[1..] + ":" + rest;
      FirstColonAfter(name[1..], rest);
    }
  }

  /** A `name: value` line sets the named field to the value. */
  lemma FieldLine(b: Buffers, name: string, value: string)
    requires name != "" && ':' !in name
    ensures ProcessLine(b, name + ": " + value) == (ProcessField(b, name, value), [])
  {
    var line := name + ": " + value;
    assert line == name + ":" + (" " + value);
    FirstColonAfter(name, " " + value);
    assert line[0] == name[0] && name[0] in name;
    assert line[..|name|] == name;
    assert line[|name| + 1..] == " " + value;
  }

  /** After a data line, a blank line dispatches the data with its final LF dropped. */
  lemma BlankAfterData(eventType: string, x: string)
    ensures Feed(Parser("", Buffers(eventType, x + "\n")), "\n")
         == (Initial, [Message(if eventType == "" then "message" else eventType, x)])
  {
    FeedLine(Buffers(eventType, x + "\n"), "");
    assert "" + "\n" == "\n";
    assert (x + "\n")[..|x|] == x;
  }

  lemma NoLineBreakDataLine(x: string)
    requires '\n' !in x
    ensures '\n' !in "data" + ": " + x
  {
    var line := "data" + ": " + x;
    assert forall i :: 6 <= i < |line| ==> line[i] == x[i - 6];
  }

  /** A data line followed by a blank line, from a state with an empty line buffer. */
  lemma DataThenBlank(eventType: string, x: string)
    requires '\n' !in x
    ensures Feed(Parser("", Buffers(eventType, "")), "data: " + x + "\n\n")
         == (Initial, [Message(if eventType == "" then "message" else eventType, x)])
  {
    var p0 := Parser("", Buffers(eventType, ""));
    var dataLine := "data" + ": " + x;
    NoLineBreakDataLine(x);
    assert "data: " + x + "\n\n" == (dataLine + "\n") + "\n";
    FeedAppend(p0, dataLine + "\n", "\n");
    FeedLine(p0.buffers, dataLine);
    FieldLine(p0.buffers, "data", x);
    assert "" + x + "\n" == x + "\n";
    var p1 := Parser("", Buffers(eventType, x + "\n"));
    var nothing: seq<Message> := [];
    assert Feed(p0, dataLine + "\n") == (p1, nothing);
    BlankAfterData(eventType, x);
    assert nothing + Feed(p1, "\n").1 == Feed(p1, "\n").1;
  }

  lemma DataFrame(x: string)
    requires '\n' !in x
    ensures Feed(Initial, "data: " + x + "\n\n") == (Initial, [Message("message", x)])
  {
    DataThenBlank("", x);
  }

  lemma ErrorTypeLine()
    ensures Feed(Initial, "event: error\n") == (Parser("", Buffers("error", "")), [])
  {
    var eventLine := "event" + ": " + "error";
    assert "event: error\n" == eventLine + "\n";
    FeedLine(Empty, eventLine);
    FieldLine(Empty, "event", "error");
  }

  lemma ErrorFrame(x: string)
    requires '\n' !in x
    ensures Feed(Initial, "event: error\ndata: " + x + "\n\n") == (Initial, [Message("error", x)])
  {
    var rest := "data: " + x + "\n\n";
    assert "event: error\ndata: " + x + "\n\n" == "event: error\n" + rest;
    FeedAppend(Initial, "event: error\n", rest);
    ErrorTypeLine();
    DataThenBlank("error", x);
    var nothing: seq<Message> := [];
    assert nothing + [Message("error", x)] == [Message("error", x)];
  }

  /** The text yielded for one event reaches a client as exactly that one event. */
  lemma RenderDispatches(e: Event, dumps: Json -> string)
    requires NoLineBreak(DataOf(e, dumps))
    ensures Feed(Initial, Render(e, dumps)) == (Initial, [Expected(e, dumps)])
  {
    if e.DataEvent? {
      DataFrame(DataOf(e, dumps));
    } else {
      ErrorFrame(DataOf(e, dumps));
    }
  }

  /** A stream of yielded events reaches a client as the same events, one message each, in order. */
  lemma {:induction false} WireDispatches(events: seq<Event>, dumps: Json -> string)
    requires forall i :: 0 <= i < |events| ==> NoLineBreak(DataOf(events[i], dumps))
    ensures Feed(Initial, Wire(events, dumps)) == (Initial, ExpectedAll(events, dumps))
    decreases |events|
  {
    if events != [] {
      var init, last := events[..|events| - 1], events[|events| - 1];
      WireDispatches(init, dumps);
      FeedAppend(Initial, Wire(init, dumps), Render(last, dumps));
      RenderDispatches(last, dumps);
    }
  }
}
