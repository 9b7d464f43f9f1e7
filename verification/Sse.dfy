/** text/event-stream: one writer and two parsers of the same format (WHATWG HTML
  * Living Standard, sections 9.2.5 and 9.2.6, as far as the platform uses it).
  * Text is already decoded.
  */
module Sse {
  import opened Prelude

  /** A parsed event; `id` is None when it carried none. */
  datatype Event = Event(name: string, data: string, id: Option<string>)

  /** What a writer can put on the stream. */
  datatype Item = Send(id: Option<string>, name: string, data: string) | Ping(text: string)

  // ---- Writing ----

  predicate HasNewline(s: string) { '\n' in s || '\r' in s }

  /** One line, its newline, and what follows. */
  function Put(line: string, rest: string): string { line + "\n" + rest }

  /** A field line; a comment is a line with an empty field name. */
  function Field(name: string, value: string): string { name + ": " + value }

  /** The format strings of the writer, line by line, with the blank line. */
  function Render(item: Item): string {
    match item
    case Send(None, name, data) => Put(Field("event", name), Put(Field("data", data), Put("", "")))
    case Send(Some(id), name, data) => Put(Field("id", id), Put(Field("event", name), Put(Field("data", data), Put("", ""))))
    case Ping(text) => Put(Field("", text), Put("", ""))
  }

  /** What the writer accepts: names, ids and comments without newlines. */
  predicate Writable(item: Item) {
    match item
    case Send(id, name, _) => !HasNewline(name) && (id.Some? ==> !HasNewline(id.value))
    case Ping(text) => !HasNewline(text)
  }

  function RenderAll(items: seq<Item>): string {
    if items == [] then "" else RenderAll(items[..|items| - 1]) + Render(items[|items| - 1])
  }

  class Writer {
    var out: string

    constructor ()
      ensures out == ""
    {
      out := "";
    }

    method SendRaw(name: string, data: string) returns (ok: bool)
      modifies this
      ensures ok <==> Writable(Send(None, name, data))
      ensures out == old(out) + if ok then Render(Send(None, name, data)) else ""
    {
      if HasNewline(name) { return false; }
      out := out + Put(Field("event", name), Put(Field("data", data), Put("", "")));
      return true;
    }

    method SendWithID(id: string, name: string, data: string) returns (ok: bool)
      modifies this
      ensures ok <==> Writable(Send(Some(id), name, data))
      ensures out == old(out) + if ok then Render(Send(Some(id), name, data)) else ""
    {
      if HasNewline(id) { return false; }
      if HasNewline(name) { return false; }
      out := out + Put(Field("id", id), Put(Field("event", name), Put(Field("data", data), Put("", ""))));
      return true;
    }

    method Comment(text: string) returns (ok: bool)
      modifies this
      ensures ok <==> Writable(Ping(text))
      ensures out == old(out) + if ok then Render(Ping(text)) else ""
    {
      if HasNewline(text) { return false; }
      out := out + Put(Field("", text), Put("", ""));
      return true;
    }
  }

  // ---- Lines ----

  function IndexOf(s: string, c: char): (i: nat)
    ensures i <= |s| && (i < |s| ==> s[i] == c) && c !in s[..i]
  {
    if s == "" || s[0] == c then 0
    else
      var i := IndexOf(s[1..], c);
      assert s[..1 + i] == [s[0]] + s[1..][..i];
      1 + i
  }

  function DropCR(line: string): string {
    if line != "" && line[|line| - 1] == '\r' then line[..|line| - 1] else line
  }

  /** The terminated lines of a text, and what follows the last newline. */
  function Lines(text: string): seq<string>
    decreases |text|
  {
    var n := IndexOf(text, '\n');
    if n == |text| then [] else [DropCR(text[..n])] + Lines(text[n + 1..])
  }

  function Tail(text: string): string
    decreases |text|
  {
    var n := IndexOf(text, '\n');
    if n == |text| then text else Tail(text[n + 1..])
  }

  // ---- Interpreting lines ----

  datatype State = State(name: string, data: seq<string>, id: Option<string>, seen: bool)

  const START := State("", [], None, false)

  function Join(parts: seq<string>): string {
    if parts == [] then "" else if |parts| == 1 then parts[0] else Join(parts[..|parts| - 1]) + "\n" + parts[|parts| - 1]
  }

  function Dispatch(st: State): Event { Event(if st.name == "" then "message" else st.name, Join(st.data), st.id) }

  function FieldOf(line: string): string { line[..IndexOf(line, ':')] }

  function ValueOf(line: string): string {
    var n := IndexOf(line, ':');
    var value := if n == |line| then "" else line[n + 1..];
    if value != "" && value[0] == ' ' then value[1..] else value
  }

  function Feed(st: State, line: string): State {
    if line == "" then START
    else if line[0] == ':' then st
    else if FieldOf(line) == "event" then st.(name := ValueOf(line), seen := true)
    else if FieldOf(line) == "data" then st.(data := st.data + [ValueOf(line)], seen := true)
    else if FieldOf(line) == "id" then st.(id := Some(ValueOf(line)), seen := true)
    else st
  }

  function Yield(st: State, line: string): seq<Event> { if line == "" && st.seen then [Dispatch(st)] else [] }

  function FeedAll(st: State, lines: seq<string>): State
    decreases |lines|
  {
    if lines == [] then st else FeedAll(Feed(st, lines[0]), lines[1..])
  }

  function YieldAll(st: State, lines: seq<string>): seq<Event>
    decreases |lines|
  {
    if lines == [] then [] else Yield(st, lines[0]) + YieldAll(Feed(st, lines[0]), lines[1..])
  }

  /** The events of a text: of its terminated lines only. */
  function Parse(text: string): seq<Event> { YieldAll(START, Lines(text)) }

  // ---- The browser's incremental parser ----

  class StreamParser {
    var buffer: string
    var event: string
    var data: seq<string>
    var id: Option<string>
    var seen: bool
    /** Everything received so far. */
    ghost var text: string

    ghost function Pending(): State reads this { State(event, data, id, seen) }

    ghost predicate Valid()
      reads this
    {
      buffer == Tail(text) && Pending() == FeedAll(START, Lines(text))
    }

    constructor ()
      ensures Valid() && text == ""
    {
      buffer, event, data, id, seen, text := "", "", [], None, false, "";
    }

    method Line(line: string) returns (events: seq<Event>)
      modifies `event, `data, `id, `seen
      ensures Pending() == Feed(old(Pending()), line) && events == Yield(old(Pending()), line)
    {
      events := [];
      if line == "" {
        if seen { events := [Event(if event == "" then "message" else event, Join(data), id)]; }
        event, data, id, seen := "", [], None, false;
      } else if line[0] != ':' {
        var field, value := FieldOf(line), ValueOf(line);
        if field == "event" { event, seen := value, true; }
        else if field == "data" { data, seen := data + [value], true; }
        else if field == "id" { id, seen := Some(value), true; }
      }
    }

    /** Takes the terminated lines off the buffer. */
    method Drain() returns (events: seq<Event>)
      modifies `buffer, `event, `data, `id, `seen
      ensures buffer == Tail(old(buffer))
      ensures Pending() == FeedAll(old(Pending()), Lines(old(buffer)))
      ensures events == YieldAll(old(Pending()), Lines(old(buffer)))
    {
      events := [];
      var newline := IndexOf(buffer, '\n');
      while newline < |buffer|
        invariant newline == IndexOf(buffer, '\n') && Tail(buffer) == Tail(old(buffer))
        invariant YieldAll(old(Pending()), Lines(old(buffer))) == events + YieldAll(Pending(), Lines(buffer))
        invariant FeedAll(old(Pending()), Lines(old(buffer))) == FeedAll(Pending(), Lines(buffer))
        decreases |buffer|
      {
        ghost var rest := Lines(buffer);
        var line := DropCR(buffer[..newline]);
        buffer := buffer[newline + 1..];
        newline := IndexOf(buffer, '\n');
        assert rest == [line] + Lines(buffer);
        var out := Line(line);
        events := events + out;
      }
    }

    /** One decoded chunk; returns the events it completes. */
    method Chunk(chunk: string) returns (events: seq<Event>)
      requires Valid()
      modifies this
      ensures Valid() && text == old(text) + chunk && Parse(text) == Parse(old(text)) + events
    {
      LinesConcat(text, chunk);
      FeedConcat(START, Lines(text), Lines(buffer + chunk));
      text := text + chunk;
      buffer := buffer + chunk;
      events := Drain();
    }
  }

  lemma FirstLine(text: string, n: nat)
    requires n == IndexOf(text, '\n') < |text|
    ensures Lines(text) == [DropCR(text[..n])] + Lines(text[n + 1..]) && Tail(text) == Tail(text[n + 1..])
  {
  }

  lemma FirstLineOf(a: string, b: string, n: nat)
    requires n == IndexOf(a, '\n') < |a|
    ensures Lines(a + b) == [DropCR(a[..n])] + Lines(a[n + 1..] + b) && Tail(a + b) == Tail(a[n + 1..] + b)
  {
    IndexInFront(a, b, '\n');
    assert (a + b)[..n] == a[..n] && (a + b)[n + 1..] == a[n + 1..] + b;
    FirstLine(a + b, n);
  }

  lemma NoLine(a: string, b: string)
    requires IndexOf(a, '\n') == |a|
    ensures Lines(a) == [] && Tail(a) == a && Lines(a + b) == Lines(a) + Lines(Tail(a) + b)
  {
    assert [] + Lines(a + b) == Lines(a + b);
  }

  /** Taking one line off the front of a text. */
  lemma OneLine(a: string, b: string, n: nat, later: seq<string>)
    requires n == IndexOf(a, '\n') < |a| && Lines(a[n + 1..] + b) == Lines(a[n + 1..]) + later
    ensures Lines(a + b) == Lines(a) + later
  {
    FirstLine(a, n);
    FirstLineOf(a, b, n);
    assert [DropCR(a[..n])] + (Lines(a[n + 1..]) + later) == ([DropCR(a[..n])] + Lines(a[n + 1..])) + later;
  }

  lemma {:induction false} LinesConcat(a: string, b: string)
    ensures Lines(a + b) == Lines(a) + Lines(Tail(a) + b) && Tail(a + b) == Tail(Tail(a) + b)
    decreases |a|
  {
    var n := IndexOf(a, '\n');
    if n == |a| {
      NoLine(a, b);
    } else {
      LinesConcat(a[n + 1..], b);
      OneLine(a, b, n, Lines(Tail(a[n + 1..]) + b));
      FirstLine(a, n);
      FirstLineOf(a, b, n);
    }
  }

  lemma {:induction false} IndexInFront(a: string, b: string, c: char)
    ensures c in a ==> IndexOf(a + b, c) == IndexOf(a, c)
  {
    if a != "" && a[0] != c {
      assert (a + b)[1..] == a[1..] + b;
      IndexInFront(a[1..], b, c);
    }
  }

  lemma {:induction false} FeedConcat(st: State, a: seq<string>, b: seq<string>)
    ensures FeedAll(st, a + b) == FeedAll(FeedAll(st, a), b)
    ensures YieldAll(st, a + b) == YieldAll(st, a) + YieldAll(FeedAll(st, a), b)
    decreases |a|
  {
    if a == [] {
      assert a + b == b;
    } else {
      assert (a + b)[1..] == a[1..] + b;
      FeedConcat(Feed(st, a[0]), a[1..], b);
    }
  }

  // ---- Any chunking gives the same events ----

  function Concat(chunks: seq<string>): string {
    if chunks == [] then "" else Concat(chunks[..|chunks| - 1]) + chunks[|chunks| - 1]
  }

  /** parseSSE over a body that arrives in any chunks. What an unterminated end
    * would have become is dropped. */
  method ParseChunks(chunks: seq<string>) returns (events: seq<Event>)
    ensures events == Parse(Concat(chunks))
  {
    var parser := new StreamParser();
    events := [];
    var i := 0;
    assert chunks[..0] == [];
    while i < |chunks|
      invariant 0 <= i <= |chunks| && parser.Valid() && fresh(parser)
      invariant parser.text == Concat(chunks[..i]) && events == Parse(parser.text)
    {
      assert chunks[..i + 1][..i] == chunks[..i];
      var out := parser.Chunk(chunks[i]);
      events := events + out;
      i := i + 1;
    }
    assert chunks[..|chunks|] == chunks;
  }

  /** Cutting a stream anywhere yields a prefix of its events: never a different
    * event, never one whose end had not arrived. */
  lemma CutIsPrefix(a: string, b: string)
    ensures Parse(a) <= Parse(a + b)
  {
    LinesConcat(a, b);
    FeedConcat(START, Lines(a), Lines(Tail(a) + b));
  }

  // ---- Round trip ----

  /** The fields a round trip needs: besides what the writer checks, data without
    * newline characters and without a carriage return at its end. */
  predicate Faithful(item: Item) {
    Writable(item) && (item.Send? ==> '\n' !in item.data && DropCR(item.data) == item.data)
  }

  function EventOf(item: Item): seq<Event> {
    if item.Ping? then [] else [Event(if item.name == "" then "message" else item.name, item.data, item.id)]
  }

  function EventsOf(items: seq<Item>): seq<Event> {
    if items == [] then [] else EventsOf(items[..|items| - 1]) + EventOf(items[|items| - 1])
  }

  /** One written line, and the parse of what follows it. */
  lemma LineFirst(line: string, rest: string)
    requires '\n' !in line && DropCR(line) == line
    ensures Lines(Put(line, rest)) == [line] + Lines(rest) && Tail(Put(line, rest)) == Tail(rest)
  {
    var text := Put(line, rest);
    IndexAfter(line, rest, '\n');
    assert text[..|line|] == line && text[|line| + 1..] == rest;
  }

  lemma {:induction false} IndexAfter(a: string, b: string, c: char)
    requires c !in a
    ensures IndexOf(a + [c] + b, c) == |a|
  {
    if a != "" {
      assert (a + [c] + b)[1..] == a[1..] + [c] + b;
      IndexAfter(a[1..], b, c);
    }
  }

  lemma PutAppend(line: string, a: string, b: string)
    ensures Put(line, a) + b == Put(line, a + b)
  {}

  /** A field line survives line splitting and gives back its name and value. */
  lemma FieldLine(name: string, value: string)
    requires name in {"", "id", "event", "data"} && '\n' !in value && DropCR(value) == value
    ensures '\n' !in Field(name, value) && DropCR(Field(name, value)) == Field(name, value)
    ensures Field(name, value) != "" && FieldOf(Field(name, value)) == name && ValueOf(Field(name, value)) == value
  {
    assert ':' !in name && '\n' !in name;
    IndexAfter(name, " " + value, ':');
    assert Field(name, value) == name + [':'] + (" " + value);
  }

  /** The lines an item is written as. */
  function LinesOf(item: Item): seq<string> {
    match item
    case Ping(text) => [Field("", text)] + [""]
    case Send(None, name, data) => [Field("event", name)] + ([Field("data", data)] + [""])
    case Send(Some(id), name, data) => [Field("id", id)] + ([Field("event", name)] + ([Field("data", data)] + [""]))
  }

  /** Putting a field line in front of a text whose lines are known. */
  lemma PutField(name: string, value: string, a: string, lines: seq<string>, rest: string)
    requires name in {"", "id", "event", "data"} && '\n' !in value && DropCR(value) == value
    requires Lines(a + rest) == lines + Lines(rest) && Tail(a + rest) == Tail(rest)
    ensures Lines(Put(Field(name, value), a) + rest) == [Field(name, value)] + lines + Lines(rest)
    ensures Tail(Put(Field(name, value), a) + rest) == Tail(rest)
  {
    FieldLine(name, value);
    LineFirst(Field(name, value), a + rest);
    PutAppend(Field(name, value), a, rest);
  }

  lemma RenderedLines(item: Item, rest: string)
    requires Faithful(item)
    ensures Lines(Render(item) + rest) == LinesOf(item) + Lines(rest)
    ensures Tail(Render(item) + rest) == Tail(rest)
  {
    var blank := Put("", "");
    PutAppend("", "", rest);
    LineFirst("", rest);
    assert "" + rest == rest;
    match item
    case Ping(text) => PutField("", text, blank, [""], rest);
    case Send(id, name, data) =>
      PutField("data", data, blank, [""], rest);
      var d := Put(Field("data", data), blank);
      PutField("event", name, d, [Field("data", data)] + [""], rest);
      if id.Some? {
        PutField("id", id.value, Put(Field("event", name), d), [Field("event", name)] + ([Field("data", data)] + [""]), rest);
      }
  }

  lemma FeedOne(st: State, line: string, rest: seq<string>)
    ensures FeedAll(st, [line] + rest) == FeedAll(Feed(st, line), rest)
    ensures YieldAll(st, [line] + rest) == Yield(st, line) + YieldAll(Feed(st, line), rest)
  {
    assert ([line] + rest)[1..] == rest;
  }

  lemma Blank(st: State)
    ensures FeedAll(st, [""]) == START && YieldAll(st, [""]) == Yield(st, "")
  {
    FeedOne(st, "", []);
    assert [""] + [] == [""];
  }

  lemma EventParsed(id: Option<string>, name: string, data: string)
    requires Faithful(Send(id, name, data))
    ensures FeedAll(State("", [], id, id.Some?), [Field("event", name)] + ([Field("data", data)] + [""])) == START
    ensures YieldAll(State("", [], id, id.Some?), [Field("event", name)] + ([Field("data", data)] + [""])) == EventOf(Send(id, name, data))
  {
    FieldLine("event", name);
    FieldLine("data", data);
    var st := State("", [], id, id.Some?);
    var st1 := State(name, [], id, true);
    var st2 := State(name, [data], id, true);
    FeedOne(st, Field("event", name), [Field("data", data)] + [""]);
    FeedOne(st1, Field("data", data), [""]);
    assert st1.data + [data] == [data];
    Blank(st2);
  }

  lemma ItemParsed(item: Item)
    requires Faithful(item)
    ensures FeedAll(START, LinesOf(item)) == START && YieldAll(START, LinesOf(item)) == EventOf(item)
  {
    match item
    case Ping(text) =>
      FieldLine("", text);
      FeedOne(START, Field("", text), [""]);
      Blank(START);
    case Send(id, name, data) =>
      EventParsed(id, name, data);
      if id.Some? {
        FieldLine("id", id.value);
        FeedOne(START, Field("id", id.value), [Field("event", name)] + ([Field("data", data)] + [""]));
      }
  }

  /** Whatever the writer wrote is parsed back, item by item. */
  lemma {:induction false} WrittenLines(items: seq<Item>)
    requires forall i :: 0 <= i < |items| ==> Faithful(items[i])
    ensures Tail(RenderAll(items)) == "" && FeedAll(START, Lines(RenderAll(items))) == START
    ensures Parse(RenderAll(items)) == EventsOf(items)
  {
    if items != [] {
      var init, last := items[..|items| - 1], items[|items| - 1];
      WrittenLines(init);
      LinesConcat(RenderAll(init), Render(last));
      assert "" + Render(last) == Render(last) + "" == Render(last);
      RenderedLines(last, "");
      ItemParsed(last);
      assert LinesOf(last) + [] == LinesOf(last);
      FeedConcat(START, Lines(RenderAll(init)), LinesOf(last));
    }
  }
}
