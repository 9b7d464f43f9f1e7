/** The Go reader of the same event streams, pulled one event at a time. */
module SseReader {
  import opened Prelude
  import opened Sse

  datatype Outcome = Got(event: Event) | EndOfFile | UnexpectedEnd

  /** The lines a line scanner yields: an unterminated last line counts too. */
  function ScanLines(text: string): seq<string> {
    Lines(text) + if Tail(text) == "" then [] else [DropCR(Tail(text))]
  }

  /** What the next pull returns, and the lines it leaves. */
  function NextOf(st: State, lines: seq<string>): (Outcome, seq<string>)
    decreases |lines|
  {
    if lines == [] then (if st.seen then UnexpectedEnd else EndOfFile, [])
    else if Yield(st, lines[0]) != [] then (Got(Yield(st, lines[0])[0]), lines[1..])
    else NextOf(Feed(st, lines[0]), lines[1..])
  }

  /** The events of repeated pulls, up to the end or the first error. */
  function PullAll(lines: seq<string>): seq<Event>
    decreases |lines|
  {
    NextShrinks(START, lines);
    match NextOf(START, lines)
    case (Got(e), rest) => [e] + PullAll(rest)
    case _ => []
  }

  function LastOutcome(lines: seq<string>): Outcome
    decreases |lines|
  {
    NextShrinks(START, lines);
    match NextOf(START, lines)
    case (Got(e), rest) => LastOutcome(rest)
    case (end, _) => end
  }

  class Reader {
    var lines: seq<string>

    constructor (text: string)
      ensures lines == ScanLines(text)
    {
      lines := ScanLines(text);
    }

    method Next() returns (outcome: Outcome)
      modifies this
      ensures (outcome, lines) == NextOf(START, old(lines))
    {
      var name, data, id, seen := "", [], None, false;
      while lines != []
        invariant NextOf(State(name, data, id, seen), lines) == NextOf(START, old(lines))
        invariant seen || State(name, data, id, seen) == START
        decreases |lines|
      {
        var line := lines[0];
        lines := lines[1..];
        if line == "" {
          if seen {
            return Got(Event(if name == "" then "message" else name, Join(data), id));
          }
        } else if line[0] != ':' {
          var field, value := FieldOf(line), ValueOf(line);
          if field == "event" { name, seen := value, true; }
          else if field == "data" { data, seen := data + [value], true; }
          else if field == "id" { id, seen := Some(value), true; }
        }
      }
      return if seen then UnexpectedEnd else EndOfFile;
    }
  }

  lemma {:induction false} NextShrinks(st: State, lines: seq<string>)
    ensures NextOf(st, lines).0.Got? ==> |NextOf(st, lines).1| < |lines|
    decreases |lines|
  {
    if lines != [] && Yield(st, lines[0]) == [] { NextShrinks(Feed(st, lines[0]), lines[1..]); }
  }

  /** Pulling events one by one gives the same list as interpreting all lines,
    * and ends badly exactly when an event was left unfinished. */
  lemma {:induction false} PullsAreYields(st: State, lines: seq<string>)
    ensures var (outcome, rest) := NextOf(st, lines);
      if outcome.Got? then YieldAll(st, lines) == [outcome.event] + YieldAll(START, rest) && FeedAll(st, lines) == FeedAll(START, rest)
      else YieldAll(st, lines) == [] && (outcome == UnexpectedEnd <==> FeedAll(st, lines).seen)
    decreases |lines|
  {
    if lines != [] && Yield(st, lines[0]) == [] { PullsAreYields(Feed(st, lines[0]), lines[1..]); }
  }

  lemma {:induction false} PullAllIsYieldAll(lines: seq<string>)
    ensures PullAll(lines) == YieldAll(START, lines)
    ensures LastOutcome(lines) == if FeedAll(START, lines).seen then UnexpectedEnd else EndOfFile
    decreases |lines|
  {
    PullsAreYields(START, lines);
    NextShrinks(START, lines);
    if NextOf(START, lines).0.Got? { PullAllIsYieldAll(NextOf(START, lines).1); }
  }

  /** The Go reader reads back what the writer wrote, and ends cleanly. */
  lemma ReaderRoundTrip(items: seq<Item>)
    requires forall i :: 0 <= i < |items| ==> Faithful(items[i])
    ensures PullAll(ScanLines(RenderAll(items))) == EventsOf(items) == Parse(RenderAll(items))
    ensures LastOutcome(ScanLines(RenderAll(items))) == EndOfFile
  {
    WrittenLines(items);
    var lines := Lines(RenderAll(items));
    assert ScanLines(RenderAll(items)) == lines;
    PullAllIsYieldAll(lines);
  }

  /** On every text the two parsers agree, but for a text that ends in a bare
    * carriage return after an unfinished event: the scanner takes that for the
    * blank line, the browser's parser waits for the newline. */
  lemma ParsersAgreeIff(text: string)
    ensures PullAll(ScanLines(text)) == Parse(text) <==> !(Tail(text) == "\r" && FeedAll(START, Lines(text)).seen)
  {
    PullAllIsYieldAll(ScanLines(text));
    var st := FeedAll(START, Lines(text));
    if Tail(text) == "" {
      assert ScanLines(text) == Lines(text);
    } else {
      var last := DropCR(Tail(text));
      FeedConcat(START, Lines(text), [last]);
      FeedOne(st, last, []);
      assert [last] + [] == [last];
      assert last == "" <==> Tail(text) == "\r";
    }
  }
}
