/** What the patch parser accepts, and that it accepts what the printer prints. */
module UnidiffTheorems {
  import opened Prelude
  import opened Unidiff

  // ---- Accepted exactly if the grammar allows it ----

  lemma {:induction false} UnparsedCons(h: Hunk, rest: seq<Hunk>)
    ensures Unparsed([h] + rest) == [h.header] + h.body + Unparsed(rest)
    decreases |rest|
  {
    if rest == [] {
      assert [h] + rest == [h] && [h][..0] == [];
      assert Unparsed([h]) == [] + [h.header] + h.body;
    } else {
      var n := |rest| - 1;
      UnparsedCons(h, rest[..n]);
      assert ([h] + rest)[..n + 1] == [h] + rest[..n];
      assert [h.header] + h.body + (Unparsed(rest[..n]) + [rest[n].header] + rest[n].body)
          == ([h.header] + h.body + Unparsed(rest[..n])) + [rest[n].header] + rest[n].body;
    }
  }

  /** The hunks taken apart put together again. */
  lemma {:induction false} HunksAreTheLines(lines: seq<string>, i: nat)
    requires i <= |lines|
    ensures Unparsed(HunksFrom(lines, i)) == lines[i..]
    decreases |lines| - i
  {
    if i < |lines| {
      var end := NextStart(lines, i + 1);
      HunksAreTheLines(lines, end);
      UnparsedCons(HunkAt(lines, i), HunksFrom(lines, end));
      assert lines[i..] == [lines[i]] + lines[i + 1..end] + lines[end..];
    }
  }

  lemma HunkFound(lines: seq<string>, i: nat, h: Hunk, after: seq<string>)
    requires i <= |lines| && lines[i..] == [h.header] + h.body + after
    requires (forall l :: l in h.body ==> !StartsHunk(l)) && (after != [] ==> StartsHunk(after[0]))
    ensures
      var end := i + 1 + |h.body|;
      end <= |lines| && HunkAt(lines, i) == h && NextStart(lines, i + 1) == end && lines[end..] == after
  {
    SplitAt(lines, i, h.header, h.body, after);
    var end := i + 1 + |h.body|;
    forall k | i + 1 <= k < end ensures !StartsHunk(lines[k]) {
      assert lines[k] == lines[i + 1..end][k - i - 1];
      assert h.body[k - i - 1] in h.body;
    }
    assert end < |lines| ==> lines[end] == lines[end..][0];
    NextStartIs(lines, i + 1, end);
  }

  predicate Shaped(h: Hunk) { StartsHunk(h.header) && forall l :: l in h.body ==> !StartsHunk(l) }
  ghost predicate AllShaped(hunks: seq<Hunk>) { forall h :: h in hunks ==> Shaped(h) }

  lemma ValidIsShaped(hunks: seq<Hunk>)
    requires AllValid(hunks)
    ensures AllShaped(hunks)
  {
    forall h | h in hunks ensures Shaped(h) {
      assert ValidHunk(h);
    }
  }

  lemma FrontHunk(lines: seq<string>, i: nat, h: Hunk, rest: seq<Hunk>)
    requires i <= |lines| && lines[i..] == Unparsed([h] + rest) && Shaped(h) && AllShaped(rest)
    ensures
      var end := i + 1 + |h.body|;
      i < end <= |lines| && HunkAt(lines, i) == h && NextStart(lines, i + 1) == end && lines[end..] == Unparsed(rest)
  {
    UnparsedCons(h, rest);
    if rest == [] {
      assert Unparsed(rest) == [];
    } else {
      FirstHeader(rest);
      assert Shaped(rest[0]);
    }
    HunkFound(lines, i, h, Unparsed(rest));
  }

  lemma HunksFromNext(lines: seq<string>, i: nat)
    requires i < |lines|
    ensures HunksFrom(lines, i) == [HunkAt(lines, i)] + HunksFrom(lines, NextStart(lines, i + 1))
  {
  }

  lemma ShapedTail(hunks: seq<Hunk>)
    requires AllShaped(hunks) && hunks != []
    ensures Shaped(hunks[0]) && AllShaped(hunks[1..]) && hunks == [hunks[0]] + hunks[1..]
  {
    assert hunks[0] in hunks;
  }

  /** There is no other way to take the lines apart. */
  lemma {:induction false} OnlyOneWay(lines: seq<string>, i: nat, hunks: seq<Hunk>)
    requires i <= |lines| && lines[i..] == Unparsed(hunks) && AllShaped(hunks)
    ensures HunksFrom(lines, i) == hunks
    decreases |hunks|
  {
    if hunks == [] {
      assert |lines[i..]| == 0;
    } else {
      ShapedTail(hunks);
      FrontHunk(lines, i, hunks[0], hunks[1..]);
      OnlyOneWay(lines, NextStart(lines, i + 1), hunks[1..]);
      HunksFromNext(lines, i);
    }
  }

  lemma SplitAt(lines: seq<string>, i: nat, header: string, body: seq<string>, after: seq<string>)
    requires i <= |lines| && lines[i..] == [header] + body + after
    ensures i + 1 + |body| <= |lines| && lines[i] == header && lines[i + 1..i + 1 + |body|] == body && lines[i + 1 + |body|..] == after
  {
    assert lines[i] == lines[i..][0];
    assert lines[i + 1..i + 1 + |body|] == lines[i..][1..1 + |body|];
    assert lines[i + 1 + |body|..] == lines[i..][1 + |body|..];
  }

  lemma FirstHeader(hunks: seq<Hunk>)
    requires hunks != []
    ensures |Unparsed(hunks)| > 0 && Unparsed(hunks)[0] == hunks[0].header
  {
    UnparsedCons(hunks[0], hunks[1..]);
    assert hunks == [hunks[0]] + hunks[1..];
  }

  /** The parser's counts are those of the grammar, whichever way the lines are
    * taken apart. */
  lemma GrammarIsParsed(lines: seq<string>, preamble: seq<string>, hunks: seq<Hunk>)
    requires Grammar(lines, preamble, hunks)
    ensures Parse(lines) == Some(Counts(AddedIn(hunks), RemovedIn(hunks)))
  {
    var n := |preamble|;
    ValidIsShaped(hunks);
    FirstHeader(hunks);
    assert hunks[0] in hunks;
    forall k | 0 <= k < n ensures !StartsHunk(lines[k]) {
      assert lines[k] == preamble[k] && preamble[k] in preamble;
    }
    assert lines[n] == Unparsed(hunks)[0];
    NextStartIs(lines, 0, n);
    assert lines[..n] == preamble && lines[n..] == Unparsed(hunks);
    OnlyOneWay(lines, n, hunks);
  }

  /** A patch is accepted exactly if the grammar allows its lines. */
  lemma AcceptedIff(lines: seq<string>)
    ensures Parse(lines).Some? <==> exists preamble, hunks :: Grammar(lines, preamble, hunks)
  {
    var n := NextStart(lines, 0);
    HunksAreTheLines(lines, n);
    if Parse(lines).Some? {
      assert Grammar(lines, lines[..n], HunksFrom(lines, n));
    }
    if preamble, hunks :| Grammar(lines, preamble, hunks) {
      GrammarIsParsed(lines, preamble, hunks);
    }
  }

  function OldTotal(hunks: seq<Hunk>): int {
    if hunks == [] then 0
    else OldTotal(hunks[..|hunks| - 1]) + if HeaderOf(hunks[|hunks| - 1].header).Some? then HeaderOf(hunks[|hunks| - 1].header).value.oldCount else 0
  }

  function NewTotal(hunks: seq<Hunk>): int {
    if hunks == [] then 0
    else NewTotal(hunks[..|hunks| - 1]) + if HeaderOf(hunks[|hunks| - 1].header).Some? then HeaderOf(hunks[|hunks| - 1].header).value.newCount else 0
  }

  lemma {:induction false} CountsBalance(hunks: seq<Hunk>)
    requires AllValid(hunks)
    ensures AddedIn(hunks) - RemovedIn(hunks) == NewTotal(hunks) - OldTotal(hunks)
  {
    if hunks != [] {
      CountsBalance(hunks[..|hunks| - 1]);
      assert hunks[|hunks| - 1] in hunks;
    }
  }

  /** Of every accepted patch, what it adds less what it removes is what its
    * headers say the file grows by. */
  lemma AcceptedPatchesBalance(lines: seq<string>)
    requires Parse(lines).Some?
    ensures
      var hunks := HunksFrom(lines, NextStart(lines, 0));
      && Unparsed(hunks) == lines[NextStart(lines, 0)..]
      && Parse(lines).value.added - Parse(lines).value.removed == NewTotal(hunks) - OldTotal(hunks)
  {
    HunksAreTheLines(lines, NextStart(lines, 0));
    CountsBalance(HunksFrom(lines, NextStart(lines, 0)));
  }

  // ---- The printer ----

  /** A hunk as the diff library gives it. */
  datatype PatchHunk = PatchHunk(oldStart: nat, oldLines: nat, newStart: nat, newLines: nat, lines: seq<string>)

  predicate NoNewline(s: string) { forall i :: 0 <= i < |s| ==> s[i] != '\n' }

  /** Starts count from 1, every line has its marker and no newline, and the
    * counts are those of the lines. */
  predicate WellFormed(h: PatchHunk) {
    && h.oldStart >= 1 && h.newStart >= 1 && h.oldLines <= MAX_INT64 && h.newLines <= MAX_INT64
    && (forall l :: l in h.lines ==> l != "" && BodyLine(l) && NoNewline(l))
    && h.oldLines == Kept(h.lines) + Removed(h.lines) && h.newLines == Kept(h.lines) + Added(h.lines)
  }

  predicate AllWellFormed(hunks: seq<PatchHunk>) { forall h :: h in hunks ==> WellFormed(h) }

  /** A zero-length range names the line before it. */
  function Start(start: nat, lines: nat): nat
    requires start >= 1
  {
    if lines == 0 then start - 1 else start
  }

  function SideText(start: nat, lines: nat): string
    requires start >= 1
  {
    Decimal(Start(start, lines)) + ("," + Decimal(lines))
  }

  function HeaderText(h: PatchHunk): string
    requires WellFormed(h)
  {
    "@@ -" + (SideText(h.oldStart, h.oldLines) + (" +" + (SideText(h.newStart, h.newLines) + " @@")))
  }

  function Rendered(hunks: seq<PatchHunk>): (r: seq<Hunk>)
    requires AllWellFormed(hunks)
    ensures |r| == |hunks|
    ensures forall i :: 0 <= i < |r| ==> r[i] == Hunk(HeaderText(hunks[i]), hunks[i].lines)
  {
    if hunks == [] then []
    else
      assert hunks[|hunks| - 1] in hunks;
      Rendered(hunks[..|hunks| - 1]) + [Hunk(HeaderText(hunks[|hunks| - 1]), hunks[|hunks| - 1].lines)]
  }

  function FileHeaders(path: string): seq<string> { ["--- a/" + path, "+++ b/" + path] }

  function Join(lines: seq<string>): string
    requires lines != []
  {
    if |lines| == 1 then lines[0] else lines[0] + "\n" + Join(lines[1..])
  }

  function Printed(path: string, hunks: seq<PatchHunk>): string
    requires AllWellFormed(hunks)
  {
    Join(FileHeaders(path) + Unparsed(Rendered(hunks))) + "\n"
  }

  method PrintHeader(h: PatchHunk) returns (line: string)
    requires WellFormed(h)
    ensures line == HeaderText(h)
  {
    var oldStart := if h.oldLines == 0 then h.oldStart - 1 else h.oldStart;
    var newStart := if h.newLines == 0 then h.newStart - 1 else h.newStart;
    var older, newer := Decimal(oldStart) + ("," + Decimal(h.oldLines)), Decimal(newStart) + ("," + Decimal(h.newLines));
    line := "@@ -" + (older + (" +" + (newer + " @@")));
  }

  lemma UnparsedNext(hunks: seq<Hunk>, i: nat)
    requires i < |hunks|
    ensures Unparsed(hunks[..i + 1]) == Unparsed(hunks[..i]) + [hunks[i].header] + hunks[i].body
  {
    assert hunks[..i + 1] == hunks[..i] + [hunks[i]];
    HunksNext(hunks[..i], hunks[i]);
  }

  /** makePatch, given the library's hunks: None if there are none. */
  method MakePatch(path: string, hunks: seq<PatchHunk>) returns (patch: Option<string>)
    requires AllWellFormed(hunks)
    ensures hunks == [] ==> patch == None
    ensures hunks != [] ==> patch == Some(Printed(path, hunks))
  {
    if hunks == [] {
      return None;
    }
    var lines := FileHeaders(path);
    ghost var rendered := Rendered(hunks);
    for i := 0 to |hunks|
      invariant lines == FileHeaders(path) + Unparsed(rendered[..i])
    {
      assert hunks[i] in hunks;
      var header := PrintHeader(hunks[i]);
      UnparsedNext(rendered, i);
      lines := lines + [header] + hunks[i].lines;
    }
    assert rendered[..|hunks|] == rendered;
    return Some(Join(lines) + "\n");
  }

  // ---- Reading a printed header ----

  lemma {:induction false} DigitsOf(a: string, rest: string)
    requires AllDigits(a) && (rest != "" ==> !IsDigit(rest[0]))
    ensures Digits(a + rest) == |a|
    decreases |a|
  {
    if a != "" {
      DigitsOf(a[1..], rest);
      assert (a + rest)[1..] == a[1..] + rest;
    } else {
      assert a + rest == rest;
    }
  }

  lemma CountFieldOf(n: nat, rest: string)
    requires rest != "" && !IsDigit(rest[0])
    ensures CountField(("," + Decimal(n)) + rest) == (Some(Decimal(n)), rest)
  {
    DecimalIsDigits(n);
    var s := ("," + Decimal(n)) + rest;
    assert s[1..] == Decimal(n) + rest;
    DigitsOf(Decimal(n), rest);
    assert (Decimal(n) + rest)[..|Decimal(n)|] == Decimal(n);
    assert (Decimal(n) + rest)[|Decimal(n)|..] == rest;
  }

  lemma SideOf(prefix: string, start: nat, lines: nat, rest: string)
    requires start >= 1 && lines <= MAX_INT64 && rest != "" && !IsDigit(rest[0])
    ensures Side(prefix, prefix + (SideText(start, lines) + rest)) == Some((lines, rest))
  {
    var a, b := Decimal(Start(start, lines)), "," + Decimal(lines);
    var text := SideText(start, lines) + rest;
    assert (prefix + text)[|prefix|..] == text;
    assert text == a + (b + rest);
    DecimalIsDigits(Start(start, lines));
    DigitsOf(a, b + rest);
    assert (a + (b + rest))[|a|..] == b + rest;
    CountFieldOf(lines, rest);
    DecimalIsDigits(lines);
  }

  lemma HeaderIsRead(h: PatchHunk)
    requires WellFormed(h)
    ensures StartsHunk(HeaderText(h)) && HeaderOf(HeaderText(h)) == Some(Header(h.oldLines, h.newLines))
  {
    var newer := " +" + (SideText(h.newStart, h.newLines) + " @@");
    SideOf("@@ -", h.oldStart, h.oldLines, newer);
    SideOf(" +", h.newStart, h.newLines, " @@");
    TwoSides(HeaderText(h), newer, h.oldLines, h.newLines);
    StartsWithAt(SideText(h.oldStart, h.oldLines) + newer);
  }

  lemma TwoSides(line: string, newer: string, oldCount: nat, newCount: nat)
    requires Side("@@ -", line) == Some((oldCount, newer)) && Side(" +", newer) == Some((newCount, " @@"))
    ensures HeaderOf(line) == Some(Header(oldCount, newCount))
  {
  }

  lemma StartsWithAt(rest: string)
    ensures StartsHunk("@@ -" + rest)
  {
  }

  // ---- Splitting joined lines ----

  lemma DigitsNoNewline(s: string)
    requires AllDigits(s)
    ensures NoNewline(s)
  {
    forall i | 0 <= i < |s| ensures s[i] != '\n' {
      assert IsDigit(s[i]);
    }
  }

  lemma SideNoNewline(start: nat, lines: nat)
    requires start >= 1
    ensures NoNewline(SideText(start, lines))
  {
    DecimalIsDigits(Start(start, lines));
    DecimalIsDigits(lines);
    DigitsNoNewline(Decimal(Start(start, lines)));
    DigitsNoNewline(Decimal(lines));
  }

  lemma HeaderNoNewline(h: PatchHunk)
    requires WellFormed(h)
    ensures NoNewline(HeaderText(h))
  {
    SideNoNewline(h.oldStart, h.oldLines);
    SideNoNewline(h.newStart, h.newLines);
  }

  lemma {:induction false} SplitOne(s: string)
    requires NoNewline(s)
    ensures Split(s) == [s]
  {
    if s != "" {
      SplitOne(s[1..]);
      assert [s[0]] + s[1..] == s;
    }
  }

  lemma {:induction false} SplitFirst(a: string, rest: string)
    requires NoNewline(a)
    ensures Split(a + "\n" + rest) == [a] + Split(rest)
    decreases |a|
  {
    var s := a + "\n" + rest;
    if a == "" {
      assert s[1..] == rest;
    } else {
      SplitFirst(a[1..], rest);
      assert s[1..] == a[1..] + "\n" + rest;
      assert [a[0]] + a[1..] == a && ([a[1..]] + Split(rest))[1..] == Split(rest);
    }
  }

  lemma {:induction false} SplitJoin(lines: seq<string>)
    requires lines != [] && forall l :: l in lines ==> NoNewline(l)
    ensures Split(Join(lines)) == lines
    decreases |lines|
  {
    assert lines[0] in lines;
    if |lines| == 1 {
      SplitOne(lines[0]);
    } else {
      assert forall l :: l in lines[1..] ==> l in lines;
      SplitJoin(lines[1..]);
      SplitFirst(lines[0], Join(lines[1..]));
    }
  }

  // ---- Printed patches are accepted ----

  lemma RenderedIsValid(hunks: seq<PatchHunk>)
    requires AllWellFormed(hunks)
    ensures AllValid(Rendered(hunks))
  {
    forall i | 0 <= i < |hunks| ensures ValidHunk(Rendered(hunks)[i]) {
      assert hunks[i] in hunks;
      HeaderIsRead(hunks[i]);
    }
  }

  lemma {:induction false} UnparsedNoNewline(hunks: seq<Hunk>)
    requires forall h :: h in hunks ==> NoNewline(h.header) && forall l :: l in h.body ==> NoNewline(l)
    ensures forall l :: l in Unparsed(hunks) ==> NoNewline(l)
  {
    if hunks != [] {
      assert hunks[|hunks| - 1] in hunks;
      assert forall h :: h in hunks[..|hunks| - 1] ==> h in hunks;
      UnparsedNoNewline(hunks[..|hunks| - 1]);
    }
  }

  function PlusLines(hunks: seq<PatchHunk>): nat { if hunks == [] then 0 else PlusLines(hunks[..|hunks| - 1]) + Added(hunks[|hunks| - 1].lines) }
  function MinusLines(hunks: seq<PatchHunk>): nat { if hunks == [] then 0 else MinusLines(hunks[..|hunks| - 1]) + Removed(hunks[|hunks| - 1].lines) }

  lemma {:induction false} BodiesCount(rendered: seq<Hunk>, hunks: seq<PatchHunk>)
    requires |rendered| == |hunks| && forall i :: 0 <= i < |hunks| ==> rendered[i].body == hunks[i].lines
    ensures AddedIn(rendered) == PlusLines(hunks) && RemovedIn(rendered) == MinusLines(hunks)
  {
    if hunks != [] {
      BodiesCount(rendered[..|hunks| - 1], hunks[..|hunks| - 1]);
    }
  }

  lemma LinesOf(path: string, hunks: seq<Hunk>)
    requires NoNewline(path) && forall h :: h in hunks ==> NoNewline(h.header) && forall l :: l in h.body ==> NoNewline(l)
    ensures Lines(Join(FileHeaders(path) + Unparsed(hunks)) + "\n") == FileHeaders(path) + Unparsed(hunks)
  {
    var lines := FileHeaders(path) + Unparsed(hunks);
    UnparsedNoNewline(hunks);
    SplitJoin(lines);
    assert (Join(lines) + "\n")[..|Join(lines)|] == Join(lines);
  }

  lemma PrintedLines(path: string, hunks: seq<PatchHunk>)
    requires NoNewline(path) && AllWellFormed(hunks)
    ensures Lines(Printed(path, hunks)) == FileHeaders(path) + Unparsed(Rendered(hunks))
  {
    forall h | h in Rendered(hunks) ensures NoNewline(h.header) && forall l :: l in h.body ==> NoNewline(l) {
      var i :| 0 <= i < |hunks| && Rendered(hunks)[i] == h;
      assert hunks[i] in hunks;
      HeaderNoNewline(hunks[i]);
    }
    LinesOf(path, Rendered(hunks));
  }

  /** Any list of well-formed hunks, printed as the client prints them, is accepted
    * with exactly their numbers of added and removed lines. */
  lemma PrintedIsAccepted(path: string, hunks: seq<PatchHunk>)
    requires NoNewline(path) && hunks != [] && AllWellFormed(hunks)
    ensures Parse(Lines(Printed(path, hunks))) == Some(Counts(PlusLines(hunks), MinusLines(hunks)))
  {
    PrintedLines(path, hunks);
    RenderedIsValid(hunks);
    BodiesCount(Rendered(hunks), hunks);
    assert "--- " <= FileHeaders(path)[0] && "+++ " <= FileHeaders(path)[1];
    GrammarIsParsed(Lines(Printed(path, hunks)), FileHeaders(path), Rendered(hunks));
  }
}
