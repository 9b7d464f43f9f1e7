/** Single-file unified diffs: the printer the client posts with and the parser
  * that counts added and removed lines.
  */
module Unidiff {
  import opened Prelude

  const MAX_INT64: nat := 0x7FFF_FFFF_FFFF_FFFF

  // ---- Numbers ----

  predicate IsDigit(c: char) { '0' <= c <= '9' }

  function DigitOf(d: nat): (c: char)
    requires d < 10
    ensures IsDigit(c) && c as int - '0' as int == d
  {
    ('0' as int + d) as char
  }

  function Decimal(n: nat): string {
    if n < 10 then [DigitOf(n)] else Decimal(n / 10) + [DigitOf(n % 10)]
  }

  predicate AllDigits(s: string) { forall i :: 0 <= i < |s| ==> IsDigit(s[i]) }

  function Value(s: string): nat
    requires AllDigits(s)
  {
    if s == "" then 0 else 10 * Value(s[..|s| - 1]) + (s[|s| - 1] as int - '0' as int)
  }

  /** Atoi clamps a number that is too large, and its error is ignored. */
  function HunkLength(field: Option<string>): nat
    requires field.Some? ==> AllDigits(field.value)
  {
    if field.None? then 1 else if Value(field.value) > MAX_INT64 then MAX_INT64 else Value(field.value)
  }

  lemma {:induction false} DecimalIsDigits(n: nat)
    ensures Decimal(n) != "" && AllDigits(Decimal(n)) && Value(Decimal(n)) == n
  {
    if n >= 10 {
      DecimalIsDigits(n / 10);
      var s := Decimal(n);
      assert s[..|s| - 1] == Decimal(n / 10);
    } else {
      assert Decimal(n)[..0] == "";
    }
  }

  // ---- The hunk header pattern ----

  /** The length of the run of digits at the front. */
  function Digits(s: string): (n: nat)
    ensures n <= |s| && AllDigits(s[..n]) && (n < |s| ==> !IsDigit(s[n]))
  {
    if s != "" && IsDigit(s[0]) then 1 + Digits(s[1..]) else 0
  }

  function Drop(prefix: string, s: string): Option<string> { if prefix <= s then Some(s[|prefix|..]) else None }

  /** A start line: one or more digits. */
  function DropNumber(s: string): Option<string> { if Digits(s) == 0 then None else Some(s[Digits(s)..]) }

  /** An optional comma and count. */
  function CountField(s: string): (r: (Option<string>, string))
    ensures r.0.Some? ==> AllDigits(r.0.value)
  {
    if s != "" && s[0] == ',' && Digits(s[1..]) > 0 then
      (Some(s[1..][..Digits(s[1..])]), s[1..][Digits(s[1..])..])
    else (None, s)
  }

  datatype Header = Header(oldCount: nat, newCount: nat)

  /** One side of a header: its start, and its count with what follows. */
  function Side(prefix: string, s: string): Option<(nat, string)> {
    var start := Drop(prefix, s);
    if start.None? then None else
    var rest := DropNumber(start.value);
    if rest.None? then None else
    var field := CountField(rest.value);
    Some((HunkLength(field.0), field.1))
  }

  function HeaderOf(line: string): Option<Header> {
    var older := Side("@@ -", line);
    if older.None? then None else
    var newer := Side(" +", older.value.1);
    if newer.None? || !(" @@" <= newer.value.1) then None else Some(Header(older.value.0, newer.value.0))
  }

  // ---- Counting ----

  predicate StartsHunk(line: string) { |line| >= 2 && line[0] == '@' && line[1] == '@' }
  predicate Preamble(line: string) { !StartsHunk(line) && ("--- " <= line || "+++ " <= line || "diff " <= line || "index " <= line) }

  predicate Plus(line: string) { line != "" && line[0] == '+' }
  predicate Minus(line: string) { line != "" && line[0] == '-' }
  predicate Context(line: string) { line == "" || line[0] == ' ' }
  predicate Note(line: string) { line != "" && line[0] == '\\' }
  predicate BodyLine(line: string) { Plus(line) || Minus(line) || Context(line) || Note(line) }

  function One(b: bool): nat { if b then 1 else 0 }

  function Added(body: seq<string>): nat { if body == [] then 0 else Added(body[..|body| - 1]) + One(Plus(body[|body| - 1])) }
  function Removed(body: seq<string>): nat { if body == [] then 0 else Removed(body[..|body| - 1]) + One(Minus(body[|body| - 1])) }
  function Kept(body: seq<string>): nat { if body == [] then 0 else Kept(body[..|body| - 1]) + One(Context(body[|body| - 1])) }

  datatype Hunk = Hunk(header: string, body: seq<string>)

  /** A hunk the grammar allows: a header, and body lines that match its counts. */
  ghost predicate ValidHunk(h: Hunk) {
    && StartsHunk(h.header) && HeaderOf(h.header).Some?
    && (forall l :: l in h.body ==> BodyLine(l) && !StartsHunk(l))
    && Kept(h.body) + Removed(h.body) == HeaderOf(h.header).value.oldCount
    && Kept(h.body) + Added(h.body) == HeaderOf(h.header).value.newCount
  }

  function Unparsed(hunks: seq<Hunk>): seq<string> {
    if hunks == [] then [] else Unparsed(hunks[..|hunks| - 1]) + [hunks[|hunks| - 1].header] + hunks[|hunks| - 1].body
  }

  function AddedIn(hunks: seq<Hunk>): nat { if hunks == [] then 0 else AddedIn(hunks[..|hunks| - 1]) + Added(hunks[|hunks| - 1].body) }
  function RemovedIn(hunks: seq<Hunk>): nat { if hunks == [] then 0 else RemovedIn(hunks[..|hunks| - 1]) + Removed(hunks[|hunks| - 1].body) }

  /** The lines of an acceptable patch, taken apart. */
  ghost predicate Grammar(lines: seq<string>, preamble: seq<string>, hunks: seq<Hunk>) {
    && lines == preamble + Unparsed(hunks) && hunks != []
    && (forall l :: l in preamble ==> Preamble(l)) && (forall h :: h in hunks ==> ValidHunk(h))
  }

  datatype Counts = Counts(added: nat, removed: nat)

  /** lines, split at newlines; one empty line for the empty string. */
  function Split(s: string): (lines: seq<string>)
    ensures lines != []
  {
    if s == "" then [""]
    else
      var rest := Split(s[1..]);
      if s[0] == '\n' then [""] + rest else [[s[0]] + rest[0]] + rest[1..]
  }

  function TrimNewline(s: string): string { if s != "" && s[|s| - 1] == '\n' then s[..|s| - 1] else s }

  function Lines(patch: string): seq<string> { Split(TrimNewline(patch)) }

  /** One line of a hunk's body counts once. */
  lemma BodyNext(body: seq<string>, l: string)
    ensures Added(body + [l]) == Added(body) + One(Plus(l)) && Removed(body + [l]) == Removed(body) + One(Minus(l)) && Kept(body + [l]) == Kept(body) + One(Context(l))
  {
    assert (body + [l])[..|body|] == body;
  }

  lemma HunksNext(hunks: seq<Hunk>, h: Hunk)
    ensures Unparsed(hunks + [h]) == Unparsed(hunks) + [h.header] + h.body
    ensures AddedIn(hunks + [h]) == AddedIn(hunks) + Added(h.body) && RemovedIn(hunks + [h]) == RemovedIn(hunks) + Removed(h.body)
  {
    assert (hunks + [h])[..|hunks|] == hunks;
  }

  /** The next line from i on that starts a hunk, or the end. */
  function NextStart(lines: seq<string>, i: nat): (n: nat)
    requires i <= |lines|
    ensures i <= n <= |lines| && (forall k :: i <= k < n ==> !StartsHunk(lines[k])) && (n < |lines| ==> StartsHunk(lines[n]))
    decreases |lines| - i
  {
    if i == |lines| || StartsHunk(lines[i]) then i else NextStart(lines, i + 1)
  }

  /** The only way to take lines apart into hunks: each runs to the next header. */
  function HunksFrom(lines: seq<string>, i: nat): seq<Hunk>
    requires i <= |lines|
    decreases |lines| - i
  {
    if i == |lines| then [] else [HunkAt(lines, i)] + HunksFrom(lines, NextStart(lines, i + 1))
  }

  function HunkAt(lines: seq<string>, i: nat): Hunk
    requires i < |lines|
  {
    Hunk(lines[i], lines[i + 1..NextStart(lines, i + 1)])
  }

  ghost predicate AllValid(hunks: seq<Hunk>) { forall h :: h in hunks ==> ValidHunk(h) }
  ghost predicate AllPreamble(lines: seq<string>) { forall l :: l in lines ==> Preamble(l) }

  /** The counts of a patch the grammar allows. */
  ghost function Parse(lines: seq<string>): Option<Counts> {
    var n := NextStart(lines, 0);
    var hunks := HunksFrom(lines, n);
    if hunks != [] && AllPreamble(lines[..n]) && AllValid(hunks) then Some(Counts(AddedIn(hunks), RemovedIn(hunks))) else None
  }

  // ---- The parser ----

  lemma NextStartIs(lines: seq<string>, i: nat, n: nat)
    requires i <= n <= |lines| && (forall k :: i <= k < n ==> !StartsHunk(lines[k])) && (n < |lines| ==> StartsHunk(lines[n]))
    ensures NextStart(lines, i) == n
  {
  }

  /** Skips the optional file headers; None at any other line. */
  method SkipPreamble(lines: seq<string>) returns (at: Option<nat>)
    ensures at.Some? ==> at.value == NextStart(lines, 0) && AllPreamble(lines[..at.value])
    ensures at.None? ==> !AllPreamble(lines[..NextStart(lines, 0)])
  {
    var i := 0;
    while i < |lines| && !StartsHunk(lines[i])
      invariant i <= NextStart(lines, 0) && AllPreamble(lines[..i])
    {
      var line := lines[i];
      assert line in lines[..NextStart(lines, 0)];
      if !("--- " <= line) && !("+++ " <= line) && !("diff " <= line) && !("index " <= line) {
        return None;
      }
      i := i + 1;
    }
    NextStartIs(lines, 0, i);
    return Some(i);
  }

  datatype Seen = Seen(added: nat, removed: nat, older: nat, newer: nat)

  function SeenIn(body: seq<string>): Seen { Seen(Added(body), Removed(body), Kept(body) + Removed(body), Kept(body) + Added(body)) }

  ghost predicate AllBody(body: seq<string>) { forall l :: l in body ==> BodyLine(l) }

  lemma SeenNext(lines: seq<string>, start: nat, end: nat)
    requires start <= end < |lines|
    ensures
      var before, after := SeenIn(lines[start..end]), SeenIn(lines[start..end + 1]);
      var l := lines[end];
      after == Seen(before.added + One(Plus(l)), before.removed + One(Minus(l)), before.older + One(Minus(l)) + One(Context(l)), before.newer + One(Plus(l)) + One(Context(l)))
  {
    assert lines[start..end + 1] == lines[start..end] + [lines[end]];
    BodyNext(lines[start..end], lines[end]);
  }

  /** Reads a hunk's body; None at a line no body may hold. */
  method ReadBody(lines: seq<string>, start: nat) returns (end: nat, seen: Option<Seen>)
    requires start <= |lines|
    ensures seen.Some? ==> end == NextStart(lines, start) && AllBody(lines[start..end]) && seen.value == SeenIn(lines[start..end])
    ensures seen.None? ==> !AllBody(lines[start..NextStart(lines, start)])
  {
    end := start;
    var s := Seen(0, 0, 0, 0);
    while end < |lines| && !StartsHunk(lines[end])
      invariant start <= end <= NextStart(lines, start)
      invariant AllBody(lines[start..end]) && s == SeenIn(lines[start..end])
    {
      var line := lines[end];
      SeenNext(lines, start, end);
      if Plus(line) {
        s := s.(added := s.added + 1, newer := s.newer + 1);
      } else if Minus(line) {
        s := s.(removed := s.removed + 1, older := s.older + 1);
      } else if Context(line) {
        s := s.(older := s.older + 1, newer := s.newer + 1);
      } else if !Note(line) {
        assert line in lines[start..NextStart(lines, start)];
        return end, None;
      }
      end := end + 1;
    }
    NextStartIs(lines, start, end);
    return end, Some(s);
  }

  lemma ValidIff(lines: seq<string>, i: nat)
    requires i < |lines| && StartsHunk(lines[i])
    ensures
      var body := lines[i + 1..NextStart(lines, i + 1)];
      ValidHunk(HunkAt(lines, i)) <==>
        && HeaderOf(lines[i]).Some? && AllBody(body)
        && SeenIn(body).older == HeaderOf(lines[i]).value.oldCount && SeenIn(body).newer == HeaderOf(lines[i]).value.newCount
  {
    forall l | l in lines[i + 1..NextStart(lines, i + 1)] ensures !StartsHunk(l) {
    }
  }

  /** Reads a header and its body; None if the grammar does not allow the hunk. */
  method ReadHunk(lines: seq<string>, i: nat) returns (end: nat, counts: Option<Counts>)
    requires i < |lines| && StartsHunk(lines[i])
    ensures counts.Some? <==> ValidHunk(HunkAt(lines, i))
    ensures counts.Some? ==> end == NextStart(lines, i + 1) && counts.value == Counts(Added(HunkAt(lines, i).body), Removed(HunkAt(lines, i).body))
  {
    ValidIff(lines, i);
    var header := HeaderOf(lines[i]);
    if header.None? {
      return i, None;
    }
    var seen;
    end, seen := ReadBody(lines, i + 1);
    if seen.None? || seen.value.older != header.value.oldCount || seen.value.newer != header.value.newCount {
      return end, None;
    }
    return end, Some(Counts(seen.value.added, seen.value.removed));
  }

  /** The part of the hunks already read, and their counts. */
  ghost predicate Progress(lines: seq<string>, i: nat, all: seq<Hunk>, done: seq<Hunk>, counts: Counts) {
    && i <= |lines| && (i < |lines| ==> StartsHunk(lines[i]))
    && done + HunksFrom(lines, i) == all && counts == Counts(AddedIn(done), RemovedIn(done))
  }

  lemma Shift(done: seq<Hunk>, h: Hunk, rest: seq<Hunk>)
    ensures (done + [h]) + rest == done + ([h] + rest) && h in done + ([h] + rest)
  {
    assert (done + ([h] + rest))[|done|] == h;
  }

  lemma ValidNext(done: seq<Hunk>, h: Hunk)
    requires AllValid(done) && ValidHunk(h)
    ensures AllValid(done + [h])
  {
  }

  lemma NextInAll(lines: seq<string>, i: nat, all: seq<Hunk>, done: seq<Hunk>, counts: Counts)
    requires Progress(lines, i, all, done, counts) && i < |lines|
    ensures HunkAt(lines, i) in all
  {
    Shift(done, HunkAt(lines, i), HunksFrom(lines, NextStart(lines, i + 1)));
  }

  lemma NextProgress(lines: seq<string>, i: nat, all: seq<Hunk>, done: seq<Hunk>, counts: Counts, c: Counts)
    requires Progress(lines, i, all, done, counts) && i < |lines|
    requires c == Counts(Added(HunkAt(lines, i).body), Removed(HunkAt(lines, i).body))
    ensures Progress(lines, NextStart(lines, i + 1), all, done + [HunkAt(lines, i)], Counts(counts.added + c.added, counts.removed + c.removed))
  {
    var h := HunkAt(lines, i);
    HunksNext(done, h);
    Shift(done, h, HunksFrom(lines, NextStart(lines, i + 1)));
  }

  /** Progress with everything so far allowed. */
  ghost predicate Reading(lines: seq<string>, i: nat, all: seq<Hunk>, done: seq<Hunk>, counts: Counts) {
    Progress(lines, i, all, done, counts) && AllValid(done)
  }

  lemma NextReading(lines: seq<string>, i: nat, all: seq<Hunk>, done: seq<Hunk>, counts: Counts, c: Counts)
    requires Reading(lines, i, all, done, counts) && i < |lines| && ValidHunk(HunkAt(lines, i))
    requires c == Counts(Added(HunkAt(lines, i).body), Removed(HunkAt(lines, i).body))
    ensures Reading(lines, NextStart(lines, i + 1), all, done + [HunkAt(lines, i)], Counts(counts.added + c.added, counts.removed + c.removed))
  {
    NextProgress(lines, i, all, done, counts, c);
    ValidNext(done, HunkAt(lines, i));
  }

  lemma Spoiled(lines: seq<string>, i: nat, all: seq<Hunk>, done: seq<Hunk>, counts: Counts)
    requires Reading(lines, i, all, done, counts) && i < |lines| && !ValidHunk(HunkAt(lines, i))
    ensures !AllValid(all)
  {
    NextInAll(lines, i, all, done, counts);
  }

  lemma Finished(lines: seq<string>, all: seq<Hunk>, done: seq<Hunk>, counts: Counts)
    requires Reading(lines, |lines|, all, done, counts)
    ensures AllValid(all) && done == all && counts == Counts(AddedIn(all), RemovedIn(all))
  {
    assert done + [] == done;
  }

  /** Reads hunk after hunk; None at the first the grammar does not allow. */
  method ReadHunks(lines: seq<string>, start: nat) returns (hunks: nat, counts: Option<Counts>)
    requires start <= |lines| && (start < |lines| ==> StartsHunk(lines[start]))
    ensures
      var all := HunksFrom(lines, start);
      && (counts.Some? <==> AllValid(all))
      && (counts.Some? ==> hunks == |all| && counts.value == Counts(AddedIn(all), RemovedIn(all)))
  {
    var i, total := start, Counts(0, 0);
    hunks := 0;
    ghost var done: seq<Hunk> := [];
    ghost var all := HunksFrom(lines, start);
    while i < |lines|
      invariant i <= |lines| && Reading(lines, i, all, done, total) && hunks == |done|
      decreases |lines| - i
    {
      var end, c := ReadHunk(lines, i);
      if c.None? {
        Spoiled(lines, i, all, done, total);
        return hunks, None;
      }
      NextReading(lines, i, all, done, total, c.value);
      hunks := hunks + 1;
      total := Counts(total.added + c.value.added, total.removed + c.value.removed);
      done := done + [HunkAt(lines, i)];
      i := end;
    }
    Finished(lines, all, done, total);
    return hunks, Some(total);
  }

  method CountUnifiedDiff(patch: string) returns (r: Option<Counts>)
    ensures r == Parse(Lines(patch))
  {
    var lines := Lines(patch);
    var start := SkipPreamble(lines);
    if start.None? {
      return None;
    }
    var hunks, counts := ReadHunks(lines, start.value);
    if counts.None? || hunks == 0 {
      return None;
    }
    return counts;
  }
}
