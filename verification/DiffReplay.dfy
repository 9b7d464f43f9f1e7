/** From posts to the event log and back to file contents. */
module DiffReplay {
  import opened Prelude
  import opened Sorting
  import opened DiffDebouncer

  // ---- Replay ----

  datatype EventKind = CodeDiff | OtherEvent
  /** A timeline event; fields that are absent or not strings are None. */
  datatype Event = Event(seqNo: int, kind: EventKind, origin: Origin, path: Option<Path>, patch: Option<Patch>)

  datatype State = State(files: map<Path, Content>, activeFile: Option<Path>, diffs: nat, aiApplied: nat, failed: seq<int>, last: int)

  predicate Sooner(a: Event, b: Event) { a.seqNo < b.seqNo }

  predicate Text(s: Option<string>) { s.Some? && s.value != "" }

  /** One event's effect; a patch that does not apply is noted and skipped. */
  function Played(d: Differ, s: State, e: Event): State {
    if e.kind != CodeDiff || !Text(e.path) || !Text(e.patch) then s.(last := e.seqNo)
    else
      var counted := s.(diffs := s.diffs + 1, aiApplied := s.aiApplied + if e.origin == AIApplied then 1 else 0, last := e.seqNo);
      var next := d.apply(Get(s.files, e.path.value), e.patch.value);
      if next.None? then counted.(failed := s.failed + [e.seqNo])
      else counted.(files := s.files[e.path.value := next.value], activeFile := e.path)
  }

  function PlayedAll(d: Differ, s: State, events: seq<Event>): State {
    if events == [] then s else Played(d, PlayedAll(d, s, events[..|events| - 1]), events[|events| - 1])
  }

  function Start(initial: map<Path, Content>): State { State(initial, None, 0, 0, [], 0) }

  /** How many events of an ordered timeline the position includes. */
  function Position(ordered: seq<Event>, upTo: int): (k: nat)
    ensures k <= |ordered| && (forall i :: 0 <= i < k ==> ordered[i].seqNo <= upTo) && (k < |ordered| ==> ordered[k].seqNo > upTo)
    decreases |ordered|
  {
    if ordered == [] || ordered[0].seqNo > upTo then 0 else 1 + Position(ordered[1..], upTo)
  }

  function Replayed(d: Differ, events: seq<Event>, initial: map<Path, Content>, upTo: int): State {
    var ordered := Sort(events, Sooner);
    PlayedAll(d, Start(initial), ordered[..Position(ordered, upTo)])
  }

  method ReplayState(d: Differ, events: seq<Event>, initial: map<Path, Content>, upTo: int) returns (s: State)
    ensures s == Replayed(d, events, initial, upTo)
  {
    var ordered := Sort(events, Sooner);
    s := Start(initial);
    var i := 0;
    while i < |ordered|
      invariant i <= |ordered| && s == PlayedAll(d, Start(initial), ordered[..i])
      invariant forall j :: 0 <= j < i ==> ordered[j].seqNo <= upTo
    {
      var e := ordered[i];
      if e.seqNo > upTo {
        break;
      }
      assert ordered[..i + 1][..i] == ordered[..i];
      if e.kind == CodeDiff && Text(e.path) && Text(e.patch) {
        s := s.(diffs := s.diffs + 1);
        if e.origin == AIApplied {
          s := s.(aiApplied := s.aiApplied + 1);
        }
        var next := d.apply(Get(s.files, e.path.value), e.patch.value);
        if next.None? {
          s := s.(failed := s.failed + [e.seqNo]);
        } else {
          s := s.(files := s.files[e.path.value := next.value], activeFile := e.path);
        }
      }
      s := s.(last := e.seqNo);
      i := i + 1;
    }
    PositionIs(ordered, upTo, i);
  }

  lemma PositionIs(ordered: seq<Event>, upTo: int, i: nat)
    requires i <= |ordered| && (forall j :: 0 <= j < i ==> ordered[j].seqNo <= upTo) && (i < |ordered| ==> ordered[i].seqNo > upTo)
    ensures Position(ordered, upTo) == i
  {
  }
}
