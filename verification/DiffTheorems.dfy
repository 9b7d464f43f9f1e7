/** The diff pipeline end to end: what the editor held is what replay shows. */
module DiffTheorems {
  import opened Prelude
  import opened Sorting
  import opened DiffDebouncer
  import opened DiffReplay

  datatype Action =
    | Track(path: Path, content: Content)
    | Edit(path: Path, content: Content)
    | ApplyAI(path: Path, content: Content, promptId: string)
    | Fire(path: Path)
    | Flush
    | Dispose

  function Step(d: Differ, s: Editor, a: Action): Editor {
    match a
    case Track(path, content) => Tracked(s, path, content)
    case Edit(path, content) => Edited(s, path, content)
    case ApplyAI(path, content, promptId) => AIApplication(d, s, path, content, promptId)
    case Fire(path) => FlushedPath(d, s, path)
    case Flush => Flushed(d, s)
    case Dispose => s.(timers := [])
  }

  function Run(d: Differ, s: Editor, actions: seq<Action>): Editor
    decreases |actions|
  {
    if actions == [] then s else Run(d, Step(d, s, actions[0]), actions[1..])
  }

  const NEW: Editor := Editor(map[], map[], [], 0, [])

  lemma RunFrom(d: Differ, initial: map<Path, Content>, s: Editor, actions: seq<Action>, i: nat)
    requires i < |actions|
    ensures Run(d, s, actions[i..]) == Run(d, Step(d, s, actions[i]), actions[i + 1..])
    ensures ProperRun(d, initial, s, actions[i..]) <==> Proper(initial, s, actions[i]) && ProperRun(d, initial, Step(d, s, actions[i]), actions[i + 1..])
  {
    assert actions[i..][1..] == actions[i + 1..];
  }

  // ---- What the posts rebuild ----

  /** The files after applying posts in order; None once one does not apply. */
  function FilesAfter(d: Differ, initial: map<Path, Content>, posts: seq<Request>): Option<map<Path, Content>> {
    if posts == [] then Some(initial)
    else
      var files, last := FilesAfter(d, initial, posts[..|posts| - 1]), posts[|posts| - 1];
      if files.None? then None
      else
        var next := d.apply(Get(files.value, last.path), last.patch);
        if next.None? then None else Some(files.value[last.path := next.value])
  }

  /** A file may be edited once it is tracked, or if it starts empty. */
  predicate Editable(initial: map<Path, Content>, s: Editor, path: Path) {
    path != "" && (path in s.posted || Get(initial, path) == "")
  }

  /** What the log shows for a path: what was last posted, or its starter. */
  function Shown(initial: map<Path, Content>, s: Editor, path: Path): Content {
    if path in s.posted then s.posted[path] else Get(initial, path)
  }

  /** The use the pipeline expects. Tracking a file must not change what the log
    * shows for it; the interface tracks each file at its starter. */
  predicate Proper(initial: map<Path, Content>, s: Editor, a: Action) {
    match a
    case Track(path, content) => content == Shown(initial, s, path)
    case Edit(path, _) => Editable(initial, s, path)
    case ApplyAI(path, _, _) => Editable(initial, s, path)
    case _ => true
  }

  ghost predicate ProperRun(d: Differ, initial: map<Path, Content>, s: Editor, actions: seq<Action>)
    decreases |actions|
  {
    actions == [] || (Proper(initial, s, actions[0]) && ProperRun(d, initial, Step(d, s, actions[0]), actions[1..]))
  }

  ghost predicate Rebuilds(d: Differ, initial: map<Path, Content>, s: Editor) {
    var files := FilesAfter(d, initial, s.queue);
    files.Some? && forall path :: Get(files.value, path) == Shown(initial, s, path)
  }

  predicate InSequence(s: Editor) {
    |s.queue| == s.sequence && forall i :: 0 <= i < |s.queue| ==> s.queue[i].clientSeq == i + 1 && s.queue[i].path != "" && s.queue[i].patch != ""
  }

  ghost predicate Inv(d: Differ, initial: map<Path, Content>, s: Editor) {
    && Rebuilds(d, initial, s) && InSequence(s)
    && (forall path :: path in s.timers ==> Editable(initial, s, path))
    && (forall path :: path in s.current ==> path in s.posted || Get(initial, path) == "")
  }

  lemma EnqueueRebuilds(d: Differ, initial: map<Path, Content>, s: Editor, path: Path, origin: Origin, promptId: Option<string>)
    requires Correct(d) && Rebuilds(d, initial, s) && Editable(initial, s, path)
    ensures Rebuilds(d, initial, Enqueued(d, s, path, origin, promptId))
  {
    var s' := Enqueued(d, s, path, origin, promptId);
    var before, after := Get(s.posted, path), Get(s.current, path);
    assert d.make(path, before, after) == None <==> before == after;
    if before != after {
      var n := |s.queue|;
      assert s'.queue[..n] == s.queue;
      var files := FilesAfter(d, initial, s.queue).value;
      assert Get(files, path) == Shown(initial, s, path) == before;
      assert d.apply(before, s'.queue[n].patch) == Some(after);
      assert FilesAfter(d, initial, s'.queue) == Some(files[path := after]);
      forall p ensures Get(files[path := after], p) == Shown(initial, s', p) {
        assert Get(files, p) == Shown(initial, s, p);
      }
    }
  }

  lemma EnqueueKeeps(d: Differ, initial: map<Path, Content>, s: Editor, path: Path, origin: Origin, promptId: Option<string>)
    requires Correct(d) && Inv(d, initial, s) && Editable(initial, s, path)
    ensures
      var s' := Enqueued(d, s, path, origin, promptId);
      && Inv(d, initial, s') && s.queue <= s'.queue && Get(s'.posted, path) == Get(s.current, path)
      && s'.timers == s.timers && s'.current == s.current && (forall p :: p != path ==> Get(s'.posted, p) == Get(s.posted, p))
      && (forall p :: Editable(initial, s, p) ==> Editable(initial, s', p))
  {
    EnqueueRebuilds(d, initial, s, path, origin, promptId);
    assert d.make(path, Get(s.posted, path), Get(s.current, path)) == None <==> Get(s.posted, path) == Get(s.current, path);
  }

  lemma FlushPathKeeps(d: Differ, initial: map<Path, Content>, s: Editor, path: Path)
    requires Correct(d) && Inv(d, initial, s)
    ensures
      var s' := FlushedPath(d, s, path);
      && Inv(d, initial, s') && s.queue <= s'.queue && s'.current == s.current
      && (forall p :: p in s'.timers <==> p in s.timers && p != path)
      && (forall p :: p != path || p !in s.timers ==> Get(s'.posted, p) == Get(s.posted, p))
      && (path in s.timers ==> Get(s'.posted, path) == Get(s.current, path))
      && (forall p :: Editable(initial, s, p) ==> Editable(initial, s', p))
  {
    if path in s.timers {
      EnqueueKeeps(d, initial, s.(timers := Without(s.timers, path)), path, Manual, None);
    }
  }

  lemma {:induction false} FlushPathsKeep(d: Differ, initial: map<Path, Content>, s: Editor, paths: seq<Path>)
    requires Correct(d) && Inv(d, initial, s)
    ensures
      var s' := FlushedPaths(d, s, paths);
      && Inv(d, initial, s') && s.queue <= s'.queue && s'.current == s.current
      && (forall p :: p in s'.timers <==> p in s.timers && p !in paths)
      && (forall p :: p !in s.timers || p !in paths ==> Get(s'.posted, p) == Get(s.posted, p))
      && (forall p :: p in s.timers && p in paths ==> Get(s'.posted, p) == Get(s.current, p))
    decreases |paths|
  {
    if paths != [] {
      FlushPathKeeps(d, initial, s, paths[0]);
      FlushPathsKeep(d, initial, FlushedPath(d, s, paths[0]), paths[1..]);
    }
  }

  lemma SetKeeps(d: Differ, initial: map<Path, Content>, s: Editor, path: Path, content: Content)
    requires Inv(d, initial, s) && Editable(initial, s, path)
    ensures Inv(d, initial, s.(current := s.current[path := content]))
  {
  }

  lemma AIKeeps(d: Differ, initial: map<Path, Content>, s: Editor, path: Path, content: Content, promptId: string)
    requires Correct(d) && Inv(d, initial, s) && Editable(initial, s, path)
    ensures
      var s' := AIApplication(d, s, path, content, promptId);
      && Inv(d, initial, s') && s.queue <= s'.queue && s'.current == s.current[path := content] && Get(s'.posted, path) == content
      && (forall p :: p in s'.timers <==> p in s.timers && p != path)
      && (forall p :: p != path ==> Get(s'.posted, p) == Get(s.posted, p))
  {
    FlushPathKeeps(d, initial, s, path);
    var flushed := FlushedPath(d, s, path);
    SetKeeps(d, initial, flushed, path, content);
    EnqueueKeeps(d, initial, flushed.(current := flushed.current[path := content]), path, AIApplied, Some(promptId));
  }

  lemma InvStep(d: Differ, initial: map<Path, Content>, s: Editor, a: Action)
    requires Correct(d) && Inv(d, initial, s) && Proper(initial, s, a)
    ensures Inv(d, initial, Step(d, s, a)) && s.queue <= Step(d, s, a).queue
  {
    match a
    case Track(path, content) =>
    case Edit(path, content) =>
    case ApplyAI(path, content, promptId) => AIKeeps(d, initial, s, path, content, promptId);
    case Fire(path) => FlushPathKeeps(d, initial, s, path);
    case Flush => FlushPathsKeep(d, initial, s, s.timers);
    case Dispose =>
  }

  lemma {:induction false} InvRun(d: Differ, initial: map<Path, Content>, s: Editor, actions: seq<Action>)
    requires Correct(d) && Inv(d, initial, s) && ProperRun(d, initial, s, actions)
    ensures Inv(d, initial, Run(d, s, actions)) && s.queue <= Run(d, s, actions).queue
    decreases |actions|
  {
    if actions != [] {
      InvStep(d, initial, s, actions[0]);
      InvRun(d, initial, Step(d, s, actions[0]), actions[1..]);
    }
  }

  // ---- Nothing is left unposted after a flush ----

  ghost predicate OnlyTimersPending(s: Editor) { forall p :: p !in s.timers ==> Get(s.posted, p) == Get(s.current, p) }

  predicate NoDispose(actions: seq<Action>) { forall a :: a in actions ==> !a.Dispose? }

  lemma PendingStep(d: Differ, initial: map<Path, Content>, s: Editor, a: Action)
    requires Correct(d) && Inv(d, initial, s) && Proper(initial, s, a) && OnlyTimersPending(s) && !a.Dispose?
    ensures OnlyTimersPending(Step(d, s, a))
  {
    match a
    case Track(path, content) =>
    case Edit(path, content) =>
    case ApplyAI(path, content, promptId) => AIKeeps(d, initial, s, path, content, promptId);
    case Fire(path) => FlushPathKeeps(d, initial, s, path);
    case Flush => FlushPathsKeep(d, initial, s, s.timers);
  }

  lemma {:induction false} PendingRun(d: Differ, initial: map<Path, Content>, s: Editor, actions: seq<Action>)
    requires Correct(d) && Inv(d, initial, s) && ProperRun(d, initial, s, actions) && OnlyTimersPending(s) && NoDispose(actions)
    ensures OnlyTimersPending(Run(d, s, actions))
    decreases |actions|
  {
    if actions != [] {
      assert actions[0] in actions;
      PendingStep(d, initial, s, actions[0]);
      InvStep(d, initial, s, actions[0]);
      PendingRun(d, initial, Step(d, s, actions[0]), actions[1..]);
    }
  }

  lemma NoneIn(timers: seq<Path>)
    ensures timers == [] || exists p :: p in timers
  {
    if timers != [] { assert timers[0] in timers; }
  }

  /** After a flush every file is posted as the editor shows it. */
  lemma FlushPostsEverything(d: Differ, initial: map<Path, Content>, actions: seq<Action>, path: Path)
    requires Correct(d) && ProperRun(d, initial, NEW, actions) && NoDispose(actions)
    ensures
      var s := Flushed(d, Run(d, NEW, actions));
      s.timers == [] && Get(s.posted, path) == Get(s.current, path) == Get(Run(d, NEW, actions).current, path)
  {
    InvRun(d, initial, NEW, actions);
    PendingRun(d, initial, NEW, actions);
    var s := Run(d, NEW, actions);
    FlushPathsKeep(d, initial, s, s.timers);
    NoneIn(Flushed(d, s).timers);
  }

  // ---- An AI diff contains nothing but the suggestion ----

  /** The base of the patch that an applied suggestion posts is the editor's
    * content just before, so the patch contains no manual edit, exactly when the
    * file has its timer or nothing unposted. */
  lemma AIDiffIsPureIff(d: Differ, initial: map<Path, Content>, s: Editor, path: Path, content: Content, promptId: string)
    requires Correct(d) && Inv(d, initial, s) && Editable(initial, s, path)
    ensures
      var base := Get(FlushedPath(d, s, path).posted, path);
      var s' := AIApplication(d, s, path, content, promptId);
      && (base == Get(s.current, path) <==> path in s.timers || Get(s.posted, path) == Get(s.current, path))
      && (content == base ==> s'.queue == FlushedPath(d, s, path).queue)
      && (content != base ==>
            && |s'.queue| == |FlushedPath(d, s, path).queue| + 1
            && s'.queue[|s'.queue| - 1].origin == AIApplied
            && d.make(path, base, content) == Some(s'.queue[|s'.queue| - 1].patch))
  {
    FlushPathKeeps(d, initial, s, path);
    var flushed := FlushedPath(d, s, path);
    assert d.make(path, Get(flushed.posted, path), content) == None <==> Get(flushed.posted, path) == content;
  }

  /** So without disposals it never contains one. */
  lemma AIDiffsArePure(d: Differ, initial: map<Path, Content>, actions: seq<Action>, path: Path)
    requires Correct(d) && ProperRun(d, initial, NEW, actions) && NoDispose(actions)
    ensures
      var s := Run(d, NEW, actions);
      Get(FlushedPath(d, s, path).posted, path) == Get(s.current, path)
  {
    InvRun(d, initial, NEW, actions);
    PendingRun(d, initial, NEW, actions);
    FlushPathKeeps(d, initial, Run(d, NEW, actions), path);
  }

  /** A disposed timer is what it takes: the suggestion's only post leads from the
    * starter, not from the manual edit the editor showed. */
  lemma DisposedEditJoinsAIDiff(d: Differ, path: Path, starter: Content, manual: Content, suggested: Content, promptId: string)
    requires Correct(d) && path != "" && manual != starter && suggested != starter
    ensures
      var initial := map[path := starter];
      var edits := [Track(path, starter), Edit(path, manual), Dispose];
      var s, s' := Run(d, NEW, edits), Run(d, NEW, edits + [ApplyAI(path, suggested, promptId)]);
      && ProperRun(d, initial, NEW, edits + [ApplyAI(path, suggested, promptId)])
      && Get(s.current, path) == manual && s.queue == []
      && |s'.queue| == 1 && s'.queue[0].origin == AIApplied && d.make(path, starter, suggested) == Some(s'.queue[0].patch)
  {
    var initial := map[path := starter];
    var edits := [Track(path, starter), Edit(path, manual), Dispose];
    var all := edits + [ApplyAI(path, suggested, promptId)];
    var s1 := Tracked(NEW, path, starter);
    var s2 := Edited(s1, path, manual);
    var s3 := s2.(timers := []);
    assert edits[0..] == edits && all[0..] == all && edits[3..] == [] && all[4..] == [];
    RunFrom(d, initial, NEW, edits, 0);
    RunFrom(d, initial, s1, edits, 1);
    RunFrom(d, initial, s2, edits, 2);
    RunFrom(d, initial, NEW, all, 0);
    RunFrom(d, initial, s1, all, 1);
    RunFrom(d, initial, s2, all, 2);
    RunFrom(d, initial, s3, all, 3);
    assert d.make(path, starter, suggested).Some?;
  }

  // ---- The server ----

  /** What RecordDiff keeps: the last client number it took, the interview's last
    * sequence number, and the events it logged. */
  datatype Server = Server(lastClientSeq: nat, lastSeqNo: nat, log: seq<Event>)

  /** One post; other events may have been numbered since the last one. A post
    * with a client number that is not higher than the last is dropped. */
  function RecordDiff(server: Server, r: Request, others: nat): Server {
    var seqNo := server.lastSeqNo + others;
    if r.clientSeq <= server.lastClientSeq then server.(lastSeqNo := seqNo)
    else Server(r.clientSeq, seqNo + 1, server.log + [Event(seqNo + 1, CodeDiff, r.origin, Some(r.path), Some(r.patch))])
  }

  /** The posts reach the server one at a time and in order; some never do. */
  datatype Delivery = Lost | Arrived(others: nat)

  function Delivered(queue: seq<Request>, fates: seq<Delivery>): Server
    requires |queue| == |fates|
  {
    if queue == [] then Server(0, 0, [])
    else
      var n := |queue| - 1;
      var server := Delivered(queue[..n], fates[..n]);
      if fates[n].Lost? then server else RecordDiff(server, queue[n], fates[n].others)
  }

  function Arrivals(queue: seq<Request>, fates: seq<Delivery>): seq<Request>
    requires |queue| == |fates|
  {
    if queue == [] then []
    else
      var n := |queue| - 1;
      if fates[n].Lost? then Arrivals(queue[..n], fates[..n]) else Arrivals(queue[..n], fates[..n]) + [queue[n]]
  }

  predicate Matches(e: Event, r: Request) {
    e.kind == CodeDiff && e.origin == r.origin && e.path == Some(r.path) && e.patch == Some(r.patch)
  }

  ghost predicate Records(log: seq<Event>, posts: seq<Request>) {
    |log| == |posts| && forall i :: 0 <= i < |log| ==> Matches(log[i], posts[i])
  }

  ghost predicate Climbing(events: seq<Event>) { forall i, j :: 0 <= i < j < |events| ==> events[i].seqNo < events[j].seqNo }
  ghost predicate ClientOrder(posts: seq<Request>) { forall i, j :: 0 <= i < j < |posts| ==> posts[i].clientSeq < posts[j].clientSeq }

  ghost predicate ServerOk(server: Server, posts: seq<Request>) {
    && Records(server.log, posts) && Climbing(server.log) && ClientOrder(posts)
    && (forall i :: 0 <= i < |server.log| ==> server.log[i].seqNo <= server.lastSeqNo)
    && (forall i :: 0 <= i < |posts| ==> posts[i].clientSeq <= server.lastClientSeq)
  }

  lemma ArrivalKeeps(server: Server, posts: seq<Request>, r: Request, others: nat)
    requires ServerOk(server, posts) && r.clientSeq > server.lastClientSeq
    ensures ServerOk(RecordDiff(server, r, others), posts + [r]) && RecordDiff(server, r, others).lastClientSeq == r.clientSeq
  {
    var server', posts' := RecordDiff(server, r, others), posts + [r];
    assert Records(server'.log, posts');
    assert ClientOrder(posts');
  }

  /** The guard never drops one of our posts: whatever is lost on the way, the log
    * holds exactly those that arrived, and client and interview numbers put them
    * in the same order. */
  lemma {:induction false} GuardAcceptsEveryArrival(s: Editor, n: nat, fates: seq<Delivery>)
    requires InSequence(s) && n <= |s.queue| && |fates| == n
    ensures ServerOk(Delivered(s.queue[..n], fates), Arrivals(s.queue[..n], fates))
    ensures Delivered(s.queue[..n], fates).lastClientSeq <= n
  {
    if n > 0 {
      var queue := s.queue[..n];
      assert queue[..n - 1] == s.queue[..n - 1];
      GuardAcceptsEveryArrival(s, n - 1, fates[..n - 1]);
      if fates[n - 1].Arrived? {
        ArrivalKeeps(Delivered(queue[..n - 1], fates[..n - 1]), Arrivals(queue[..n - 1], fates[..n - 1]), queue[n - 1], fates[n - 1].others);
      }
    }
  }

  lemma {:induction false} AllArrive(queue: seq<Request>, fates: seq<Delivery>)
    requires |queue| == |fates| && forall f :: f in fates ==> f.Arrived?
    ensures Arrivals(queue, fates) == queue
  {
    if queue != [] {
      var n := |queue| - 1;
      AllArrive(queue[..n], fates[..n]);
      assert fates[n] in fates;
      assert queue == queue[..n] + [queue[n]];
    }
  }

  // ---- Replay of the log ----

  function OnlyDiffs(events: seq<Event>): seq<Event> {
    if events == [] then []
    else if events[|events| - 1].kind == CodeDiff then OnlyDiffs(events[..|events| - 1]) + [events[|events| - 1]]
    else OnlyDiffs(events[..|events| - 1])
  }

  function AICount(posts: seq<Request>): nat {
    if posts == [] then 0 else AICount(posts[..|posts| - 1]) + if posts[|posts| - 1].origin == AIApplied then 1 else 0
  }

  lemma PlayOne(d: Differ, s: State, e: Event, r: Request)
    requires Matches(e, r) && r.path != "" && r.patch != "" && d.apply(Get(s.files, r.path), r.patch).Some?
    ensures
      var s' := Played(d, s, e);
      && s'.files == s.files[r.path := d.apply(Get(s.files, r.path), r.patch).value] && s'.failed == s.failed
      && s'.diffs == s.diffs + 1 && s'.aiApplied == s.aiApplied + if r.origin == AIApplied then 1 else 0
  {
  }

  predicate Postable(posts: seq<Request>) { forall r :: r in posts ==> r.path != "" && r.patch != "" }

  /** Replaying a timeline whose diffs are these posts rebuilds their files, with
    * no failed patch; other events leave the files alone. */
  lemma {:induction false} PlayIsFiles(d: Differ, initial: map<Path, Content>, events: seq<Event>, posts: seq<Request>)
    requires Records(OnlyDiffs(events), posts) && FilesAfter(d, initial, posts).Some? && Postable(posts)
    ensures
      var s := PlayedAll(d, Start(initial), events);
      s.files == FilesAfter(d, initial, posts).value && s.failed == [] && s.diffs == |posts| && s.aiApplied == AICount(posts)
    decreases |events|
  {
    if events != [] {
      var n, e := |events| - 1, events[|events| - 1];
      if e.kind == CodeDiff {
        var k := |posts| - 1;
        assert OnlyDiffs(events)[k] == e && OnlyDiffs(events)[..k] == OnlyDiffs(events[..n]);
        assert posts[k] in posts;
        assert Records(OnlyDiffs(events[..n]), posts[..k]);
        PlayIsFiles(d, initial, events[..n], posts[..k]);
        PlayOne(d, PlayedAll(d, Start(initial), events[..n]), e, posts[k]);
      } else {
        PlayIsFiles(d, initial, events[..n], posts);
      }
    }
  }

  lemma {:induction false} OnlyDiffsHas(events: seq<Event>, e: Event)
    ensures e in OnlyDiffs(events) <==> e in events && e.kind == CodeDiff
  {
    if events != [] {
      OnlyDiffsHas(events[..|events| - 1], e);
      assert events == events[..|events| - 1] + [events[|events| - 1]];
    }
  }

  lemma {:induction false} OnlyDiffsClimb(events: seq<Event>)
    requires Climbing(events)
    ensures Climbing(OnlyDiffs(events))
  {
    if events != [] {
      var n := |events| - 1;
      OnlyDiffsClimb(events[..n]);
      forall e | e in OnlyDiffs(events[..n]) ensures e.seqNo < events[n].seqNo {
        OnlyDiffsHas(events[..n], e);
      }
    }
  }

  /** A timeline of the interview: the log's diffs and any other events, in any
    * order, no two with one number. */
  ghost predicate TimelineOf(timeline: seq<Event>, log: seq<Event>) {
    && (forall i, j :: 0 <= i < j < |timeline| ==> timeline[i].seqNo != timeline[j].seqNo)
    && (forall e :: e in timeline && e.kind == CodeDiff <==> e in log)
  }

  lemma SoonerIsAnOrder()
    ensures StrictWeak(Sooner)
  {
  }

  ghost predicate Distinct(events: seq<Event>) { forall i, j :: 0 <= i < j < |events| ==> events[i].seqNo != events[j].seqNo }

  lemma SortedClimbs(timeline: seq<Event>)
    requires Distinct(timeline)
    ensures Climbing(Sort(timeline, Sooner)) && forall e :: e in Sort(timeline, Sooner) <==> e in timeline
  {
    var ordered := Sort(timeline, Sooner);
    SoonerIsAnOrder();
    SortIsSorted(timeline, Sooner);
    forall e ensures e in ordered <==> e in timeline {
      assert e in multiset(ordered) <==> e in multiset(timeline);
    }
    forall i, j | 0 <= i < j < |ordered| ensures ordered[i].seqNo < ordered[j].seqNo {
      assert !Sooner(ordered[j], ordered[i]);
      assert ordered[i] in timeline && ordered[j] in timeline;
      AtMostOnce(timeline, ordered[i]);
      assert ordered[i] != ordered[j] by {
        if ordered[i] == ordered[j] { Twice(ordered, i, j); }
      }
    }
  }

  /** The diffs of the sorted timeline, up to a position, are the log up to it. */
  lemma DiffsUpTo(timeline: seq<Event>, log: seq<Event>, upTo: int, k: nat)
    requires TimelineOf(timeline, log) && Climbing(log) && k <= |log|
    requires forall i :: 0 <= i < |log| ==> (log[i].seqNo <= upTo <==> i < k)
    ensures
      var ordered := Sort(timeline, Sooner);
      OnlyDiffs(ordered[..Position(ordered, upTo)]) == log[..k]
  {
    var ordered := Sort(timeline, Sooner);
    SortedClimbs(timeline);
    var at := Position(ordered, upTo);
    OnlyDiffsClimb(ordered[..at]);
    forall e ensures e in OnlyDiffs(ordered[..at]) <==> e in log[..k] {
      OnlyDiffsHas(ordered[..at], e);
      if e in ordered[..at] && e.kind == CodeDiff {
        assert e in timeline;
        var i :| 0 <= i < |log| && log[i] == e;
        assert e in log[..k];
      }
      if e in log[..k] {
        assert e in timeline;
        var i :| 0 <= i < |ordered| && ordered[i] == e;
        assert i < at;
      }
    }
    SoonerIsAnOrder();
    AscendsUnique(OnlyDiffs(ordered[..at]), log[..k], Sooner);
  }

  lemma LogIsQueue(s: Editor, fates: seq<Delivery>)
    requires InSequence(s) && |fates| == |s.queue| && forall f :: f in fates ==> f.Arrived?
    ensures ServerOk(Delivered(s.queue, fates), s.queue)
  {
    assert s.queue[..|s.queue|] == s.queue;
    GuardAcceptsEveryArrival(s, |s.queue|, fates);
    AllArrive(s.queue, fates);
  }

  lemma ReplayIsFiles(d: Differ, initial: map<Path, Content>, moment: Editor, log: seq<Event>, posts: seq<Request>, timeline: seq<Event>, upTo: int)
    requires Inv(d, initial, moment) && moment.queue <= posts && Records(log, posts) && Climbing(log) && TimelineOf(timeline, log)
    requires forall i :: 0 <= i < |log| ==> (log[i].seqNo <= upTo <==> i < |moment.queue|)
    ensures
      var s := Replayed(d, timeline, initial, upTo);
      && s.files == FilesAfter(d, initial, moment.queue).value
      && s.failed == [] && s.diffs == |moment.queue| && s.aiApplied == AICount(moment.queue)
  {
    var k := |moment.queue|;
    var ordered := Sort(timeline, Sooner);
    DiffsUpTo(timeline, log, upTo, k);
    assert Records(log[..k], moment.queue);
    PlayIsFiles(d, initial, ordered[..Position(ordered, upTo)], moment.queue);
  }

  /** End to end. Every post arrives; the timeline holds them among any other
    * events, in any order. Replaying up to a position shows, for every file, the
    * content last posted at the moment whose posts that position includes; the
    * whole timeline shows what is posted now. No patch fails. */
  lemma ReplayShowsWhatWasPosted(d: Differ, initial: map<Path, Content>, moment: Editor, end: Editor, later: seq<Action>,
                                 fates: seq<Delivery>, log: seq<Event>, timeline: seq<Event>, upTo: int, path: Path)
    requires Correct(d) && Reached(d, initial, moment) && ProperRun(d, initial, moment, later) && end == Run(d, moment, later)
    requires |fates| == |end.queue| && (forall f :: f in fates ==> f.Arrived?) && log == Delivered(end.queue, fates).log
    requires TimelineOf(timeline, log) && forall i :: 0 <= i < |log| ==> (log[i].seqNo <= upTo <==> i < |moment.queue|)
    ensures
      var s := Replayed(d, timeline, initial, upTo);
      Get(s.files, path) == Shown(initial, moment, path) && s.failed == [] && s.diffs == |moment.queue| && s.aiApplied == AICount(moment.queue)
  {
    ReachedInv(d, initial, moment);
    InvRun(d, initial, moment, later);
    LogIsQueue(end, fates);
    ReplayIsFiles(d, initial, moment, log, end.queue, timeline, upTo);
  }

  /** A flush makes replay current: with every post arrived, replaying the whole
    * timeline shows each file as the editor has it. */
  lemma ReplayAfterFlushShowsEditor(d: Differ, initial: map<Path, Content>, actions: seq<Action>,
                                    fates: seq<Delivery>, timeline: seq<Event>, upTo: int, path: Path)
    requires Correct(d) && ProperRun(d, initial, NEW, actions) && NoDispose(actions)
    requires Whole(Flushed(d, Run(d, NEW, actions)), fates, timeline, upTo) && path in Run(d, NEW, actions).current
    ensures var s := Replayed(d, timeline, initial, upTo);
      Get(s.files, path) == Get(Run(d, NEW, actions).current, path) && s.failed == []
  {
    var s := Run(d, NEW, actions);
    InvRun(d, initial, NEW, actions);
    FlushPathsKeep(d, initial, s, s.timers);
    FlushPostsEverything(d, initial, actions, path);
    WholeShows(d, initial, Flushed(d, s), fates, timeline, upTo);
  }

  /** A timeline that holds every post of the editor, all up to the position. */
  ghost predicate Whole(s: Editor, fates: seq<Delivery>, timeline: seq<Event>, upTo: int) {
    && |fates| == |s.queue| && (forall f :: f in fates ==> f.Arrived?)
    && TimelineOf(timeline, Delivered(s.queue, fates).log)
    && (forall e :: e in Delivered(s.queue, fates).log ==> e.seqNo <= upTo)
  }

  lemma WholeShows(d: Differ, initial: map<Path, Content>, s: Editor, fates: seq<Delivery>, timeline: seq<Event>, upTo: int)
    requires Inv(d, initial, s) && Whole(s, fates, timeline, upTo)
    ensures var replayed := Replayed(d, timeline, initial, upTo);
      replayed.failed == [] && forall p :: Get(replayed.files, p) == Shown(initial, s, p)
  {
    LogIsQueue(s, fates);
    ReplayIsFiles(d, initial, s, Delivered(s.queue, fates).log, s.queue, timeline, upTo);
  }

  // ---- Tracking a file again ----

  /** Two editors whose posts so far and other files are the same, and which have
    * nothing to post for one path, whatever they show for it. */
  ghost predicate SameBut(a: Editor, b: Editor, path: Path) {
    && a.queue == b.queue && a.sequence == b.sequence && a.timers == b.timers
    && (forall p :: p != path ==> Get(a.posted, p) == Get(b.posted, p) && Get(a.current, p) == Get(b.current, p))
    && Get(a.posted, path) == Get(a.current, path) && Get(b.posted, path) == Get(b.current, path)
  }

  lemma {:induction false} SamePosts(d: Differ, a: Editor, b: Editor, path: Path, paths: seq<Path>)
    requires Correct(d) && SameBut(a, b, path)
    ensures SameBut(FlushedPaths(d, a, paths), FlushedPaths(d, b, paths), path)
    ensures Get(FlushedPaths(d, a, paths).current, path) == Get(a.current, path)
    decreases |paths|
  {
    if paths != [] {
      SamePost(d, a, b, path, paths[0]);
      SamePosts(d, FlushedPath(d, a, paths[0]), FlushedPath(d, b, paths[0]), path, paths[1..]);
    }
  }

  lemma SamePost(d: Differ, a: Editor, b: Editor, path: Path, flushed: Path)
    requires Correct(d) && SameBut(a, b, path)
    ensures SameBut(FlushedPath(d, a, flushed), FlushedPath(d, b, flushed), path)
    ensures Get(FlushedPath(d, a, flushed).current, path) == Get(a.current, path)
  {
    if flushed in a.timers {
      if flushed == path {
        assert d.make(path, Get(a.current, path), Get(a.current, path)) == None;
        assert d.make(path, Get(b.current, path), Get(b.current, path)) == None;
      } else {
        SameEnqueue(d, a.(timers := Without(a.timers, flushed)), b.(timers := Without(b.timers, flushed)), path, flushed);
      }
    }
  }

  lemma SameEnqueue(d: Differ, a: Editor, b: Editor, path: Path, flushed: Path)
    requires SameBut(a, b, path) && flushed != path
    ensures SameBut(Enqueued(d, a, flushed, Manual, None), Enqueued(d, b, flushed, Manual, None), path)
    ensures Enqueued(d, a, flushed, Manual, None).current == a.current
  {
    var a', b' := Enqueued(d, a, flushed, Manual, None), Enqueued(d, b, flushed, Manual, None);
    forall p | p != path ensures Get(a'.posted, p) == Get(b'.posted, p) {
      assert Get(a.posted, p) == Get(b.posted, p) && Get(a.current, p) == Get(b.current, p);
    }
  }

  /** Tracking a file again and flushing: with every post arrived, replaying the
    * whole timeline shows what was posted before for that file. So it shows what
    * the editor does exactly when the file was tracked at what the log showed. */
  lemma RetrackedReplayIff(d: Differ, initial: map<Path, Content>, s: Editor, path: Path, content: Content,
                           fates: seq<Delivery>, timeline: seq<Event>, upTo: int)
    requires Correct(d) && Inv(d, initial, s) && Whole(Flushed(d, Tracked(s, path, content)), fates, timeline, upTo)
    ensures
      var editor, replayed := Flushed(d, Tracked(s, path, content)), Replayed(d, timeline, initial, upTo);
      && Get(editor.current, path) == content && Get(replayed.files, path) == Shown(initial, s, path)
      && (Get(replayed.files, path) == Get(editor.current, path) <==> content == Shown(initial, s, path))
  {
    var shown := Shown(initial, s, path);
    var kept, t := Tracked(s, path, shown), Tracked(s, path, content);
    InvStep(d, initial, s, Track(path, shown));
    SamePosts(d, t, kept, path, s.timers);
    SamePosts(d, kept, t, path, s.timers);
    FlushPathsKeep(d, initial, kept, s.timers);
    WholeShows(d, initial, Flushed(d, kept), fates, timeline, upTo);
    NothingToPost(d, kept, path, s.timers);
  }

  lemma {:induction false} NothingToPost(d: Differ, s: Editor, path: Path, paths: seq<Path>)
    requires Correct(d) && path in s.posted && s.posted[path] == Get(s.current, path)
    ensures path in FlushedPaths(d, s, paths).posted && FlushedPaths(d, s, paths).posted[path] == s.posted[path]
    decreases |paths|
  {
    if paths != [] {
      var next := FlushedPath(d, s, paths[0]);
      assert path in next.posted && next.posted[path] == s.posted[path] == Get(next.current, path) by {
        assert d.make(path, s.posted[path], s.posted[path]) == None;
      }
      NothingToPost(d, next, path, paths[1..]);
    }
  }

  /** What the workspace does when a candidate edits a file, switches to the other
    * language and back. */
  function SwitchBack(file: Path, other: Path, starter: Content, otherStarter: Content, edited: Content): seq<Action> {
    [Track(file, starter), Track(other, otherStarter), Edit(file, edited), Flush, Track(other, otherStarter), Flush]
  }

  lemma OneEditFlushed(d: Differ, s: Editor, path: Path, content: Content)
    requires Correct(d) && s.timers == [] && content != Get(s.posted, path)
    ensures
      var s' := Flushed(d, Edited(s, path, content));
      s'.timers == [] && s'.posted == s.posted[path := content] && s'.current == s.current[path := content]
  {
    var edited := Edited(s, path, content);
    assert edited.timers == [path] && [path][1..] == [] && Without([path], path) == [];
    assert d.make(path, Get(s.posted, path), content).Some?;
    var next := FlushedPath(d, edited, path);
    assert next.timers == [] && next.posted == s.posted[path := content];
    assert Flushed(d, edited) == FlushedPaths(d, next, []);
  }

  lemma SwitchBackState(d: Differ, file: Path, other: Path, starter: Content, otherStarter: Content, edited: Content)
    requires Correct(d) && file != "" && file != other && edited != starter
    ensures
      var initial := map[file := starter, other := otherStarter];
      var s := Run(d, NEW, SwitchBack(file, other, starter, otherStarter, edited));
      Inv(d, initial, s) && s.timers == [] && file in s.posted && s.posted[file] == edited
  {
    var initial := map[file := starter, other := otherStarter];
    var steps := SwitchBack(file, other, starter, otherStarter, edited);
    var s2 := Tracked(Tracked(NEW, file, starter), other, otherStarter);
    var s3 := Edited(s2, file, edited);
    OneEditFlushed(d, s2, file, edited);
    var s4 := Flushed(d, s3);
    var s5 := Tracked(s4, other, otherStarter);
    assert FlushedPaths(d, s5, []) == s5;
    assert steps[0..] == steps && steps[6..] == [];
    RunFrom(d, initial, NEW, steps, 0);
    RunFrom(d, initial, Tracked(NEW, file, starter), steps, 1);
    RunFrom(d, initial, s2, steps, 2);
    RunFrom(d, initial, s3, steps, 3);
    RunFrom(d, initial, s4, steps, 4);
    RunFrom(d, initial, s5, steps, 5);
    InvRun(d, initial, NEW, steps);
  }

  /** Back at the first language the editor shows the starter again, and replay
    * goes on showing the edit, flushed or not. */
  lemma SwitchingBackIsNotReplayed(d: Differ, file: Path, other: Path, starter: Content, otherStarter: Content, edited: Content,
                                   fates: seq<Delivery>, timeline: seq<Event>, upTo: int)
    requires Correct(d) && file != "" && file != other && edited != starter
    requires
      var s := Run(d, NEW, SwitchBack(file, other, starter, otherStarter, edited));
      Whole(Flushed(d, Tracked(s, file, starter)), fates, timeline, upTo)
    ensures
      var s := Run(d, NEW, SwitchBack(file, other, starter, otherStarter, edited));
      var initial := map[file := starter, other := otherStarter];
      && Get(Flushed(d, Tracked(s, file, starter)).current, file) == starter
      && Get(Replayed(d, timeline, initial, upTo).files, file) == edited
  {
    SwitchBackState(d, file, other, starter, otherStarter, edited);
    var s := Run(d, NEW, SwitchBack(file, other, starter, otherStarter, edited));
    RetrackedReplayIff(d, map[file := starter, other := otherStarter], s, file, starter, fates, timeline, upTo);
  }

  /** A state of a proper use of the editor. */
  ghost predicate Reached(d: Differ, initial: map<Path, Content>, s: Editor) {
    exists actions :: ProperRun(d, initial, NEW, actions) && s == Run(d, NEW, actions)
  }

  lemma ReachedInv(d: Differ, initial: map<Path, Content>, s: Editor)
    requires Correct(d) && Reached(d, initial, s)
    ensures Inv(d, initial, s)
  {
    var actions :| ProperRun(d, initial, NEW, actions) && s == Run(d, NEW, actions);
    InvRun(d, initial, NEW, actions);
  }
}
