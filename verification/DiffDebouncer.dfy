/** The client side of the diff pipeline: editor changes become ordered posts.
  *
  * Making and applying a patch are a foreign primitive, given as two functions.
  */
module DiffDebouncer {
  import opened Prelude

  type Path = string
  type Content = string
  type Patch = string

  datatype Differ = Differ(make: (Path, Content, Content) -> Option<Patch>, apply: (Content, Patch) -> Option<Content>)

  /** What is assumed of the primitive: equal contents make no patch, different
    * ones make a patch that leads from the first to the second. */
  ghost predicate Correct(d: Differ) {
    forall p, a, b ::
      && (d.make(p, a, b) == None <==> a == b)
      && (d.make(p, a, b).Some? ==> d.make(p, a, b).value != "" && d.apply(a, d.make(p, a, b).value) == Some(b))
  }

  datatype Origin = Manual | AIApplied
  datatype Request = Request(clientSeq: nat, origin: Origin, path: Path, patch: Patch, promptId: Option<string>)

  /** The debouncer's state: timers in the order they were set, and every post
    * queued so far. Posts are sent one at a time in that order. */
  datatype Editor = Editor(posted: map<Path, Content>, current: map<Path, Content>, timers: seq<Path>, sequence: nat, queue: seq<Request>)

  function Get(files: map<Path, Content>, path: Path): Content { if path in files then files[path] else "" }

  function Without(timers: seq<Path>, path: Path): (r: seq<Path>)
    ensures forall p :: p in r <==> p in timers && p != path
    ensures |r| <= |timers|
  {
    if timers == [] then []
    else if timers[0] == path then Without(timers[1..], path)
    else [timers[0]] + Without(timers[1..], path)
  }

  function Tracked(s: Editor, path: Path, content: Content): Editor {
    s.(posted := s.posted[path := content], current := s.current[path := content])
  }

  function Edited(s: Editor, path: Path, content: Content): Editor {
    s.(current := s.current[path := content], timers := if path in s.timers then s.timers else s.timers + [path])
  }

  function Enqueued(d: Differ, s: Editor, path: Path, origin: Origin, promptId: Option<string>): Editor {
    var patch := d.make(path, Get(s.posted, path), Get(s.current, path));
    if patch.None? then s
    else s.(posted := s.posted[path := Get(s.current, path)], sequence := s.sequence + 1,
            queue := s.queue + [Request(s.sequence + 1, origin, path, patch.value, if promptId == Some("") then None else promptId)])
  }

  /** A pending manual edit is posted now: by flushing it, or by its timer. */
  function FlushedPath(d: Differ, s: Editor, path: Path): Editor {
    if path !in s.timers then s else Enqueued(d, s.(timers := Without(s.timers, path)), path, Manual, None)
  }

  function FlushedPaths(d: Differ, s: Editor, paths: seq<Path>): Editor
    decreases |paths|
  {
    if paths == [] then s else FlushedPaths(d, FlushedPath(d, s, paths[0]), paths[1..])
  }

  function Flushed(d: Differ, s: Editor): Editor { FlushedPaths(d, s, s.timers) }

  function AIApplication(d: Differ, s: Editor, path: Path, content: Content, promptId: string): Editor {
    var flushed := FlushedPath(d, s, path);
    Enqueued(d, flushed.(current := flushed.current[path := content]), path, AIApplied, Some(promptId))
  }

  class Debouncer {
    const d: Differ
    var posted: map<Path, Content>
    var current: map<Path, Content>
    var timers: seq<Path>
    var sequence: nat
    var queue: seq<Request>

    function State(): Editor
      reads this
    {
      Editor(posted, current, timers, sequence, queue)
    }

    constructor (d: Differ)
      ensures this.d == d && State() == Editor(map[], map[], [], 0, [])
    {
      this.d := d;
      posted, current, timers, sequence, queue := map[], map[], [], 0, [];
    }

    method Track(path: Path, content: Content)
      modifies this`posted, this`current
      ensures State() == Tracked(old(State()), path, content)
    {
      posted := posted[path := content];
      current := current[path := content];
    }

    /** Restarting a timer keeps its place. */
    method Edit(path: Path, content: Content)
      modifies this`current, this`timers
      ensures State() == Edited(old(State()), path, content)
    {
      current := current[path := content];
      if path !in timers {
        timers := timers + [path];
      }
    }

    method Enqueue(path: Path, origin: Origin, promptId: Option<string>)
      modifies this`posted, this`sequence, this`queue
      ensures State() == Enqueued(d, old(State()), path, origin, promptId)
    {
      var before, after := Get(posted, path), Get(current, path);
      var patch := d.make(path, before, after);
      if patch.None? {
        return;
      }
      posted := posted[path := after];
      sequence := sequence + 1;
      var request := Request(sequence, origin, path, patch.value, None);
      if promptId.Some? && promptId.value != "" {
        request := request.(promptId := promptId);
      }
      queue := queue + [request];
    }

    /** Also what a timer does when it fires. */
    method FlushPath(path: Path)
      modifies this`posted, this`timers, this`sequence, this`queue
      ensures State() == FlushedPath(d, old(State()), path)
    {
      if path !in timers {
        return;
      }
      timers := Without(timers, path);
      Enqueue(path, Manual, None);
    }

    method ApplyAI(path: Path, content: Content, promptId: string)
      modifies this
      ensures State() == AIApplication(d, old(State()), path, content, promptId)
    {
      FlushPath(path);
      current := current[path := content];
      Enqueue(path, AIApplied, Some(promptId));
    }

    method Flush()
      modifies this`posted, this`timers, this`sequence, this`queue
      ensures State() == Flushed(d, old(State()))
    {
      var paths := timers;
      for i := 0 to |paths|
        invariant FlushedPaths(d, State(), paths[i..]) == Flushed(d, old(State()))
      {
        assert paths[i..][1..] == paths[i + 1..];
        FlushPath(paths[i]);
      }
    }

    method Dispose()
      modifies this`timers
      ensures State() == old(State()).(timers := [])
    {
      timers := [];
    }
  }
}
