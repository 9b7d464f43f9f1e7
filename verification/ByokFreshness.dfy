/** How fresh a resolved provider key is, over every interleaving of calls.
  *
  * One company's secret, cache slot and calls. An action is one critical section
  * of the resolver, one answer of the secret store, a rotation, or the clock
  * moving on; every action adds one instant to the log. Companies share nothing
  * but the mutex, so one is enough.
  */
module ByokFreshness {
  import opened Prelude

  type Version = string

  /** What is true at one instant: the store's current version, the clock, and
    * whether a load is in flight. */
  datatype Instant = Instant(secret: Option<Version>, clock: int, busy: bool)
  type Log = l: seq<Instant> | l != [] witness [Instant(None, 0, false)]

  /** Evidence for a version: the store was read at `seen`, by a load in flight
    * from after `from` until `to`, or by a check (all three equal). */
  datatype Window = Window(from: nat, seen: nat, to: nat)

  /** A cache entry, numbered by the load that made it. */
  datatype Entry = Entry(id: nat, version: Version, expires: int, checkedAt: int, loaded: Window, checked: Window)

  datatype Load = Load(id: nat, owner: nat, from: nat)
  datatype Outcome = LoadFailed | LoadGot(version: Version, window: Window)
  datatype Cache = Cache(entry: Option<Entry>, load: Option<Load>, finished: map<nat, Outcome>, nextLoad: nat)

  /** Where a call is between two critical sections. */
  datatype Pc =
    | Started
    | Looked(e: Entry)
    | Confirmed(e: Entry, seen: nat)
    | Rotated(e: Entry)
    | Missing
    | Copying(e: Entry, evidence: Window)
    | Loading
    | Fetching
    | Fetched(version: Version, seen: nat)
    | FetchFailed
    | Waiting(id: nat)
    | Returned(version: Version, evidence: Window)
    | Failed

  datatype Call = Call(began: nat, pc: Pc)
  datatype World = World(log: Log, cache: Cache, calls: map<nat, Call>)
  datatype Config = Config(ttl: int, versionCheck: int)

  datatype Action =
    | Tick(elapsed: nat)
    | Rotate(secret: Option<Version>)
    | Begin(c: nat)
    | Lookup(c: nat)
    | CheckVersion(c: nat, ok: bool)
    | Act(c: nat)
    | EnterLoad(c: nat)
    | Get(c: nat, ok: bool)
    | Finish(c: nat)
    | Wake(c: nat)
    | Cancel(c: nat)
    | Invalidate
    | Sweep(now: int)

  function Now(w: World): nat { |w.log| - 1 }
  function Current(w: World): Instant { w.log[Now(w)] }

  /** A new instant after a change to the cache and one call. */
  function Moved(w: World, cache: Cache, calls: map<nat, Call>): World {
    World(w.log + [Current(w).(busy := cache.load.Some?)], cache, calls)
  }

  function Goto(w: World, c: nat, pc: Pc): map<nat, Call>
    requires c in w.calls
  {
    w.calls[c := w.calls[c].(pc := pc)]
  }

  predicate At(w: World, c: nat, p: Pc -> bool) { c in w.calls && p(w.calls[c].pc) }

  function Evicted(cache: Cache): Cache { cache.(entry := None) }
  predicate Holds(cache: Cache, id: nat) { cache.entry.Some? && cache.entry.value.id == id }

  /** The first section of ResolveKey; its clock was read when the call began. */
  function LookupStep(w: World, c: nat, config: Config): World
    requires c in w.calls && w.calls[c].began <= Now(w)
  {
    var now := w.log[w.calls[c].began].clock;
    if w.cache.entry.None? || !(now < w.cache.entry.value.expires) then
      Moved(w, Evicted(w.cache), Goto(w, c, Loading))
    else
      var e := w.cache.entry.value;
      if now - e.checkedAt < config.versionCheck then
        Moved(w, w.cache, Goto(w, c, Copying(e, e.checked)))
      else
        Moved(w, w.cache, Goto(w, c, Looked(e)))
  }

  /** CurrentVersion is answered with what the store holds now, or fails. */
  function CheckStep(w: World, c: nat, ok: bool): World
    requires At(w, c, (p: Pc) => p.Looked?)
  {
    var e := w.calls[c].pc.e;
    var pc :=
      if !ok then Failed
      else if Current(w).secret.None? then Missing
      else if Current(w).secret.value == e.version then Confirmed(e, Now(w))
      else Rotated(e);
    Moved(w, w.cache, Goto(w, c, pc))
  }

  /** The section after the check, and the copy. */
  function ActStep(w: World, c: nat): World
    requires c in w.calls && w.calls[c].began <= Now(w)
  {
    match w.calls[c].pc
    case Missing => Moved(w, Evicted(w.cache), Goto(w, c, Failed))
    case Confirmed(e, seen) =>
      var window := Window(seen, seen, seen);
      var cache :=
        if !Holds(w.cache, e.id) then w.cache
        else w.cache.(entry := Some(w.cache.entry.value.(checkedAt := w.log[w.calls[c].began].clock, checked := window)));
      Moved(w, cache, Goto(w, c, Copying(e, window)))
    case Rotated(e) =>
      Moved(w, if Holds(w.cache, e.id) then Evicted(w.cache) else w.cache, Goto(w, c, Loading))
    case Copying(e, window) =>
      Moved(w, w.cache, Goto(w, c, if Holds(w.cache, e.id) then Returned(e.version, window) else Loading))
    case _ => w
  }

  predicate Hit(w: World) { w.cache.entry.Some? && Current(w).clock < w.cache.entry.value.expires }

  /** The first section of load: a hit, a load to wait for, or a load to do. */
  function EnterLoadStep(w: World, c: nat): World
    requires c in w.calls
  {
    if Hit(w) then
      Moved(w, w.cache, Goto(w, c, Returned(w.cache.entry.value.version, w.cache.entry.value.loaded)))
    else if w.cache.load.Some? then
      Moved(w, w.cache, Goto(w, c, Waiting(w.cache.load.value.id)))
    else
      var load := Load(w.cache.nextLoad, c, Now(w));
      Moved(w, w.cache.(load := Some(load), nextLoad := w.cache.nextLoad + 1), Goto(w, c, Fetching))
  }

  function GetStep(w: World, c: nat, ok: bool): World
    requires c in w.calls
  {
    var pc := if ok && Current(w).secret.Some? then Fetched(Current(w).secret.value, Now(w)) else FetchFailed;
    Moved(w, w.cache, Goto(w, c, pc))
  }

  /** The last section of load. */
  function FinishStep(w: World, c: nat, config: Config): World
    requires c in w.calls && (w.calls[c].pc.Fetched? || w.calls[c].pc.FetchFailed?) && w.cache.load.Some?
  {
    var load := w.cache.load.value;
    match w.calls[c].pc
    case Fetched(version, seen) =>
      var window := Window(load.from, seen, Now(w));
      var entry := Entry(load.id, version, Current(w).clock + config.ttl, Current(w).clock, window, window);
      var finished := w.cache.finished[load.id := LoadGot(version, window)];
      Moved(w, w.cache.(entry := Some(entry), load := None, finished := finished), Goto(w, c, Returned(version, window)))
    case FetchFailed =>
      Moved(w, w.cache.(load := None, finished := w.cache.finished[load.id := LoadFailed]), Goto(w, c, Failed))
  }

  /** A waiter goes on once its load is done. Its copy is empty, and it loads
    * again, exactly if that load's entry is no longer the cached one. */
  function WakeStep(w: World, c: nat): World
    requires At(w, c, (p: Pc) => p.Waiting?)
  {
    var id := w.calls[c].pc.id;
    if id !in w.cache.finished then w
    else match w.cache.finished[id]
      case LoadFailed => Moved(w, w.cache, Goto(w, c, Failed))
      case LoadGot(version, window) =>
        Moved(w, w.cache, Goto(w, c, if Holds(w.cache, id) then Returned(version, window) else Loading))
  }

  predicate Enabled(w: World, a: Action) {
    match a
    case Tick(_) => true
    case Rotate(_) => true
    case Begin(c) => c !in w.calls
    case Lookup(c) => At(w, c, (p: Pc) => p.Started?) && w.calls[c].began <= Now(w)
    case CheckVersion(c, _) => At(w, c, (p: Pc) => p.Looked?)
    case Act(c) => At(w, c, (p: Pc) => p.Missing? || p.Confirmed? || p.Rotated? || p.Copying?) && w.calls[c].began <= Now(w)
    case EnterLoad(c) => At(w, c, (p: Pc) => p.Loading?)
    case Get(c, _) => At(w, c, (p: Pc) => p.Fetching?)
    case Finish(c) => At(w, c, (p: Pc) => p.Fetched? || p.FetchFailed?) && w.cache.load.Some?
    case Wake(c) => At(w, c, (p: Pc) => p.Waiting?)
    case Cancel(c) => At(w, c, (p: Pc) => p.Waiting?)
    case Invalidate => true
    case Sweep(_) => true
  }

  /** An action that is not enabled changes nothing. Invalidate is also Close. */
  function Step(w: World, a: Action, config: Config): World {
    if !Enabled(w, a) then w else
    match a
    case Tick(elapsed) => World(w.log + [Current(w).(clock := Current(w).clock + elapsed)], w.cache, w.calls)
    case Rotate(secret) => World(w.log + [Current(w).(secret := secret)], w.cache, w.calls)
    case Begin(c) => Moved(w, w.cache, w.calls[c := Call(Now(w), Started)])
    case Lookup(c) => LookupStep(w, c, config)
    case CheckVersion(c, ok) => CheckStep(w, c, ok)
    case Act(c) => ActStep(w, c)
    case EnterLoad(c) => EnterLoadStep(w, c)
    case Get(c, ok) => GetStep(w, c, ok)
    case Finish(c) => FinishStep(w, c, config)
    case Wake(c) => WakeStep(w, c)
    case Cancel(c) => Moved(w, w.cache, Goto(w, c, Failed))
    case Invalidate => Moved(w, Evicted(w.cache), w.calls)
    case Sweep(now) =>
      Moved(w, if w.cache.entry.Some? && !(now < w.cache.entry.value.expires) then Evicted(w.cache) else w.cache, w.calls)
  }

  function Run(w: World, actions: seq<Action>, config: Config): World
    decreases |actions|
  {
    if actions == [] then w else Run(Step(w, actions[0], config), actions[1..], config)
  }

  function Init(secret: Option<Version>, clock: int): World {
    World([Instant(secret, clock, false)], Cache(None, None, map[], 0), map[])
  }

  // ---- The invariant ----

  ghost predicate Sound(log: Log, version: Version, w: Window) {
    && w.from <= w.seen <= w.to < |log|
    && log[w.seen].secret == Some(version)
    && (forall i :: w.from < i <= w.to ==> log[i].busy)
  }

  ghost predicate EntrySound(log: Log, e: Entry) {
    && Sound(log, e.version, e.loaded) && Sound(log, e.version, e.checked)
    && e.checkedAt <= log[e.checked.to].clock
  }

  /** The log: the clock never goes back, and the last instant is now. */
  ghost predicate LogOk(w: World) {
    && (forall i, j :: 0 <= i <= j < |w.log| ==> w.log[i].clock <= w.log[j].clock)
    && (Current(w).busy <==> w.cache.load.Some?)
  }

  ghost predicate LoadOk(log: Log, cache: Cache, load: Load) {
    && load.from < |log| && load.id < cache.nextLoad && load.id !in cache.finished
    && (forall i :: load.from < i < |log| ==> log[i].busy)
  }

  ghost predicate CacheOk(log: Log, cache: Cache) {
    && (cache.entry.Some? ==> EntrySound(log, cache.entry.value) && cache.entry.value.id in cache.finished)
    && (cache.load.Some? ==> LoadOk(log, cache, cache.load.value))
    && (forall id :: id in cache.finished ==> id < cache.nextLoad)
    && (forall id :: id in cache.finished && cache.finished[id].LoadGot? ==> Sound(log, cache.finished[id].version, cache.finished[id].window))
  }

  /** What is cached was loaded by a load that ended after the call began. */
  ghost predicate Newer(cache: Cache, began: nat) { cache.entry.Some? ==> cache.entry.value.loaded.to >= began }

  /** The entry a call looked up is still cached, or something newer is, or nothing. */
  ghost predicate Known(cache: Cache, e: Entry, began: nat) {
    && e.id in cache.finished
    && if Holds(cache, e.id) then cache.entry.value.version == e.version else Newer(cache, began)
  }

  /** Recent enough for this configuration, when the call began. */
  ghost predicate Recent(log: Log, began: nat, w: Window, config: Config)
    requires began < |log| && w.to < |log|
  {
    w.to >= began || log[w.to].clock > log[began].clock - config.versionCheck
  }

  ghost predicate CallOk(log: Log, cache: Cache, c: nat, call: Call, config: Config) {
    && call.began < |log|
    && match call.pc
       case Started => true
       case Looked(e) => EntrySound(log, e) && Known(cache, e, call.began)
       case Confirmed(e, seen) =>
         Sound(log, e.version, Window(seen, seen, seen)) && call.began <= seen && Known(cache, e, call.began)
       case Rotated(e) => Known(cache, e, call.began)
       case Missing => true
       case Copying(e, window) =>
         Sound(log, e.version, window) && Recent(log, call.began, window, config) && Known(cache, e, call.began)
       case Loading => Newer(cache, call.began)
       case Fetching => cache.load.Some? && cache.load.value.owner == c && call.began <= cache.load.value.from
       case Fetched(version, seen) =>
         && cache.load.Some? && cache.load.value.owner == c && call.began <= cache.load.value.from <= seen < |log|
         && log[seen].secret == Some(version)
       case FetchFailed => cache.load.Some? && cache.load.value.owner == c
       case Waiting(id) =>
         if id in cache.finished then
           cache.finished[id].LoadGot? ==> cache.finished[id].window.to >= call.began && Newer(cache, call.began)
         else
           cache.load.Some? && cache.load.value.id == id
       case Returned(version, window) => Sound(log, version, window) && Recent(log, call.began, window, config)
       case Failed => true
  }

  ghost predicate Inv(w: World, config: Config) {
    LogOk(w) && CacheOk(w.log, w.cache) && forall c :: c in w.calls ==> CallOk(w.log, w.cache, c, w.calls[c], config)
  }

  // ---- What each kind of change keeps of one call ----

  lemma SoundLater(log: Log, x: Instant, version: Version, w: Window)
    requires Sound(log, version, w)
    ensures Sound(log + [x], version, w)
  {
  }

  lemma CallLater(log: Log, x: Instant, cache: Cache, c: nat, call: Call, config: Config)
    requires CallOk(log, cache, c, call, config)
    ensures CallOk(log + [x], cache, c, call, config)
  {
  }

  lemma CallKeptByEviction(log: Log, cache: Cache, c: nat, call: Call, config: Config)
    requires CallOk(log, cache, c, call, config)
    ensures CallOk(log, Evicted(cache), c, call, config)
  {
  }

  lemma CallKeptByCheck(log: Log, cache: Cache, e: Entry, c: nat, call: Call, config: Config)
    requires CallOk(log, cache, c, call, config)
    requires cache.entry.Some? && cache.entry.value.(checkedAt := e.checkedAt, checked := e.checked) == e
    ensures CallOk(log, cache.(entry := Some(e)), c, call, config)
  {
  }

  lemma CallKeptByNewLoad(log: Log, cache: Cache, load: Load, c: nat, call: Call, config: Config)
    requires CallOk(log, cache, c, call, config) && cache.load.None?
    ensures CallOk(log, cache.(load := Some(load), nextLoad := cache.nextLoad + 1), c, call, config)
  {
  }

  lemma CallKeptByFinish(log: Log, cache: Cache, entry: Option<Entry>, outcome: Outcome, c: nat, call: Call, config: Config)
    requires CallOk(log, cache, c, call, config) && cache.load.Some? && c != cache.load.value.owner
    requires cache.load.value.id !in cache.finished
    requires outcome.LoadFailed? ==> entry == cache.entry
    requires outcome.LoadGot? ==>
      && entry.Some? && entry.value.id == cache.load.value.id && entry.value.loaded == outcome.window
      && outcome.window.to == |log| - 1
    ensures CallOk(log, Cache(entry, None, cache.finished[cache.load.value.id := outcome], cache.nextLoad), c, call, config)
  {
  }

  lemma CacheLater(log: Log, x: Instant, cache: Cache)
    requires CacheOk(log, cache) && (cache.load.Some? ==> x.busy)
    ensures CacheOk(log + [x], cache)
  {
    if cache.entry.Some? {
      SoundLater(log, x, cache.entry.value.version, cache.entry.value.loaded);
      SoundLater(log, x, cache.entry.value.version, cache.entry.value.checked);
    }
    forall id | id in cache.finished && cache.finished[id].LoadGot?
      ensures Sound(log + [x], cache.finished[id].version, cache.finished[id].window)
    {
      SoundLater(log, x, cache.finished[id].version, cache.finished[id].window);
    }
  }

  // ---- One step ----

  /** Once the changed cache and the moved call are right at the instant of the
    * change, and every other call is too, they are right ever after. */
  lemma MovedKeeps(w: World, cache: Cache, calls: map<nat, Call>, config: Config)
    requires LogOk(w) && CacheOk(w.log, cache)
    requires forall c :: c in calls ==> CallOk(w.log, cache, c, calls[c], config)
    ensures Inv(Moved(w, cache, calls), config)
  {
    var x := Current(w).(busy := cache.load.Some?);
    CacheLater(w.log, x, cache);
    forall c | c in calls ensures CallOk(w.log + [x], cache, c, calls[c], config) {
      CallLater(w.log, x, cache, c, calls[c], config);
    }
  }

  /** The same when the cache stays as it is and one call moves. */
  lemma GotoKeeps(w: World, c: nat, pc: Pc, config: Config)
    requires Inv(w, config) && c in w.calls && CallOk(w.log, w.cache, c, w.calls[c].(pc := pc), config)
    ensures Inv(Moved(w, w.cache, Goto(w, c, pc)), config)
  {
    MovedKeeps(w, w.cache, Goto(w, c, pc), config);
  }

  /** The same when the entry goes. */
  lemma EvictKeeps(w: World, calls: map<nat, Call>, config: Config)
    requires Inv(w, config)
    requires forall c :: c in calls ==> c in w.calls && (calls[c] == w.calls[c] || CallOk(w.log, Evicted(w.cache), c, calls[c], config))
    ensures Inv(Moved(w, Evicted(w.cache), calls), config)
  {
    forall c | c in calls ensures CallOk(w.log, Evicted(w.cache), c, calls[c], config) {
      if calls[c] == w.calls[c] {
        CallKeptByEviction(w.log, w.cache, c, calls[c], config);
      }
    }
    MovedKeeps(w, Evicted(w.cache), calls, config);
  }

  lemma LookupKeeps(w: World, c: nat, config: Config)
    requires Inv(w, config) && Enabled(w, Lookup(c))
    ensures Inv(Step(w, Lookup(c), config), config)
  {
    var call := w.calls[c];
    if w.cache.entry.None? || !(w.log[call.began].clock < w.cache.entry.value.expires) {
      EvictKeeps(w, Goto(w, c, Loading), config);
    } else {
      var e := w.cache.entry.value;
      if w.log[call.began].clock - e.checkedAt < config.versionCheck {
        GotoKeeps(w, c, Copying(e, e.checked), config);
      } else {
        GotoKeeps(w, c, Looked(e), config);
      }
    }
  }

  lemma CheckKeeps(w: World, c: nat, ok: bool, config: Config)
    requires Inv(w, config) && Enabled(w, CheckVersion(c, ok))
    ensures Inv(Step(w, CheckVersion(c, ok), config), config)
  {
    assert CallOk(w.log, w.cache, c, w.calls[c], config);
    var pc := CheckStep(w, c, ok).calls[c].pc;
    GotoKeeps(w, c, pc, config);
  }

  lemma MarkKeeps(w: World, c: nat, config: Config)
    requires Inv(w, config) && Enabled(w, Act(c)) && w.calls[c].pc.Confirmed?
    ensures Inv(ActStep(w, c), config)
  {
    var call := w.calls[c];
    assert CallOk(w.log, w.cache, c, call, config);
    var Confirmed(e, seen) := call.pc;
    var window := Window(seen, seen, seen);
    if Holds(w.cache, e.id) {
      var marked := w.cache.entry.value.(checkedAt := w.log[call.began].clock, checked := window);
      var cache := w.cache.(entry := Some(marked));
      assert EntrySound(w.log, marked);
      var calls := Goto(w, c, Copying(e, window));
      forall d | d in calls ensures CallOk(w.log, cache, d, calls[d], config) {
        if d != c {
          CallKeptByCheck(w.log, w.cache, marked, d, w.calls[d], config);
        }
      }
      MovedKeeps(w, cache, calls, config);
    } else {
      GotoKeeps(w, c, Copying(e, window), config);
    }
  }

  lemma ActKeeps(w: World, c: nat, config: Config)
    requires Inv(w, config) && Enabled(w, Act(c))
    ensures Inv(Step(w, Act(c), config), config)
  {
    assert CallOk(w.log, w.cache, c, w.calls[c], config);
    match w.calls[c].pc
    case Missing => EvictKeeps(w, Goto(w, c, Failed), config);
    case Confirmed(e, seen) => MarkKeeps(w, c, config);
    case Rotated(e) =>
      if Holds(w.cache, e.id) {
        EvictKeeps(w, Goto(w, c, Loading), config);
      } else {
        GotoKeeps(w, c, Loading, config);
      }
    case Copying(e, window) =>
      if Holds(w.cache, e.id) {
        GotoKeeps(w, c, Returned(e.version, window), config);
      } else {
        GotoKeeps(w, c, Loading, config);
      }
    case _ =>
  }

  lemma NewLoadKeeps(w: World, c: nat, config: Config)
    requires Inv(w, config) && Enabled(w, EnterLoad(c)) && !Hit(w) && w.cache.load.None?
    ensures Inv(EnterLoadStep(w, c), config)
  {
    var load := Load(w.cache.nextLoad, c, Now(w));
    var cache := w.cache.(load := Some(load), nextLoad := w.cache.nextLoad + 1);
    var calls := Goto(w, c, Fetching);
    assert CallOk(w.log, w.cache, c, w.calls[c], config);
    forall d | d in calls ensures CallOk(w.log, cache, d, calls[d], config) {
      if d != c {
        CallKeptByNewLoad(w.log, w.cache, load, d, w.calls[d], config);
      }
    }
    MovedKeeps(w, cache, calls, config);
  }

  lemma HitKeeps(w: World, c: nat, config: Config)
    requires Inv(w, config) && Enabled(w, EnterLoad(c)) && Hit(w)
    ensures Inv(EnterLoadStep(w, c), config)
  {
    assert CallOk(w.log, w.cache, c, w.calls[c], config);
    GotoKeeps(w, c, Returned(w.cache.entry.value.version, w.cache.entry.value.loaded), config);
  }

  lemma JoinKeeps(w: World, c: nat, config: Config)
    requires Inv(w, config) && Enabled(w, EnterLoad(c)) && !Hit(w) && w.cache.load.Some?
    ensures Inv(EnterLoadStep(w, c), config)
  {
    GotoKeeps(w, c, Waiting(w.cache.load.value.id), config);
  }

  lemma EnterLoadKeeps(w: World, c: nat, config: Config)
    requires Inv(w, config) && Enabled(w, EnterLoad(c))
    ensures Inv(Step(w, EnterLoad(c), config), config)
  {
    if Hit(w) {
      HitKeeps(w, c, config);
    } else if w.cache.load.Some? {
      JoinKeeps(w, c, config);
    } else {
      NewLoadKeeps(w, c, config);
    }
  }

  lemma GetKeeps(w: World, c: nat, ok: bool, config: Config)
    requires Inv(w, config) && Enabled(w, Get(c, ok))
    ensures Inv(Step(w, Get(c, ok), config), config)
  {
    assert CallOk(w.log, w.cache, c, w.calls[c], config);
    GotoKeeps(w, c, GetStep(w, c, ok).calls[c].pc, config);
  }

  lemma FinishKeeps(w: World, c: nat, config: Config)
    requires Inv(w, config) && Enabled(w, Finish(c))
    ensures Inv(Step(w, Finish(c), config), config)
  {
    assert CallOk(w.log, w.cache, c, w.calls[c], config);
    var w' := FinishStep(w, c, config);
    var load := w.cache.load.value;
    var outcome := w'.cache.finished[load.id];
    assert CacheOk(w.log, w'.cache) by {
      if outcome.LoadGot? {
        assert Sound(w.log, outcome.version, outcome.window);
      }
    }
    forall d | d in w'.calls ensures CallOk(w.log, w'.cache, d, w'.calls[d], config) {
      if d != c {
        assert CallOk(w.log, w.cache, d, w.calls[d], config);
        CallKeptByFinish(w.log, w.cache, w'.cache.entry, outcome, d, w.calls[d], config);
      }
    }
    MovedKeeps(w, w'.cache, w'.calls, config);
  }

  lemma WakeKeeps(w: World, c: nat, config: Config)
    requires Inv(w, config) && Enabled(w, Wake(c))
    ensures Inv(Step(w, Wake(c), config), config)
  {
    assert CallOk(w.log, w.cache, c, w.calls[c], config);
    var id := w.calls[c].pc.id;
    if id in w.cache.finished {
      GotoKeeps(w, c, WakeStep(w, c).calls[c].pc, config);
    }
  }

  lemma OutsideKeeps(w: World, x: Instant, config: Config)
    requires Inv(w, config) && x.clock >= Current(w).clock && x.busy == Current(w).busy
    ensures Inv(World(w.log + [x], w.cache, w.calls), config)
  {
    CacheLater(w.log, x, w.cache);
    forall c | c in w.calls ensures CallOk(w.log + [x], w.cache, c, w.calls[c], config) {
      CallLater(w.log, x, w.cache, c, w.calls[c], config);
    }
  }

  lemma TickKeeps(w: World, elapsed: nat, config: Config)
    requires Inv(w, config)
    ensures Inv(Step(w, Tick(elapsed), config), config)
  {
    var x := Current(w).(clock := Current(w).clock + elapsed);
    OutsideKeeps(w, x, config);
    assert Step(w, Tick(elapsed), config) == World(w.log + [x], w.cache, w.calls);
  }

  lemma RotateKeeps(w: World, secret: Option<Version>, config: Config)
    requires Inv(w, config)
    ensures Inv(Step(w, Rotate(secret), config), config)
  {
    OutsideKeeps(w, Current(w).(secret := secret), config);
  }

  lemma BeginKeeps(w: World, c: nat, config: Config)
    requires Inv(w, config) && Enabled(w, Begin(c))
    ensures Inv(Step(w, Begin(c), config), config)
  {
    MovedKeeps(w, w.cache, w.calls[c := Call(Now(w), Started)], config);
  }

  lemma CancelKeeps(w: World, c: nat, config: Config)
    requires Inv(w, config) && Enabled(w, Cancel(c))
    ensures Inv(Step(w, Cancel(c), config), config)
  {
    GotoKeeps(w, c, Failed, config);
  }

  lemma InvalidateKeeps(w: World, config: Config)
    requires Inv(w, config)
    ensures Inv(Step(w, Invalidate, config), config)
  {
    EvictKeeps(w, w.calls, config);
  }

  lemma SweepKeeps(w: World, now: int, config: Config)
    requires Inv(w, config)
    ensures Inv(Step(w, Sweep(now), config), config)
  {
    if w.cache.entry.Some? && !(now < w.cache.entry.value.expires) {
      EvictKeeps(w, w.calls, config);
    } else {
      MovedKeeps(w, w.cache, w.calls, config);
    }
  }

  lemma InvStep(w: World, a: Action, config: Config)
    requires Inv(w, config)
    ensures Inv(Step(w, a, config), config)
  {
    if Enabled(w, a) {
      match a
      case Lookup(c) => LookupKeeps(w, c, config);
      case CheckVersion(c, ok) => CheckKeeps(w, c, ok, config);
      case Act(c) => ActKeeps(w, c, config);
      case EnterLoad(c) => EnterLoadKeeps(w, c, config);
      case Get(c, ok) => GetKeeps(w, c, ok, config);
      case Finish(c) => FinishKeeps(w, c, config);
      case Wake(c) => WakeKeeps(w, c, config);
      case Tick(elapsed) => TickKeeps(w, elapsed, config);
      case Rotate(secret) => RotateKeeps(w, secret, config);
      case Begin(c) => BeginKeeps(w, c, config);
      case Cancel(c) => CancelKeeps(w, c, config);
      case Invalidate => InvalidateKeeps(w, config);
      case Sweep(now) => SweepKeeps(w, now, config);
    }
  }

  lemma {:induction false} InvRun(w: World, actions: seq<Action>, config: Config)
    requires Inv(w, config)
    ensures Inv(Run(w, actions, config), config)
    decreases |actions|
  {
    if actions != [] {
      InvStep(w, actions[0], config);
      InvRun(Step(w, actions[0], config), actions[1..], config);
    }
  }

  // ---- Main results, over every run ----

  /** Which version a call may return: one the store held as its current version
    * at an instant inside the call, or inside a load that was in flight when the
    * call began, or, if version checks are spaced out, at an instant whose load
    * or check ended less than that spacing before the call began. */
  ghost predicate FreshAt(log: Log, began: nat, version: Version, seen: nat, to: nat, config: Config)
    requires began < |log|
  {
    && seen <= to < |log| && log[seen].secret == Some(version)
    && (|| seen >= began
        || (to >= began && forall i :: seen < i <= began ==> log[i].busy)
        || (to < began && log[began].clock - log[to].clock < config.versionCheck))
  }

  lemma ReturnedIsFresh(secret: Option<Version>, clock: int, actions: seq<Action>, config: Config, c: nat)
    requires var w := Run(Init(secret, clock), actions, config); At(w, c, (p: Pc) => p.Returned?)
    ensures
      var w := Run(Init(secret, clock), actions, config);
      && w.calls[c].began < |w.log|
      && exists seen: nat, to: nat :: FreshAt(w.log, w.calls[c].began, w.calls[c].pc.version, seen, to, config)
  {
    InvRun(Init(secret, clock), actions, config);
    var w := Run(Init(secret, clock), actions, config);
    var call := w.calls[c];
    assert CallOk(w.log, w.cache, c, call, config);
    var Returned(version, window) := call.pc;
    assert FreshAt(w.log, call.began, version, window.seen, window.to, config);
  }

  lemma ClockOrder(w: World, i: nat, j: nat)
    requires LogOk(w) && i < |w.log| && j < |w.log|
    ensures i <= j ==> w.log[i].clock <= w.log[j].clock
  {
  }

  /** With a check on every call: inside the call, or inside a load in flight as
    * the call began; so inside the call if no load was. */
  lemma CheckedEveryCall(secret: Option<Version>, clock: int, actions: seq<Action>, config: Config, c: nat)
    requires config.versionCheck == 0
    requires var w := Run(Init(secret, clock), actions, config); At(w, c, (p: Pc) => p.Returned?)
    ensures
      var w := Run(Init(secret, clock), actions, config);
      && w.calls[c].began < |w.log|
      && exists seen: nat :: seen < |w.log| && w.log[seen].secret == Some(w.calls[c].pc.version)
           && (seen >= w.calls[c].began || forall i :: seen < i <= w.calls[c].began ==> w.log[i].busy)
           && (!w.log[w.calls[c].began].busy ==> seen >= w.calls[c].began)
  {
    InvRun(Init(secret, clock), actions, config);
    ReturnedIsFresh(secret, clock, actions, config, c);
    var w := Run(Init(secret, clock), actions, config);
    var began := w.calls[c].began;
    var seen: nat, to: nat :| FreshAt(w.log, began, w.calls[c].pc.version, seen, to, config);
    ClockOrder(w, to, began);
  }

  /** At most one fetch is in flight, and every waiter waits for it or has its outcome. */
  lemma OneFetch(secret: Option<Version>, clock: int, actions: seq<Action>, config: Config, c: nat, d: nat)
    requires
      var w := Run(Init(secret, clock), actions, config);
      At(w, c, (p: Pc) => p.Fetching? || p.Fetched? || p.FetchFailed?)
    ensures
      var w := Run(Init(secret, clock), actions, config);
      && Current(w).busy
      && (At(w, d, (p: Pc) => p.Fetching? || p.Fetched? || p.FetchFailed?) ==> c == d)
      && (At(w, d, (p: Pc) => p.Waiting?) && w.calls[d].pc.id !in w.cache.finished ==> w.cache.load.Some? && w.cache.load.value.id == w.calls[d].pc.id && w.cache.load.value.owner == c)
  {
    InvRun(Init(secret, clock), actions, config);
    var w := Run(Init(secret, clock), actions, config);
    assert CallOk(w.log, w.cache, c, w.calls[c], config);
    if d in w.calls {
      assert CallOk(w.log, w.cache, d, w.calls[d], config);
    }
  }

  // ---- What the code does not promise ----

  /** A rotation, and then a call that joins the load of c. */
  function JoinSteps(c: nat, n: nat, newer: Option<Version>): seq<Action> {
    [Rotate(newer), Begin(n), Lookup(n), EnterLoad(n), Finish(c), Wake(n)]
  }

  /** The version was not current at any instant since the call began. */
  predicate NeverCurrent(w: World, n: nat)
    requires n in w.calls && w.calls[n].pc.Returned?
  {
    forall i :: w.calls[n].began <= i < |w.log| ==> w.log[i].secret != Some(w.calls[n].pc.version)
  }

  /** The call n begins, misses and waits for the load in flight. */
  lemma Joins(w: World, c: nat, n: nat, newer: Option<Version>, config: Config)
    requires Inv(w, config) && At(w, c, (p: Pc) => p.Fetched?) && w.cache.entry.None? && n !in w.calls
    ensures
      var w' := Run(w, [Rotate(newer), Begin(n), Lookup(n), EnterLoad(n)], config);
      && w'.cache == w.cache && w.cache.load.Some?
      && w'.calls == w.calls[n := Call(|w.log|, Waiting(w.cache.load.value.id))]
      && |w'.log| > |w.log| && forall i :: |w.log| <= i < |w'.log| ==> w'.log[i].secret == newer
  {
    assert CallOk(w.log, w.cache, c, w.calls[c], config);
    var w1 := Step(w, Rotate(newer), config);
    var w2 := Step(w1, Begin(n), config);
    assert w2.calls == w.calls[n := Call(|w.log|, Started)];
    var w3 := Step(w2, Lookup(n), config);
    assert w3.calls == w.calls[n := Call(|w.log|, Loading)] && w3.cache == w.cache;
    var w4 := Step(w3, EnterLoad(n), config);
    assert w4.calls == w.calls[n := Call(|w.log|, Waiting(w.cache.load.value.id))];
    RunFour(w, Rotate(newer), Begin(n), Lookup(n), EnterLoad(n), config);
  }

  lemma RunFour(w: World, a: Action, b: Action, c: Action, d: Action, config: Config)
    ensures Run(w, [a, b, c, d], config) == Step(Step(Step(Step(w, a, config), b, config), c, config), d, config)
  {
    RunTwo(Step(Step(w, a, config), b, config), c, d, config);
    assert [a, b, c, d][1..] == [b, c, d] && [b, c, d][1..] == [c, d];
  }

  lemma RunTwo(w: World, a: Action, b: Action, config: Config)
    ensures Run(w, [a, b], config) == Step(Step(w, a, config), b, config)
  {
    assert [a, b][1..] == [b] && [b][1..] == [];
    assert Run(Step(w, a, config), [b], config) == Step(Step(w, a, config), b, config);
  }

  lemma {:induction false} RunConcat(w: World, a: seq<Action>, b: seq<Action>, config: Config)
    ensures Run(w, a + b, config) == Run(Run(w, a, config), b, config)
    decreases |a|
  {
    if a == [] {
      assert a + b == b;
    } else {
      RunConcat(Step(w, a[0], config), a[1..], b, config);
      assert (a + b)[1..] == a[1..] + b;
    }
  }

  /** The clause about a load already in flight is needed: from each state with a
    * fetched key, nothing cached and another secret about to be stored, a call
    * that begins after the rotation and joins the load returns a version that was
    * current at no instant of the call, however often versions are checked. */
  lemma JoinedLoadMayBeStale(w: World, c: nat, n: nat, newer: Option<Version>, config: Config)
    requires Inv(w, config) && At(w, c, (p: Pc) => p.Fetched?) && w.cache.entry.None? && n !in w.calls
    requires newer != Some(w.calls[c].pc.version)
    ensures
      var w' := Run(w, JoinSteps(c, n, newer), config);
      && n in w'.calls && w'.calls[n].pc.Returned? && w'.calls[n].pc.version == w.calls[c].pc.version
      && w'.calls[n].began >= |w.log| && NeverCurrent(w', n)
  {
    var joined := [Rotate(newer), Begin(n), Lookup(n), EnterLoad(n)];
    Joins(w, c, n, newer, config);
    var w4 := Run(w, joined, config);
    var id, version := w.cache.load.value.id, w.calls[c].pc.version;
    var w5 := Step(w4, Finish(c), config);
    assert w5.calls[n] == Call(|w.log|, Waiting(id)) && id in w5.cache.finished && Holds(w5.cache, id);
    var w6 := Step(w5, Wake(n), config);
    assert w6.calls[n].pc.Returned? && w6.calls[n].pc.version == version;
    RunTwo(w4, Finish(c), Wake(n), config);
    RunConcat(w, joined, [Finish(c), Wake(n)], config);
    assert JoinSteps(c, n, newer) == joined + [Finish(c), Wake(n)];
  }

  /** Such a state is reached: call 0 misses, starts the load and reads "v1". */
  lemma JoinedLoadRun(config: Config)
    ensures
      var w := Run(Init(Some("v1"), 0), [Begin(0), Lookup(0), EnterLoad(0), Get(0, true)], config);
      && Inv(w, config) && At(w, 0, (p: Pc) => p.Fetched?) && w.calls[0].pc.version == "v1"
      && w.cache.entry.None? && 1 !in w.calls
  {
    var init := Init(Some("v1"), 0);
    var steps := [Begin(0), Lookup(0), EnterLoad(0), Get(0, true)];
    InvRun(init, steps, config);
    RunFour(init, Begin(0), Lookup(0), EnterLoad(0), Get(0, true), config);
    var w3 := Step(Step(Step(init, Begin(0), config), Lookup(0), config), EnterLoad(0), config);
    assert w3.calls == map[0 := Call(0, Fetching)];
  }

  /** Invalidating a company while its key is being loaded has no effect: the
    * load still installs the version it read. */
  lemma InvalidateDuringLoad(w: World, c: nat, config: Config)
    requires Inv(w, config) && At(w, c, (p: Pc) => p.Fetched?)
    ensures
      var w' := Step(Step(w, Invalidate, config), Finish(c), config);
      w'.cache.entry.Some? && w'.cache.entry.value.version == w.calls[c].pc.version
  {
    assert CallOk(w.log, w.cache, c, w.calls[c], config);
  }
}
