/** The provider-key cache: which key bytes are in memory, and whose they are.
  *
  * The methods of Resolver up to ReleaseCopy are one critical section of its
  * mutex each. ResolveKey and Load put them together as the code does; whenever
  * a call lets go of the mutex, Others runs any list of sections of other calls.
  */
module ByokCache {
  newtype byte = x: int | 0 <= x < 256

  /** A key in memory: its bytes until Zero overwrites and releases them. */
  class Key {
    const buffer: array<byte>
    var released: bool
    /** The bytes the key was made from. */
    ghost const secret: seq<byte>
    /** The company whose key it is. */
    ghost const owner: string

    /** The bytes are the secret until the key is zeroed, and all zero after. */
    ghost predicate Intact() reads this, buffer { !released && buffer[..] == secret }
    ghost predicate Erased() reads this, buffer { released && forall i :: 0 <= i < buffer.Length ==> buffer[i] == 0 }

    predicate Zeroed() reads this { released || buffer.Length == 0 }

    /** NewKey copies the secret into memory of its own. */
    constructor (secret: seq<byte>, ghost owner: string)
      ensures fresh(buffer) && Intact() && this.secret == secret && this.owner == owner
    {
      buffer := new byte[|secret|](i requires 0 <= i < |secret| => secret[i]);
      released := false;
      this.secret, this.owner := secret, owner;
      new;
      assert buffer[..] == secret;
    }

    /** An independent copy; of a zeroed key, an empty one. */
    method Clone() returns (k: Key)
      requires Intact() || Erased()
      ensures fresh(k) && fresh(k.buffer) && k.Intact()
      ensures k.secret == if released then [] else secret
    {
      k := new Key(if released then [] else buffer[..], owner);
    }

    /** Overwrites the bytes and releases them; nothing is left to do twice. */
    method Zero()
      requires Intact() || Erased()
      modifies this, buffer
      ensures Erased()
    {
      if released { return; }
      var i := 0;
      while i < buffer.Length
        invariant 0 <= i <= buffer.Length && !released
        invariant forall j :: 0 <= j < i ==> buffer[j] == 0
      {
        buffer[i] := 0;
        i := i + 1;
      }
      released := true;
    }
  }

  class Entry {
    const key: Key
    const version: string
    const expires: int
    var checkedAt: int

    constructor (key: Key, version: string, expires: int, checkedAt: int)
      ensures this.key == key && this.version == version && this.expires == expires && this.checkedAt == checkedAt
    {
      this.key, this.version, this.expires, this.checkedAt := key, version, expires, checkedAt;
    }
  }

  /** A fetch in flight, and its key once it is done; none if it failed. */
  class Load {
    var done: bool
    var key: Key?
    ghost const company: string

    constructor (ghost company: string)
      ensures !done && key == null && this.company == company
    {
      done, key := false, null;
      this.company := company;
    }
  }

  /** A critical section of some other call, or of the sweeper. */
  datatype Section =
    | Look(company: string, now: int)
    | Checked(company: string, now: int)
    | Start(company: string, now: int)
    | End(company: string, now: int, answer: Fetched)
    | Drop(company: string)
    | SweepAll(now: int)
    | CloseAll

  /** While a call has let go of the mutex: the sections of other calls, and the
    * clock when it takes the mutex next. */
  datatype Round = Round(others: seq<Section>, now: int)

  /** What the secret store and the key service answer a fetch. */
  datatype Fetched = FetchFailed | Got(secret: seq<byte>, version: string)

  /** What the secret store answers when asked for the current version. */
  datatype Asked = NoKey | AskFailed | IsVersion(version: string)

  class Resolver {
    const ttl: int
    var entries: map<string, Entry>
    var loads: map<string, Load>
    /** Every key object that was ever put into the cache. */
    ghost var installed: set<Key>
    /** The memory of those keys, and whose it is. */
    ghost var memory: map<array<byte>, Key>
    /** Every load that was ever put into the table of loads. */
    ghost var started: set<Load>

    ghost predicate Current(k: Key) reads this`entries { k.owner in entries && entries[k.owner].key == k }

    /** A key that was ever cached still holds its bytes exactly if it is the key
      * of one current entry; otherwise they are overwritten with zeros. No two
      * cached keys share memory. */
    ghost predicate KeysValid()
      reads this`entries, this`installed, this`memory, installed, memory.Keys
    {
      && (forall k :: k in installed ==> k.buffer in memory && memory[k.buffer] == k)
      && (forall k :: k in installed ==> if Current(k) then k.Intact() else k.Erased())
      && (forall c :: c in entries ==> entries[c].key in installed && entries[c].key.owner == c)
    }

    /** What a finished load holds was cached, and for its company. */
    ghost predicate LoadsValid()
      reads this`loads, this`installed, this`started, started
    {
      && (forall c :: c in loads ==> loads[c] in started && loads[c].company == c && !loads[c].done)
      && (forall p :: p in started && p.key != null ==> p.done && p.key in installed && p.key.owner == p.company)
    }

    /** At every release of the mutex. */
    ghost predicate Valid()
      reads this`entries, this`loads, this`installed, this`memory, this`started, installed, memory.Keys, started
    {
      KeysValid() && LoadsValid()
    }

    /** A cached key holds its secret exactly while an entry has it, and then
      * exactly one has; otherwise every byte of it is zero. */
    lemma HeldByOneEntry(k: Key)
      requires Valid() && k in installed
      ensures k.Intact() <==> exists c :: c in entries && entries[c].key == k
      ensures !k.Intact() ==> k.Erased()
      ensures forall c, d :: c in entries && d in entries && entries[c].key == k && entries[d].key == k ==> c == d
      ensures forall j :: j in installed && j != k ==> j.buffer != k.buffer
    {
      if Current(k) {
        assert entries[k.owner].key == k;
      }
    }

    constructor (ttl: int)
      ensures Valid() && entries == map[] && loads == map[] && installed == {} && this.ttl == ttl
    {
      this.ttl := ttl;
      entries, loads, installed, memory, started := map[], map[], {}, map[], {};
    }

    /** evictLocked: zero the entry's key, then drop the entry. */
    method Evict(company: string)
      requires Valid()
      modifies this`entries, installed, memory.Keys
      ensures Valid() && entries == old(entries) - {company} && installed == old(installed)
      ensures company in old(entries) ==> old(entries)[company].key.Erased()
    {
      if company !in entries { return; }
      var cached := entries[company];
      assert cached.key in installed;
      cached.key.Zero();
      entries := entries - {company};
    }

    /** The first section of ResolveKey: an expired entry goes, a live one is
      * returned with what the caller compares later. */
    method Lookup(company: string, now: int) returns (cached: Entry?, checkedAt: int, version: string)
      requires Valid()
      modifies this`entries, installed, memory.Keys
      ensures Valid()
      ensures cached != null ==> company in entries && entries[company] == cached && now < cached.expires
      ensures cached != null ==> checkedAt == cached.checkedAt && version == cached.version
      ensures cached == null ==> company !in entries
      ensures entries == if cached == null then old(entries) - {company} else old(entries)
    {
      if company in entries && !(now < entries[company].expires) {
        Evict(company);
      }
      if company in entries {
        cached := entries[company];
        return cached, cached.checkedAt, cached.version;
      }
      return null, 0, "";
    }

    method MarkChecked(cached: Entry, now: int)
      requires Valid()
      modifies cached`checkedAt
      ensures Valid() && cached.checkedAt == now
    {
      cached.checkedAt := now;
    }

    /** Drops a rotated entry, unless another call already replaced it. */
    method EvictRotated(company: string, cached: Entry)
      requires Valid()
      modifies this`entries, installed, memory.Keys
      ensures Valid()
      ensures entries == if company in old(entries) && old(entries)[company] == cached then old(entries) - {company} else old(entries)
    {
      if company in entries && entries[company] == cached {
        Evict(company);
      }
    }

    /** A copy a call may return: whole, in memory the cache does not have, with
      * the secret of a key that was loaded for that company. */
    ghost predicate Delivered(key: Key, company: string)
      reads this, key, key.buffer
    {
      && key.Intact() && key !in installed && key.buffer !in memory
      && exists k :: k in installed && k.owner == company && k.secret == key.secret
    }

    /** A copy in memory of its own: zeroing either key leaves the other intact. */
    method CopyOf(company: string) returns (key: Key)
      requires Valid() && company in entries
      ensures fresh(key) && fresh(key.buffer) && key.secret == entries[company].key.secret
      ensures Delivered(key, company)
    {
      assert Current(entries[company].key);
      key := entries[company].key.Clone();
    }

    /** A private copy of the key, if the entry looked up is still the current
      * one. */
    method CopyIfCurrent(company: string, cached: Entry) returns (key: Key?)
      requires Valid()
      ensures key != null <==> company in entries && entries[company] == cached
      ensures key != null ==> fresh(key) && fresh(key.buffer) && key.secret == cached.key.secret
      ensures key != null ==> Delivered(key, company)
    {
      if company in entries && entries[company] == cached {
        key := CopyOf(company);
      } else {
        key := null;
      }
    }

    /** The first section of load: a hit, a load to wait for, or a load to do. */
    method BeginLoad(company: string, now: int) returns (key: Key?, pending: Load?, mine: bool)
      requires Valid()
      modifies this`loads, this`started
      ensures Valid()
      ensures key != null <==> company in entries && now < entries[company].expires
      ensures key != null ==> fresh(key) && fresh(key.buffer) && key.secret == entries[company].key.secret && Delivered(key, company) && loads == old(loads) && started == old(started)
      ensures key == null ==> pending != null && (mine <==> company !in old(loads)) && loads == old(loads)[company := pending]
      ensures key == null ==> pending.company == company && started == old(started) + {pending}
      ensures key == null && mine ==> fresh(pending)
      ensures key == null && !mine ==> pending in old(started) && loads == old(loads) && started == old(started)
    {
      if company in entries && now < entries[company].expires {
        key := CopyOf(company);
        return key, null, false;
      }
      if company in loads {
        return null, loads[company], false;
      }
      pending := new Load(company);
      loads, started := loads[company := pending], started + {pending};
      return null, pending, true;
    }

    /** Puts a fetched key into an empty slot. */
    method Install(company: string, entry: Entry)
      requires Valid() && company !in entries && entry.key.Intact()
      requires entry.key.owner == company && entry.key !in installed && entry.key.buffer !in memory
      modifies this`entries, this`installed, this`memory
      ensures Valid() && entries == old(entries)[company := entry] && installed == old(installed) + {entry.key}
      ensures memory == old(memory)[entry.key.buffer := entry.key]
    {
      entries := entries[company := entry];
      installed := installed + {entry.key};
      memory := memory[entry.key.buffer := entry.key];
    }

    /** Takes a load off the table with what it fetched; after a failed fetch
      * this is the whole last section, and nothing is cached. */
    method Settle(company: string, pending: Load, fetched: Key?)
      requires Valid() && company in loads && loads[company] == pending
      requires fetched != null ==> fetched in installed && fetched.owner == company
      modifies this`loads, pending
      ensures Valid() && loads == old(loads) - {company} && pending.done && pending.key == fetched
    {
      loads := loads - {company};
      pending.done, pending.key := true, fetched;
    }

    static lemma Overwritten(cached: map<string, Entry>, company: string, entry: Entry)
      ensures (cached - {company})[company := entry] == cached[company := entry]
    {
    }

    /** Puts a fetched key in the place of whatever was there, which is zeroed. */
    method Overwrite(company: string, entry: Entry)
      requires Valid() && entry.key.Intact()
      requires entry.key.owner == company && entry.key !in installed && entry.key.buffer !in memory
      modifies this`entries, this`installed, this`memory, installed, memory.Keys
      ensures Valid() && entries == old(entries)[company := entry]
      ensures installed == old(installed) + {entry.key} && memory == old(memory)[entry.key.buffer := entry.key]
      ensures company in old(entries) ==> old(entries)[company].key.Erased()
    {
      Overwritten(entries, company, entry);
      Evict(company);
      Install(company, entry);
    }

    /** Caches a fetched key, and copies it. */
    method Replace(company: string, fetched: Key, version: string, now: int) returns (entry: Entry, key: Key)
      requires Valid() && fetched.Intact()
      requires fetched.owner == company && fetched !in installed && fetched.buffer !in memory
      modifies this`entries, this`installed, this`memory, installed, memory.Keys
      ensures Valid() && entries == old(entries)[company := entry]
      ensures installed == old(installed) + {fetched} && memory == old(memory)[fetched.buffer := fetched]
      ensures fresh(entry) && entry.key == fetched && entry.version == version && entry.checkedAt == now && entry.expires == now + ttl
      ensures company in old(entries) ==> old(entries)[company].key.Erased()
      ensures fresh(key) && fresh(key.buffer) && key.Intact() && key.secret == fetched.secret
    {
      entry := new Entry(fetched, version, now + ttl, now);
      Overwrite(company, entry);
      key := CopyOf(company);
    }

    /** The last section of load. A fetched key goes into the cache, whatever was
      * there is zeroed, and the caller gets a copy. */
    method FinishLoad(company: string, pending: Load, fetched: Key, version: string, now: int) returns (key: Key)
      requires Valid() && fetched.Intact() && company in loads && loads[company] == pending
      requires fetched.owner == company && fetched !in installed && fetched.buffer !in memory
      modifies this`entries, this`loads, this`installed, this`memory, pending, installed, memory.Keys
      ensures Valid() && loads == old(loads) - {company} && pending.done && pending.key == fetched
      ensures installed == old(installed) + {fetched} && memory == old(memory)[fetched.buffer := fetched]
      ensures company in entries && entries == old(entries)[company := entries[company]] && fresh(entries[company])
      ensures entries[company].key == fetched && entries[company].version == version
      ensures entries[company].checkedAt == now && entries[company].expires == now + ttl
      ensures company in old(entries) ==> old(entries)[company].key.Erased()
      ensures fresh(key) && fresh(key.buffer) && key.Intact() && key.secret == fetched.secret
    {
      var entry: Entry;
      entry, key := Replace(company, fetched, version, now);
      Settle(company, pending, fetched);
    }

    /** A waiter's section after the load it waited for: its copy is empty
      * exactly when the key was evicted in between or is empty itself, and then
      * it loads again. */
    method WaitedKey(pending: Load) returns (key: Key)
      requires Valid() && pending in started && pending.key != null
      ensures fresh(key) && fresh(key.buffer) && key.Intact()
      ensures key.Zeroed() <==> !Current(pending.key) || pending.key.secret == []
      ensures Current(pending.key) ==> key.secret == pending.key.secret && Delivered(key, pending.company)
    {
      key := pending.key.Clone();
      assert key.buffer.Length == |key.secret| by { assert key.buffer[..] == key.secret; }
    }

    method Invalidate(company: string)
      requires Valid()
      modifies this`entries, installed, memory.Keys
      ensures Valid() && entries == old(entries) - {company}
      ensures company in old(entries) ==> old(entries)[company].key.Erased()
    {
      Evict(company);
    }

    /** Evicts one expired entry. */
    method SweepOne(company: string, now: int) returns (evicted: bool)
      requires Valid() && company in entries
      modifies this`entries, installed, memory.Keys
      ensures Valid() && installed == old(installed)
      ensures memory == old(memory)
      ensures evicted <==> !(now < old(entries)[company].expires)
      ensures entries == if evicted then old(entries) - {company} else old(entries)
    {
      evicted := !(now < entries[company].expires);
      if evicted {
        Evict(company);
      }
    }

    /** The companies whose entry has outlived its time to live. */
    static function Expired(cached: map<string, Entry>, now: int): set<string> {
      set c | c in cached && !(now < cached[c].expires)
    }

    static lemma SweepStep(cached: map<string, Entry>, dropped: set<string>, todo: set<string>, company: string, now: int)
      requires company in todo && todo <= cached.Keys && dropped == Expired(cached, now) - todo
      ensures company !in dropped && |dropped + {company}| == |dropped| + 1
      ensures cached - (dropped + {company}) == (cached - dropped) - {company}
      ensures Expired(cached, now) - (todo - {company}) == if company in Expired(cached, now) then dropped + {company} else dropped
    {
    }

    /** Evicts every expired entry and nothing else. */
    method Sweep(now: int) returns (evicted: nat)
      requires Valid()
      modifies this`entries, installed, memory.Keys
      ensures Valid() && installed == old(installed)
      ensures entries == old(entries) - Expired(old(entries), now)
      ensures evicted == |Expired(old(entries), now)|
    {
      ghost var dropped: set<string> := {};
      evicted := 0;
      var todo := entries.Keys;
      while todo != {}
        invariant Valid() && installed == old(installed) && memory == old(memory)
        invariant entries == old(entries) - dropped && todo <= old(entries).Keys
        invariant dropped == Expired(old(entries), now) - todo
        invariant evicted == |dropped|
        decreases todo
      {
        var company :| company in todo;
        SweepStep(old(entries), dropped, todo, company, now);
        var gone := SweepOne(company, now);
        if gone {
          dropped := dropped + {company};
          evicted := evicted + 1;
        }
        todo := todo - {company};
      }
    }

    /** Zeroes every cached key: nothing that was ever cached is left in memory. */
    method Close()
      requires Valid()
      modifies this`entries, installed, memory.Keys
      ensures Valid() && entries == map[] && installed == old(installed)
      ensures forall k :: k in installed ==> k.Erased()
    {
      while entries.Keys != {}
        invariant Valid() && installed == old(installed)
        decreases entries.Keys
      {
        var company :| company in entries.Keys;
        Evict(company);
      }
      assert entries == map[];
      assert forall k :: k in installed ==> !Current(k);
    }

    /** A caller zeroes its copy: the cache is untouched. */
    method ReleaseCopy(copy: Key)
      requires Valid() && (copy.Intact() || copy.Erased()) && copy !in installed && copy.buffer !in memory
      modifies copy, copy.buffer
      ensures Valid() && copy.Erased()
    {
      copy.Zero();
    }

    // ---- Whole calls among others ----

    /** What sections of other calls may do to what a call holds: keys, memory
      * and loads are only added, and only new ones. */
    twostate predicate Grown() reads this {
      && old(installed) <= installed && old(started) <= started
      && (forall k :: k in installed ==> k in old(installed) || fresh(k))
      && (forall b :: b in memory ==> b in old(memory) || fresh(b))
      && (forall p :: p in started ==> p in old(started) || fresh(p))
      && (forall c :: c in entries ==> entries[c] in old(entries).Values || fresh(entries[c]))
    }

    /** The loads of these companies still are the ones in the table. */
    twostate predicate Kept(own: set<string>) reads this`loads {
      forall c :: c in own && c in old(loads) ==> c in loads && loads[c] == old(loads)[c]
    }

    /** A load that ends with a key of its own. */
    method Fetch(company: string, secret: seq<byte>, version: string, now: int) returns (key: Key, ghost fetched: Key, ghost entry: Entry)
      requires Valid() && company in loads
      modifies this`entries, this`loads, this`installed, this`memory, loads[company], installed, memory.Keys
      ensures Valid() && loads == old(loads) - {company}
      ensures fresh(fetched) && fresh(fetched.buffer) && fresh(entry)
      ensures installed == old(installed) + {fetched} && memory == old(memory)[fetched.buffer := fetched]
      ensures entries == old(entries)[company := entry]
      ensures fresh(key) && fresh(key.buffer) && key.secret == secret && Delivered(key, company)
    {
      var k := new Key(secret, company);
      key := FinishLoad(company, loads[company], k, version, now);
      fetched, entry := k, entries[company];
      assert fetched in installed;
    }

    /** The last section of a load, with what it fetched. */
    method EndLoad(company: string, now: int, answer: Fetched) returns (key: Key?)
      requires Valid() && company in loads
      modifies this, installed, memory.Keys, started
      ensures Valid() && Grown() && loads == old(loads) - {company}
      ensures key != null ==> fresh(key) && fresh(key.buffer) && Delivered(key, company)
      ensures key != null ==> answer.Got? && key.secret == answer.secret
      ensures key == null ==> answer.FetchFailed?
    {
      if answer.FetchFailed? {
        Settle(company, loads[company], null);
        return null;
      }
      var copy, _, _ := Fetch(company, answer.secret, answer.version, now);
      return copy;
    }

    /** One section of another call's load. Only the call that started a load
      * ends it. */
    method OtherLoad(s: Section, own: set<string>)
      requires Valid() && (s.Start? || s.End?)
      modifies this, installed, memory.Keys, started
      ensures Valid() && Grown() && Kept(own)
    {
      if s.Start? {
        var _, _, _ := BeginLoad(s.company, s.now);
      } else if s.company in loads && s.company !in own {
        var _ := EndLoad(s.company, s.now, s.answer);
      }
    }

    /** One section of another call. */
    method OtherSection(s: Section, own: set<string>)
      requires Valid()
      modifies this, installed, memory.Keys, started, entries.Values
      ensures Valid() && Grown() && Kept(own)
    {
      match s
      case Look(company, now) =>
        var _, _, _ := Lookup(company, now);
      case Checked(company, now) =>
        if company in entries { MarkChecked(entries[company], now); }
      case Drop(company) => Invalidate(company);
      case SweepAll(now) =>
        var _ := Sweep(now);
      case CloseAll => Close();
      case _ => OtherLoad(s, own);
    }

    method Others(sections: seq<Section>, own: set<string>)
      requires Valid()
      modifies this, installed, memory.Keys, started, entries.Values
      ensures Valid() && Grown() && Kept(own)
    {
      for n := 0 to |sections|
        invariant Valid() && Grown() && Kept(own)
      {
        OtherSection(sections[n], own);
      }
    }

    /** The load of a call that fetches: others run while it does. */
    method OwnLoad(company: string, round: Round, answer: Fetched) returns (key: Key?)
      requires Valid() && company in loads
      modifies this, installed, memory.Keys, started, entries.Values
      ensures Valid() && Grown()
      ensures key != null ==> fresh(key) && fresh(key.buffer) && Delivered(key, company)
      ensures key != null ==> answer.Got? && key.secret == answer.secret
      ensures key == null ==> answer.FetchFailed?
    {
      Others(round.others, {company});
      key := EndLoad(company, round.now, answer);
    }

    /** The wait for another call's load: its key, nothing if it failed or is not
      * done in this round, or the news that the key was evicted again. */
    method Wait(company: string, pending: Load, others: seq<Section>) returns (key: Key?, again: bool)
      requires Valid() && pending in started && pending.company == company
      modifies this, installed, memory.Keys, started, entries.Values
      ensures Valid() && Grown()
      ensures key != null ==> fresh(key) && fresh(key.buffer) && Delivered(key, company) && !again
    {
      Others(others, {});
      key, again := null, false;
      if pending.done && pending.key != null {
        key := WaitedKey(pending);
        if key.Zeroed() { key, again := null, true; }
      }
    }

    /** load: a hit, a fetch, or the wait for another call's fetch, after which it
      * may have to start again. A waiter is canceled when the rounds are over. */
    method LoadKey(company: string, now: int, rounds: seq<Round>, answer: Fetched) returns (key: Key?)
      requires Valid()
      modifies this, installed, memory.Keys, started, entries.Values
      ensures Valid() && Grown()
      ensures key != null ==> fresh(key) && fresh(key.buffer) && Delivered(key, company)
      decreases |rounds|, 1
    {
      var pending: Load?, mine: bool;
      key, pending, mine := BeginLoad(company, now);
      if key == null {
        key := FetchOrWait(company, pending, mine, now, rounds, answer);
      }
    }

    method FetchOrWait(company: string, pending: Load, mine: bool, now: int, rounds: seq<Round>, answer: Fetched) returns (key: Key?)
      requires Valid() && company in loads && pending in started && pending.company == company
      modifies this, installed, memory.Keys, started, entries.Values
      ensures Valid() && Grown()
      ensures key != null ==> fresh(key) && fresh(key.buffer) && Delivered(key, company)
      decreases |rounds|, 0
    {
      key := null;
      if mine {
        key := OwnLoad(company, if rounds == [] then Round([], now) else rounds[0], answer);
      } else if rounds != [] {
        var again: bool;
        key, again := Wait(company, pending, rounds[0].others);
        if again { key := LoadKey(company, rounds[0].now, rounds[1..], answer); }
      }
    }

    /** The section after CurrentVersion answered; whether the entry is confirmed.
      * With no key stored the entry is dropped and the call fails. */
    method Answered(company: string, now: int, cached: Entry, version: string, asked: Asked) returns (confirmed: bool)
      requires Valid()
      modifies this`entries, cached`checkedAt, installed, memory.Keys
      ensures Valid()
      ensures confirmed <==> asked == IsVersion(version)
      ensures forall c :: c in entries ==> c in old(entries) && entries[c] == old(entries)[c]
    {
      confirmed := asked == IsVersion(version);
      match asked
      case NoKey => Invalidate(company);
      case AskFailed =>
      case IsVersion(_) =>
        if confirmed { MarkChecked(cached, now); } else { EvictRotated(company, cached); }
    }

    /** copyIfCurrent or load: the entry to copy, if there is one and it is still
      * cached after the others' sections, or else a load. */
    method CopyOrLoad(company: string, cached: Entry?, next: Round, rounds: seq<Round>, answer: Fetched) returns (key: Key?)
      requires Valid()
      modifies this, installed, memory.Keys, started, entries.Values
      ensures Valid() && Grown()
      ensures key != null ==> fresh(key) && fresh(key.buffer) && Delivered(key, company)
    {
      Others(next.others, {});
      key := null;
      if cached != null { key := CopyIfCurrent(company, cached); }
      if key == null { key := LoadKey(company, next.now, rounds, answer); }
    }

    /** ResolveKey once its entry is due for a check: others run while the secret
      * store is asked. */
    method Recheck(company: string, now: int, cached: Entry, version: string, asked: Asked,
                   first: Round, second: Round, rounds: seq<Round>, answer: Fetched) returns (key: Key?)
      requires Valid()
      modifies this, cached`checkedAt, installed, memory.Keys, started, entries.Values
      ensures Valid() && Grown()
      ensures key != null ==> fresh(key) && fresh(key.buffer) && Delivered(key, company)
    {
      Others(first.others, {});
      var confirmed := Answered(company, now, cached, version, asked);
      key := null;
      if asked.IsVersion? {
        key := CopyOrLoad(company, if confirmed then cached else null, second, rounds, answer);
      }
    }

    /** ResolveKey, with the sections of other calls that run each time it lets go
      * of the mutex: what it returns is a copy of a key loaded for its company. */
    method ResolveKey(company: string, now: int, versionCheck: int, asked: Asked,
                      first: Round, second: Round, rounds: seq<Round>, answer: Fetched) returns (key: Key?)
      requires Valid()
      modifies this, installed, memory.Keys, started, entries.Values
      ensures Valid() && Grown()
      ensures key != null ==> fresh(key) && fresh(key.buffer) && Delivered(key, company)
    {
      var cached, checkedAt, version := Lookup(company, now);
      if cached != null && now - checkedAt >= versionCheck {
        key := Recheck(company, now, cached, version, asked, first, second, rounds, answer);
      } else {
        key := CopyOrLoad(company, cached, first, rounds, answer);
      }
    }

    /** A caller of ResolveKey: other calls may load, evict and close while it uses
      * its copy, which stays whole until the caller zeroes it. */
    method UseKey(company: string, now: int, versionCheck: int, asked: Asked, first: Round, second: Round,
                  rounds: seq<Round>, answer: Fetched, during: seq<Section>) returns (sent: seq<byte>, copy: Key?)
      requires Valid()
      modifies this, installed, memory.Keys, started, entries.Values
      ensures Valid() && Grown()
      ensures copy != null ==> copy.Erased() && copy !in installed
      ensures copy != null ==> exists k :: k in installed && k.owner == company && k.secret == sent
    {
      copy := ResolveKey(company, now, versionCheck, asked, first, second, rounds, answer);
      Others(during, {});
      sent := [];
      if copy != null {
        sent := copy.buffer[..];
        ReleaseCopy(copy);
      }
    }
  }
}
