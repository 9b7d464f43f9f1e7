/** The outbox relay: nothing committed is lost, and per message key Kafka first
  * sees the rows in sequence order, whatever fails, crashes or competes.
  */
module StoreRelay {
  import opened StoreModel
  import opened StoreSafety

  /** Every committed row is still in the outbox or already in Kafka. */
  ghost predicate NothingLost(log: seq<Row>, p: Pipe) {
    && (forall r :: r in log ==> r in p.outbox || r in p.kafka)
    && (forall r :: r in p.outbox ==> r in log)
    && (forall r :: r in p.kafka ==> r in log)
  }

  predicate Before(r: Row, x: Row) { r.key == x.key && r.no < x.no }

  /** When Kafka holds a row, it received every earlier row of its key before. */
  ghost predicate KeyOrder(log: seq<Row>, kafka: seq<Row>) {
    forall p, r :: 0 <= p < |kafka| && r in log && Before(r, kafka[p]) ==> r in kafka[..p]
  }

  /** What a relay, even one that lost its lock, may still write is safe. */
  ghost predicate RelayOk(log: seq<Row>, kafka: seq<Row>, relay: Relay) {
    && (forall k :: 0 <= k < |relay.batch| ==> relay.batch[k] in log)
    && (forall k, r :: 0 <= k < |relay.batch| && r in log && Before(r, relay.batch[k]) ==> r in kafka || r in relay.batch[..k])
    && (forall j :: j in relay.written ==> j < |relay.batch| && relay.batch[j] in kafka)
  }

  ghost predicate PipeInv(log: seq<Row>, p: Pipe) {
    && NothingLost(log, p) && KeyOrder(log, p.kafka)
    && (forall q :: q in p.relays ==> RelayOk(log, p.kafka, p.relays[q]))
  }

  /** One key belongs to one interview, whose rows have ids in number order. */
  ghost predicate KeysOrdered(log: seq<Row>) {
    forall r, x :: r in log && x in log && Before(r, x) ==> r.id < x.id
  }

  lemma KeysFromRows(s: DB)
    requires RowsInv(s)
    ensures KeysOrdered(s.past.log)
  {
    var log := s.past.log;
    forall r, x | r in log && x in log && Before(r, x) ensures r.id < x.id {
      var i :| 0 <= i < |log| && log[i] == r;
      var j :| 0 <= j < |log| && log[j] == x;
      assert RowOk(log[i], s.ivs, s.claims.homes, s.nextId) && RowOk(log[j], s.ivs, s.claims.homes, s.nextId);
      if j < i { assert log[j].iv == log[i].iv; }
    }
  }

  lemma ReadSafe(log: seq<Row>, p: Pipe, r: nat, batch: seq<Row>, limit: nat)
    requires PipeInv(log, p) && KeysOrdered(log)
    ensures PipeInv(log, ReadStep(p, r, batch, limit))
  {
    if IsBatch(p.outbox, batch, limit) {
      forall k, x | 0 <= k < |batch| && x in log && Before(x, batch[k]) ensures x in p.kafka || x in batch[..k] {
        if x in p.outbox {
          assert x.id < batch[k].id;
          var j :| 0 <= j < |batch| && batch[j] == x;
          assert batch[..k][j] == x;
        }
      }
    }
  }

  lemma RelayOkGrows(log: seq<Row>, kafka: seq<Row>, x: Row, relay: Relay)
    requires RelayOk(log, kafka, relay)
    ensures RelayOk(log, kafka + [x], relay)
  {}

  lemma WriteSafe(log: seq<Row>, p: Pipe, r: nat, k: nat)
    requires PipeInv(log, p)
    ensures PipeInv(log, WriteStep(p, r, k))
  {
    if r in p.relays && CanWrite(p.relays[r], k) {
      var relay := p.relays[r];
      assert RelayOk(log, p.kafka, relay);
      var x := relay.batch[k];
      var kafka' := p.kafka + [x];
      forall i, y | 0 <= i < |kafka'| && y in log && Before(y, kafka'[i]) ensures y in kafka'[..i] {
        if i == |p.kafka| {
          assert kafka'[..i] == p.kafka;
        } else {
          assert kafka'[..i] == p.kafka[..i];
        }
      }
      forall q | q in WriteStep(p, r, k).relays ensures RelayOk(log, kafka', WriteStep(p, r, k).relays[q]) {
        RelayOkGrows(log, p.kafka, x, p.relays[q]);
        assert kafka'[|p.kafka|] == x;
      }
    }
  }

  lemma FinishSafe(log: seq<Row>, p: Pipe, r: nat)
    requires PipeInv(log, p)
    ensures PipeInv(log, FinishStep(p, r))
  {
    if r in p.relays { assert RelayOk(log, p.kafka, p.relays[r]); }
  }

  lemma RelaySafe(log: seq<Row>, p: Pipe, r: nat, a: RelayAction)
    requires PipeInv(log, p) && KeysOrdered(log)
    ensures PipeInv(log, RelayStep(p, r, a))
  {
    match a
    case Read(batch, limit) => ReadSafe(log, p, r, batch, limit);
    case Write(k) => WriteSafe(log, p, r, k);
    case Finish => FinishSafe(log, p, r);
    case Fail =>
    case LoseLock =>
  }

  /** Rows commit above every earlier row of their key, so nothing already
    * written or about to be written gets ahead of them. */
  lemma CommitSafe(s: DB, t: nat)
    requires LocksOf(s) && RowsInv(s) && PipeInv(s.past.log, s.pipe) && t in s.txs && s.txs[t].stage == Allocated
    requires s.txs[t].iv in s.ivs && CountOf(s.txs[t].kind) >= 1
    ensures PipeInv(CommitAllocation(s, t).past.log, CommitAllocation(s, t).pipe)
  {
    var s' := CommitAllocation(s, t);
    var log, log' := s.past.log, s'.past.log;
    forall r, x | r in s.txs[t].rows && x in log ensures !Before(r, x) {
      CommitAbove(s, t, r, x);
    }
    forall q | q in s.pipe.relays ensures RelayOk(log', s.pipe.kafka, s.pipe.relays[q]) {
      assert RelayOk(log, s.pipe.kafka, s.pipe.relays[q]);
    }
  }

  lemma CommitAbove(s: DB, t: nat, r: Row, x: Row)
    requires LocksOf(s) && RowsInv(s) && t in s.txs && s.txs[t].stage == Allocated
    requires r in s.txs[t].rows && x in s.past.log
    ensures !Before(r, x)
  {
    assert LockInv(s.ivs, s.claims.homes, s.txs[t]) && Pending(s.txs[t], s.past.log, s.nextId);
    var i :| 0 <= i < |s.past.log| && s.past.log[i] == x;
    assert RowOk(s.past.log[i], s.ivs, s.claims.homes, s.nextId);
  }

  lemma PipeTx(s: DB, t: nat, a: TxAction)
    requires LocksOf(s) && RowsInv(s) && PipeInv(s.past.log, s.pipe) && t in s.txs
    ensures PipeInv(TxStep(s, t, a).past.log, TxStep(s, t, a).pipe)
  {
    if a.Commit? {
      assert LockInv(s.ivs, s.claims.homes, s.txs[t]);
      if s.txs[t].stage == Allocated { CommitSafe(s, t); }
    } else {
      assert TxStep(s, t, a).pipe == s.pipe && TxStep(s, t, a).past == s.past;
    }
  }

  lemma PipeStep(s: DB, a: Action)
    requires LocksOf(s) && RowsInv(s) && PipeInv(s.past.log, s.pipe)
    ensures PipeInv(Step(s, a).past.log, Step(s, a).pipe)
  {
    match a
    case Exec(t, tx) => if t in s.txs { PipeTx(s, t, tx); }
    case Admin(iv, admin) => assert AdminStep(s, iv, admin).pipe == s.pipe && AdminStep(s, iv, admin).past == s.past;
    case Begin(_, _) =>
    case Orphaned(_, _) =>
    case Relaying(r, relay) =>
      KeysFromRows(s);
      RelaySafe(s.past.log, s.pipe, r, relay);
  }

  /** The order Kafka consumers see: between the first occurrences of two rows
    * of one key, the lower number comes first. */
  ghost predicate FirstAt(kafka: seq<Row>, p: nat) { p < |kafka| && kafka[p] !in kafka[..p] }

  lemma FirstOccurrencesAscend(log: seq<Row>, p: Pipe, i: nat, j: nat)
    requires PipeInv(log, p) && FirstAt(p.kafka, i) && FirstAt(p.kafka, j) && i < j
    requires p.kafka[i].key == p.kafka[j].key && p.kafka[i].no != p.kafka[j].no
    ensures p.kafka[i].no < p.kafka[j].no
  {
    assert p.kafka[j] in log && p.kafka[..i] <= p.kafka[..j];
    assert p.kafka[j] !in p.kafka[..i];
    assert !Before(p.kafka[j], p.kafka[i]);
  }

  // ---- What the advisory lock adds ----

  /** Without failed attempts and lost locks no row is published twice: the one
    * relay at work has written exactly the published rows still in the outbox. */
  ghost predicate NoRepeat(p: Pipe) {
    && (forall i, j :: 0 <= i < j < |p.kafka| ==> p.kafka[i] != p.kafka[j])
    && (forall q :: q in p.relays ==> p.relays[q].locked && RelayFresh(p, p.relays[q]))
    && (forall q, u :: q in p.relays && u in p.relays ==> q == u)
    && (forall r :: r in p.kafka && r in p.outbox ==> exists q :: q in p.relays && Wrote(p.relays[q], r))
  }

  predicate Wrote(relay: Relay, r: Row) { exists j :: 0 <= j < |relay.batch| && j in relay.written && relay.batch[j] == r }

  ghost predicate RelayFresh(p: Pipe, relay: Relay) {
    && (forall i, j :: 0 <= i < j < |relay.batch| ==> relay.batch[i].id < relay.batch[j].id)
    && (forall j :: 0 <= j < |relay.batch| ==> relay.batch[j] in p.outbox)
  }

  predicate Faultless(a: Action) { a.Relaying? ==> !a.relay.Fail? && !a.relay.LoseLock? }

  lemma NoRepeatWrite(p: Pipe, r: nat, k: nat)
    requires NoRepeat(p)
    ensures NoRepeat(WriteStep(p, r, k))
  {
    if r in p.relays && CanWrite(p.relays[r], k) {
      var relay := p.relays[r];
      var x := relay.batch[k];
      assert RelayFresh(p, relay);
      assert forall q :: q in p.relays ==> !Wrote(p.relays[q], x);
      assert x !in p.kafka;
      var p' := WriteStep(p, r, k);
      forall y | y in p'.kafka && y in p'.outbox ensures exists q :: q in p'.relays && Wrote(p'.relays[q], y) {
        if y == x {
          assert Wrote(p'.relays[r], y);
        } else {
          assert y in p.kafka;
          var q :| q in p.relays && Wrote(p.relays[q], y);
          var j :| 0 <= j < |relay.batch| && j in relay.written && relay.batch[j] == y;
          assert Wrote(p'.relays[r], y);
        }
      }
    }
  }

  lemma NoRepeatRead(p: Pipe, r: nat, batch: seq<Row>, limit: nat)
    requires NoRepeat(p)
    ensures NoRepeat(ReadStep(p, r, batch, limit))
  {
    var p' := ReadStep(p, r, batch, limit);
    if p' != p {
      assert p.relays == map[] by { assert forall q :: q !in p.relays; }
    }
  }

  lemma NoRepeatFinish(p: Pipe, r: nat)
    requires NoRepeat(p)
    ensures NoRepeat(FinishStep(p, r))
  {
    var p' := FinishStep(p, r);
    if p' != p {
      assert p'.relays == map[] by { assert forall q :: q !in p'.relays; }
      assert forall q, y :: q in p.relays && y in p'.outbox ==> !Wrote(p.relays[q], y);
    }
  }

  /** New rows were never published: their numbers are above the whole log. */
  lemma NoRepeatCommit(s: DB, t: nat)
    requires LocksOf(s) && RowsInv(s) && PipeInv(s.past.log, s.pipe) && NoRepeat(s.pipe)
    requires t in s.txs && s.txs[t].stage == Allocated && s.txs[t].iv in s.ivs && CountOf(s.txs[t].kind) >= 1
    ensures NoRepeat(CommitAllocation(s, t).pipe)
  {
    assert Pending(s.txs[t], s.past.log, s.nextId);
    assert forall r :: r in s.txs[t].rows ==> r !in s.past.log;
    var p' := CommitAllocation(s, t).pipe;
    forall q | q in p'.relays ensures RelayFresh(p', p'.relays[q]) {
      assert RelayFresh(s.pipe, s.pipe.relays[q]);
    }
  }

  lemma NoRepeatStep(s: DB, a: Action)
    requires LocksOf(s) && RowsInv(s) && PipeInv(s.past.log, s.pipe) && NoRepeat(s.pipe) && Faultless(a)
    ensures NoRepeat(Step(s, a).pipe)
  {
    match a
    case Exec(t, tx) =>
      if t in s.txs {
        if tx.Commit? {
          assert LockInv(s.ivs, s.claims.homes, s.txs[t]);
          if s.txs[t].stage == Allocated { NoRepeatCommit(s, t); }
        } else {
          assert TxStep(s, t, tx).pipe == s.pipe;
        }
      }
    case Admin(iv, admin) => assert AdminStep(s, iv, admin).pipe == s.pipe;
    case Begin(_, _) =>
    case Orphaned(_, _) =>
    case Relaying(r, relay) =>
      match relay
      case Read(batch, limit) => NoRepeatRead(s.pipe, r, batch, limit);
      case Write(k) => NoRepeatWrite(s.pipe, r, k);
      case Finish => NoRepeatFinish(s.pipe, r);
  }
}
