/** The store's transactions as the code runs them, statement after statement,
  * when no other transaction holds the interview's row lock.
  */
module StoreTransactions {
  import opened Prelude
  import opened StoreModel
  import opened StoreSafety
  import opened StoreClaims
  import opened StoreTheorems

  /** The database after a RecordEvents transaction that inserted `rows`. */
  function AfterRecord(s: DB, iv: nat, count: nat, rows: seq<Row>, nextId: nat): DB
    requires iv in s.ivs
  {
    s.(ivs := s.ivs[iv := s.ivs[iv].(last := s.ivs[iv].last + count)], nextId := nextId,
       past := Past(s.past.log + rows, s.past.grants + [Grant(iv, s.ivs[iv].last + 1, count)]),
       pipe := s.pipe.(outbox := s.pipe.outbox + (set r | r in rows)))
  }

  /** The rows that announce the messages built from `first`. */
  ghost predicate RowsFor(rows: seq<Row>, iv: nat, key: nat, first: nat, offsets: seq<nat>) {
    && |rows| == |offsets|
    && (forall i :: 0 <= i < |rows| ==> rows[i].iv == iv && rows[i].key == key && rows[i].no == first + offsets[i])
    && (forall i, j :: 0 <= i < j < |rows| ==> rows[i].id < rows[j].id)
  }

  predicate Usable(ivs: map<nat, Interview>, iv: nat) { iv in ivs && !ivs[iv].purged }

  lemma AllocatedInv(s: DB, t: nat, trace: seq<Action>)
    requires s == Run(EMPTY, trace) && t in s.txs && s.txs[t].stage == Allocated
    ensures LockInv(s.ivs, s.claims.homes, s.txs[t]) && Pending(s.txs[t], s.past.log, s.nextId)
  {
    InvEmpty();
    InvRun(EMPTY, trace);
  }

  lemma CommitRecorded(s: DB, s0: DB, t: nat)
    requires t in s.txs && LockInv(s.ivs, s.claims.homes, s.txs[t]) && Pending(s.txs[t], s.past.log, s.nextId)
    requires t !in s0.txs && s.txs[t].kind.RecordEvents? && s.txs[t].stage == Allocated
    requires |s.txs[t].rows| == |s.txs[t].kind.offsets|
    requires s == s0.(txs := s0.txs[t := s.txs[t]], nextId := s.nextId)
    ensures s.txs[t].kind.iv in s0.ivs && s.txs[t].kind.count >= 1
    ensures CommitStep(s, t, 0) == AfterRecord(s0, s.txs[t].kind.iv, s.txs[t].kind.count, s.txs[t].rows, s.nextId)
    ensures RowsFor(s.txs[t].rows, s.txs[t].kind.iv, s.txs[t].kind.key, s0.ivs[s.txs[t].kind.iv].last + 1, s.txs[t].kind.offsets)
  {
    var tx := s.txs[t];
    assert tx.iv == tx.kind.iv by { assert s.claims.homes[tx.kind.key] == tx.kind.iv; }
    assert Without(s.txs, t) == s0.txs;
  }

  /** The guard of a diff: the session is the interview's and took none as new. */
  predicate Newer(c: Claims, iv: nat, session: nat, clientSeq: int) {
    session in c.sessions && c.sessions[session].iv == iv && c.sessions[session].lastDiff < clientSeq
  }

  function DiffRow(s: DB, iv: nat, session: nat, clientSeq: int): Row
    requires iv in s.ivs
  {
    Row(s.nextId, iv, s.ivs[iv].last + 1, session, Diffed(clientSeq))
  }

  /** The database after a committed diff. */
  function AfterDiff(s: DB, iv: nat, session: nat, clientSeq: int): DB
    requires iv in s.ivs
  {
    var row := DiffRow(s, iv, session, clientSeq);
    s.(ivs := s.ivs[iv := s.ivs[iv].(last := row.no)], nextId := s.nextId + 1,
       past := Past(s.past.log + [row], s.past.grants + [Grant(iv, row.no, 1)]),
       pipe := s.pipe.(outbox := s.pipe.outbox + {row}),
       claims := s.claims.(sessions := s.claims.sessions[session := Session(iv, clientSeq)]))
  }

  function DiffTx(s: DB, iv: nat, session: nat, clientSeq: int, inserted: bool): Tx
    requires iv in s.ivs
  {
    Tx(Kind.RecordDiff(iv, session, clientSeq), Allocated, iv, s.ivs[iv].last + 1, if inserted then [DiffRow(s, iv, session, clientSeq)] else [])
  }

  lemma DiffGuarded(s: DB, t: nat, iv: nat, session: nat, clientSeq: int)
    requires t !in s.txs && ClaimFree(s.txs, t, Kind.RecordDiff(iv, session, clientSeq))
    ensures GuardStep(SetTx(s, t, Tx(Kind.RecordDiff(iv, session, clientSeq), Opened, 0, 0, [])), t, false)
      == if Newer(s.claims, iv, session, clientSeq) then SetTx(s, t, Tx(Kind.RecordDiff(iv, session, clientSeq), Guarded, iv, 0, [])) else s
  {
    var k := Kind.RecordDiff(iv, session, clientSeq);
    var s' := SetTx(s, t, Tx(k, Opened, 0, 0, []));
    DropNew(s, t, Tx(k, Opened, 0, 0, []));
    assert ClaimFree(s'.txs, t, k);
    assert s'.txs[t := Tx(k, Guarded, iv, 0, [])] == s.txs[t := Tx(k, Guarded, iv, 0, [])];
  }

  lemma DiffAllocated(s: DB, t: nat, iv: nat, session: nat, clientSeq: int)
    requires t !in s.txs && LockFree(s.txs, iv) && iv in s.ivs && !s.ivs[iv].purged
    ensures AllocateStep(SetTx(s, t, Tx(Kind.RecordDiff(iv, session, clientSeq), Guarded, iv, 0, [])), t)
      == SetTx(s, t, DiffTx(s, iv, session, clientSeq, false))
  {
    var s' := SetTx(s, t, Tx(Kind.RecordDiff(iv, session, clientSeq), Guarded, iv, 0, []));
    assert LockFree(s'.txs, iv);
    assert s'.txs[t := DiffTx(s, iv, session, clientSeq, false)] == s.txs[t := DiffTx(s, iv, session, clientSeq, false)];
  }

  lemma DiffCommitted(s: DB, t: nat, iv: nat, session: nat, clientSeq: int)
    requires t !in s.txs && iv in s.ivs
    ensures CommitStep(InsertRowStep(SetTx(s, t, DiffTx(s, iv, session, clientSeq, false)), t), t, 0) == AfterDiff(s, iv, session, clientSeq)
  {
    var numbered, tx := DiffTx(s, iv, session, clientSeq, false), DiffTx(s, iv, session, clientSeq, true);
    assert OffsetsOf(tx.kind) == [0] && numbered.(rows := numbered.rows + tx.rows) == tx;
    DropNew(s, t, tx);
    assert SetTx(s, t, numbered).txs[t := tx] == s.txs[t := tx];
    assert InsertRowStep(SetTx(s, t, numbered), t) == SetTx(s, t, tx).(nextId := s.nextId + 1);
    assert (set r | r in tx.rows) == {DiffRow(s, iv, session, clientSeq)};
  }

  lemma NewerIsUsable(s: DB, iv: nat, session: nat, clientSeq: int)
    requires Inv(s) && Newer(s.claims, iv, session, clientSeq)
    ensures Usable(s.ivs, iv)
  {
    assert Tables(s.ivs, s.claims);
  }

  lemma DropNew(s: DB, t: nat, tx: Tx)
    requires t !in s.txs
    ensures Drop(SetTx(s, t, tx), t) == s
  {
    assert Without(s.txs[t := tx], t) == s.txs;
  }

  predicate Purgeable(s: DB, iv: nat, cutoff: int) { iv in s.ivs && Eligible(s.ivs[iv], cutoff) }

  lemma LockEffect(s: DB, t: nat, iv: nat, cutoff: int)
    requires t !in s.txs && LockFree(s.txs, iv)
    ensures PurgeLockStep(SetTx(s, t, Tx(Kind.Purge(iv, cutoff), Opened, 0, 0, [])), t)
      == if Purgeable(s, iv, cutoff) then SetTx(s, t, PurgingTx(iv, cutoff, Locked)) else s
  {
    var tx := Tx(Kind.Purge(iv, cutoff), Opened, 0, 0, []);
    DropNew(s, t, tx);
    assert LockFree(SetTx(s, t, tx).txs, iv);
  }

  lemma DeleteEffect(s: DB, t: nat, iv: nat, cutoff: int, ok: bool)
    requires t !in s.txs
    ensures DeleteSearchStep(SetTx(s, t, PurgingTx(iv, cutoff, Locked)), t, ok)
      == if ok then SetTx(s.(erasure := Deleted(s.erasure, iv, true, false)), t, PurgingTx(iv, cutoff, SearchDeleted)) else s
    ensures DeleteLogStep(SetTx(s, t, PurgingTx(iv, cutoff, SearchDeleted)), t, ok)
      == if ok then SetTx(s.(erasure := Deleted(s.erasure, iv, false, true)), t, PurgingTx(iv, cutoff, LogDeleted)) else s
  {
    DropNew(s, t, PurgingTx(iv, cutoff, Locked));
    DropNew(s, t, PurgingTx(iv, cutoff, SearchDeleted));
  }

  /** The external deletes that succeeded. */
  function Deleted(e: Erasure, iv: nat, search: bool, log: bool): Erasure {
    e.(searchErased := if search then e.searchErased + {iv} else e.searchErased,
       logErased := if log then e.logErased + {iv} else e.logErased)
  }

  /** The database after a committed purge. */
  function AfterPurge(s: DB, iv: nat, now: int): DB
    requires iv in s.ivs
  {
    s.(ivs := s.ivs[iv := s.ivs[iv].(purged := true, terminal := if s.ivs[iv].terminal.Some? then s.ivs[iv].terminal else Some(now))],
       claims := ClaimsErased(s.claims, iv),
       erasure := Deleted(s.erasure, iv, true, true).(purgeLog := s.erasure.purgeLog + {iv}, purges := s.erasure.purges + [iv]))
  }

  lemma CommitEffect(s: DB, t: nat, iv: nat, cutoff: int, now: int)
    requires t !in s.txs && iv in s.ivs
    ensures CommitStep(SetTx(s.(erasure := Deleted(s.erasure, iv, true, true)), t, PurgingTx(iv, cutoff, LogDeleted)), t, now) == AfterPurge(s, iv, now)
  {
    assert Without(s.txs[t := PurgingTx(iv, cutoff, LogDeleted)], t) == s.txs;
  }

  /** The offsets of the messages a caller built, none when building failed. */
  function Messages(built: Option<seq<nat>>): seq<nat> { if built.Some? then built.value else [] }

  class Database {
    var db: DB
    ghost var trace: seq<Action>

    /** The database is in a state the machine can reach. */
    ghost predicate Valid() reads this { db == Run(EMPTY, trace) }

    constructor ()
      ensures Valid() && db == EMPTY
    {
      db, trace := EMPTY, [];
    }

    method Execute(a: Action)
      requires Valid()
      modifies this
      ensures Valid() && db == Step(old(db), a)
    {
      db, trace := Step(db, a), trace + [a];
      assert trace[..|trace| - 1] == old(trace);
    }

    /** Inserts a row for each message of a transaction that has its numbers. */
    method InsertRows(t: nat, kind: Kind, ghost s0: DB)
      requires Valid() && t in db.txs && db.txs[t].kind == kind && db.txs[t].stage == Allocated && db.txs[t].rows == []
      requires db == s0.(txs := s0.txs[t := db.txs[t]], nextId := db.nextId)
      modifies this
      ensures Valid() && t in db.txs && db == s0.(txs := s0.txs[t := db.txs[t]], nextId := db.nextId)
      ensures db.txs[t] == old(db.txs[t]).(rows := db.txs[t].rows) && |db.txs[t].rows| == |OffsetsOf(kind)|
    {
      var n := 0;
      while n < |OffsetsOf(kind)|
        invariant 0 <= n <= |OffsetsOf(kind)| && Valid()
        invariant t in db.txs && db.txs[t] == old(db.txs[t]).(rows := db.txs[t].rows) && |db.txs[t].rows| == n
        invariant db == s0.(txs := s0.txs[t := db.txs[t]], nextId := db.nextId)
      {
        Execute(Exec(t, InsertRow));
        n := n + 1;
      }
    }

    method InsertAndCommit(t: nat, kind: Kind, ghost s0: DB) returns (ghost rows: seq<Row>)
      requires Valid() && t in db.txs && t !in s0.txs && kind.RecordEvents?
      requires db.txs[t].kind == kind && db.txs[t].stage == Allocated && db.txs[t].rows == []
      requires db == s0.(txs := s0.txs[t := db.txs[t]], nextId := db.nextId)
      modifies this
      ensures Valid() && kind.iv in s0.ivs && kind.count >= 1
      ensures db == AfterRecord(s0, kind.iv, kind.count, rows, db.nextId)
      ensures RowsFor(rows, kind.iv, kind.key, s0.ivs[kind.iv].last + 1, kind.offsets)
    {
      InsertRows(t, kind, s0);
      rows := db.txs[t].rows;
      AllocatedInv(db, t, trace);
      CommitRecorded(db, s0, t);
      Execute(Exec(t, Commit(0)));
    }

    /** RecordEvents: allocate `count` numbers, insert one outbox row for each
      * message the caller builds from them, commit. Building may fail. */
    method RecordEvents(t: nat, iv: nat, key: nat, count: int, built: Option<seq<nat>>) returns (first: Option<nat>, ghost rows: seq<Row>)
      requires Valid() && t !in db.txs && t !in db.erasure.orphans && LockFree(db.txs, iv)
      requires WellFormed(db.claims.homes, Kind.RecordEvents(iv, key, count, Messages(built)))
      modifies this
      ensures Valid()
      ensures first.Some? <==> count >= 1 && Usable(old(db).ivs, iv) && built.Some?
      ensures first.None? ==> db == old(db)
      ensures first.Some? ==>
        && first.value == old(db).ivs[iv].last + 1
        && RowsFor(rows, iv, key, first.value, Messages(built))
        && db == AfterRecord(old(db), iv, count, rows, db.nextId)
    {
      ghost var s0 := db;
      rows := [];
      var offsets := Messages(built);
      var kind := Kind.RecordEvents(iv, key, count, offsets);
      Execute(Begin(t, kind));
      Execute(Exec(t, Allocate));
      if t !in db.txs {
        assert db.txs == s0.txs;
        return None, rows;
      }
      if built.None? {
        Execute(Exec(t, Abort));
        assert db.txs == s0.txs;
        return None, rows;
      }
      first := Some(db.txs[t].first);
      rows := InsertAndCommit(t, kind, s0);
    }

    /** The rest of a diff whose guard has passed. */
    method AllocateDiff(t: nat, iv: nat, session: nat, clientSeq: int, built: bool, ghost s0: DB) returns (no: Option<nat>)
      requires Valid() && t !in s0.txs && LockFree(s0.txs, iv) && Usable(s0.ivs, iv)
      requires db == SetTx(s0, t, Tx(Kind.RecordDiff(iv, session, clientSeq), Guarded, iv, 0, []))
      modifies this
      ensures Valid()
      ensures no == if built then Some(s0.ivs[iv].last + 1) else None
      ensures db == if built then AfterDiff(s0, iv, session, clientSeq) else s0
    {
      DiffAllocated(s0, t, iv, session, clientSeq);
      Execute(Exec(t, Allocate));
      if !built {
        DropNew(s0, t, DiffTx(s0, iv, session, clientSeq, false));
        Execute(Exec(t, Abort));
        return None;
      }
      no := Some(db.txs[t].first);
      DiffCommitted(s0, t, iv, session, clientSeq);
      Execute(Exec(t, InsertRow));
      Execute(Exec(t, Commit(0)));
    }

    /** RecordDiff: the guard, one number, one outbox row, commit. */
    method RecordDiff(t: nat, iv: nat, session: nat, clientSeq: int, built: bool) returns (no: Option<nat>)
      requires Valid() && t !in db.txs && t !in db.erasure.orphans && LockFree(db.txs, iv)
      requires ClaimFree(db.txs, t, Kind.RecordDiff(iv, session, clientSeq))
      modifies this
      ensures Valid()
      ensures no.Some? <==> Newer(old(db).claims, iv, session, clientSeq) && built
      ensures no.None? ==> db == old(db)
      ensures no.Some? ==> iv in old(db).ivs && no.value == old(db).ivs[iv].last + 1 && db == AfterDiff(old(db), iv, session, clientSeq)
    {
      ghost var s0 := db;
      InvEmpty();
      InvRun(EMPTY, trace);
      DiffGuarded(s0, t, iv, session, clientSeq);
      Execute(Begin(t, Kind.RecordDiff(iv, session, clientSeq)));
      Execute(Exec(t, Guard(false)));
      no := None;
      if t in db.txs {
        NewerIsUsable(s0, iv, session, clientSeq);
        no := AllocateDiff(t, iv, session, clientSeq, built, s0);
      }
    }

    /** deleteExternal: search documents first, then event-log rows. */
    method DeleteExternal(t: nat, iv: nat, cutoff: int, searchOk: bool, logOk: bool, ghost s0: DB) returns (ok: bool)
      requires Valid() && t !in s0.txs && db == SetTx(s0, t, PurgingTx(iv, cutoff, Locked))
      modifies this
      ensures Valid() && (ok <==> searchOk && logOk)
      ensures ok ==> db == SetTx(s0.(erasure := Deleted(s0.erasure, iv, true, true)), t, PurgingTx(iv, cutoff, LogDeleted))
      ensures !ok ==> db == s0.(erasure := Deleted(s0.erasure, iv, searchOk, false))
    {
      DeleteEffect(s0, t, iv, cutoff, searchOk);
      Execute(Exec(t, DeleteSearch(searchOk)));
      if !searchOk { return false; }
      ghost var s1 := s0.(erasure := Deleted(s0.erasure, iv, true, false));
      assert db == SetTx(s1, t, PurgingTx(iv, cutoff, SearchDeleted));
      DeleteEffect(s1, t, iv, cutoff, logOk);
      Execute(Exec(t, DeleteLog(logOk)));
      return logOk;
    }

    /** Purge: lock and re-check, delete search documents, then event-log rows,
      * then skeletonize. A failing delete leaves the tables as they were, and a
      * later run repeats the deletes. */
    method Purge(t: nat, iv: nat, cutoff: int, searchOk: bool, logOk: bool, now: int) returns (purged: bool)
      requires Valid() && t !in db.txs && t !in db.erasure.orphans && LockFree(db.txs, iv)
      modifies this
      ensures Valid()
      ensures purged <==> Purgeable(old(db), iv, cutoff) && searchOk && logOk
      ensures purged ==> db == AfterPurge(old(db), iv, now)
      ensures !purged ==> db == old(db).(erasure := Deleted(old(db).erasure, iv, Purgeable(old(db), iv, cutoff) && searchOk, false))
    {
      ghost var s0 := db;
      LockEffect(s0, t, iv, cutoff);
      Execute(Begin(t, Kind.Purge(iv, cutoff)));
      Execute(Exec(t, PurgeLock));
      if t !in db.txs { return false; }
      purged := DeleteExternal(t, iv, cutoff, searchOk, logOk, s0);
      if purged {
        CommitEffect(s0, t, iv, cutoff, now);
        Execute(Exec(t, Commit(now)));
      }
    }
  }
}
