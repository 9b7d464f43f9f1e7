/** What every step of the store keeps, whatever the interleaving: exclusive row
  * locks, gapless allocation, outbox order, one score and one start per claim.
  */
module StoreSafety {
  import opened StoreModel

  // ---- Allocation history ----

  /** How many numbers the history has granted to an interview. */
  function Total(grants: seq<Grant>, iv: nat): nat {
    if grants == [] then 0
    else Total(grants[..|grants| - 1], iv) + if grants[|grants| - 1].iv == iv then grants[|grants| - 1].count else 0
  }

  /** Every grant starts right after what its interview had been granted. */
  ghost predicate Gapless(grants: seq<Grant>) {
    forall k :: 0 <= k < |grants| ==> grants[k].count >= 1 && grants[k].first == Total(grants[..k], grants[k].iv) + 1
  }

  predicate Covers(g: Grant, iv: nat, n: nat) { g.iv == iv && g.first <= n < g.first + g.count }

  // ---- Invariants ----

  /** The row locks are exclusive and protect what the transaction read. */
  ghost predicate Locks(txs: map<nat, Tx>, ivs: map<nat, Interview>, homes: map<nat, nat>) {
    && (forall t, u :: t in txs && u in txs && t != u && HoldsLock(txs[t]) && HoldsLock(txs[u]) ==> txs[t].iv != txs[u].iv)
    && (forall t :: t in txs && txs[t].stage != Opened ==> ClaimFree(txs, t, txs[t].kind))
    && (forall t :: t in txs ==> LockInv(ivs, homes, txs[t]))
  }

  ghost predicate LockInv(ivs: map<nat, Interview>, homes: map<nat, nat>, tx: Tx) {
    && (HoldsLock(tx) ==> tx.iv in ivs && !ivs[tx.iv].purged)
    && (!HoldsLock(tx) ==> tx.rows == [])
    && (tx.stage == Guarded ==> !tx.kind.RecordEvents? && !tx.kind.Purge?)
    && (tx.stage == Allocated ==> !tx.kind.Purge? && CountOf(tx.kind) >= 1 && tx.first == ivs[tx.iv].last + 1)
    && (HoldsLock(tx) && tx.stage != Allocated ==>
          tx.kind.Purge? && tx.iv == tx.kind.iv && tx.rows == [] && Eligible(ivs[tx.iv], tx.kind.cutoff))
    && WellFormed(homes, tx.kind)
    && (tx.stage != Opened && !tx.kind.Purge? ==> KeyOf(tx.kind) in homes && homes[KeyOf(tx.kind)] == tx.iv)
  }

  ghost predicate LocksOf(s: DB) { Locks(s.txs, s.ivs, s.claims.homes) }

  // ---- Locks ----

  lemma LocksDrop(s: DB, t: nat)
    requires LocksOf(s)
    ensures LocksOf(Drop(s, t))
  {}

  /** Replacing one transaction whose lock and claim nobody else has. */
  lemma LocksSet(txs: map<nat, Tx>, ivs: map<nat, Interview>, homes: map<nat, nat>, t: nat, tx: Tx)
    requires Locks(txs, ivs, homes) && LockInv(ivs, homes, tx)
    requires HoldsLock(tx) ==> LockFree(Without(txs, t), tx.iv)
    requires tx.stage != Opened ==> ClaimFree(txs, t, tx.kind)
    ensures Locks(txs[t := tx], ivs, homes)
  {
    var txs' := txs[t := tx];
    forall u | u in txs' && txs'[u].stage != Opened ensures ClaimFree(txs', u, txs'[u].kind) {
      forall w | w in txs' && w != u && txs'[w].stage != Opened ensures !SameClaim(txs'[u].kind, txs'[w].kind) {
        if u != t { assert ClaimFree(txs, u, txs[u].kind); }
        if w == t { ClaimsSymmetric(txs'[u].kind, tx.kind); }
      }
    }
    assert forall u :: u in txs' && u != t && HoldsLock(tx) && HoldsLock(txs'[u]) ==> u in Without(txs, t);
  }

  lemma ClaimsSymmetric(a: Kind, b: Kind)
    ensures SameClaim(a, b) <==> SameClaim(b, a)
  {}

  /** Sessions are never forgotten and only unlocked interviews change. */
  lemma LocksFrame(txs: map<nat, Tx>, ivs: map<nat, Interview>, ivs': map<nat, Interview>, homes: map<nat, nat>, homes': map<nat, nat>)
    requires Locks(txs, ivs, homes)
    requires forall k :: k in homes ==> k in homes' && homes'[k] == homes[k]
    requires forall i :: i in ivs ==> i in ivs' && (ivs'[i] == ivs[i] || LockFree(txs, i))
    ensures Locks(txs, ivs', homes')
  {
    forall t | t in txs ensures LockInv(ivs', homes', txs[t]) {
      assert LockInv(ivs, homes, txs[t]);
    }
  }

  lemma LocksGuard(s: DB, t: nat, expired: bool)
    requires LocksOf(s) && t in s.txs && s.txs[t].stage == Opened
    requires forall x :: x in s.claims.sessions ==> x in s.claims.homes && s.claims.homes[x] == s.claims.sessions[x].iv
    ensures LocksOf(GuardStep(s, t, expired))
  {
    LocksDrop(s, t);
    var s' := GuardStep(s, t, expired);
    assert LockInv(s.ivs, s.claims.homes, s.txs[t]);
    var tx := s.txs[t];
    if ClaimFree(s.txs, t, tx.kind) && GuardPasses(s, tx.kind, expired) {
      LocksFrame(s.txs, s.ivs, s.ivs, s.claims.homes, s'.claims.homes);
      LocksSet(s.txs, s.ivs, s'.claims.homes, t, tx.(stage := Guarded, iv := GuardedInterview(s, tx.kind)));
    }
  }

  lemma LocksAllocate(s: DB, t: nat)
    requires LocksOf(s) && t in s.txs
    ensures LocksOf(AllocateStep(s, t))
  {
    LocksDrop(s, t);
    var s' := AllocateStep(s, t);
    assert LockInv(s.ivs, s.claims.homes, s.txs[t]);
    if s' != s && s' != Drop(s, t) {
      LocksSet(s.txs, s.ivs, s.claims.homes, t, s'.txs[t]);
    }
  }

  lemma LocksInsert(s: DB, t: nat)
    requires LocksOf(s) && t in s.txs
    ensures LocksOf(InsertRowStep(s, t))
  {
    var s' := InsertRowStep(s, t);
    if s' != s {
      assert LockInv(s.ivs, s.claims.homes, s.txs[t]);
      LocksSet(s.txs, s.ivs, s.claims.homes, t, s'.txs[t]);
    }
  }

  lemma LocksPurging(s: DB, t: nat, ok: bool)
    requires LocksOf(s) && t in s.txs
    ensures LocksOf(PurgeLockStep(s, t))
    ensures LocksOf(DeleteSearchStep(s, t, ok))
    ensures LocksOf(DeleteLogStep(s, t, ok))
  {
    LocksDrop(s, t);
    var tx := s.txs[t];
    assert LockInv(s.ivs, s.claims.homes, tx);
    if tx.kind.Purge? && tx.stage == Opened && LockFree(s.txs, tx.kind.iv) && tx.kind.iv in s.ivs && Eligible(s.ivs[tx.kind.iv], tx.kind.cutoff) {
      LocksSet(s.txs, s.ivs, s.claims.homes, t, tx.(stage := Locked, iv := tx.kind.iv));
    }
    if tx.stage == Locked { LocksSet(s.txs, s.ivs, s.claims.homes, t, tx.(stage := SearchDeleted)); }
    if tx.stage == SearchDeleted { LocksSet(s.txs, s.ivs, s.claims.homes, t, tx.(stage := LogDeleted)); }
  }

  lemma LocksCommit(s: DB, t: nat, now: int)
    requires LocksOf(s) && t in s.txs
    ensures LocksOf(CommitStep(s, t, now))
  {
    assert LockInv(s.ivs, s.claims.homes, s.txs[t]);
    if CommitStep(s, t, now) != s {
      LocksDrop(s, t);
      LocksFrame(Without(s.txs, t), s.ivs, CommitStep(s, t, now).ivs, s.claims.homes, s.claims.homes);
    }
  }

  lemma LocksAdmin(s: DB, iv: nat, a: AdminAction)
    requires LocksOf(s)
    ensures LocksOf(AdminStep(s, iv, a))
  {
    LocksFrame(s.txs, s.ivs, AdminStep(s, iv, a).ivs, s.claims.homes, s.claims.homes);
  }

  lemma LocksTx(s: DB, t: nat, a: TxAction)
    requires LocksOf(s) && t in s.txs
    requires forall x :: x in s.claims.sessions ==> x in s.claims.homes && s.claims.homes[x] == s.claims.sessions[x].iv
    ensures LocksOf(TxStep(s, t, a))
  {
    match a
    case Guard(expired) => if s.txs[t].stage == Opened { LocksGuard(s, t, expired); }
    case Allocate => LocksAllocate(s, t);
    case InsertRow => LocksInsert(s, t);
    case PurgeLock => LocksPurging(s, t, true);
    case DeleteSearch(ok) => LocksPurging(s, t, ok);
    case DeleteLog(ok) => LocksPurging(s, t, ok);
    case Commit(now) => LocksCommit(s, t, now);
    case Abort => LocksDrop(s, t);
    case LoseConnection => LocksDrop(s, t);
  }

  lemma LocksStep(s: DB, a: Action)
    requires LocksOf(s)
    requires forall x :: x in s.claims.sessions ==> x in s.claims.homes && s.claims.homes[x] == s.claims.sessions[x].iv
    ensures LocksOf(Step(s, a))
  {
    match a
    case Admin(iv, admin) => LocksAdmin(s, iv, admin);
    case Begin(t, kind) => if WellFormed(s.claims.homes, kind) { LocksSet(s.txs, s.ivs, s.claims.homes, t, Tx(kind, Opened, 0, 0, [])); }
    case Exec(t, tx) => if t in s.txs { LocksTx(s, t, tx); }
    case Orphaned(_, _) =>
    case Relaying(_, _) =>
  }

  // ---- Allocation counters ----

  /** Allocated numbers are exactly what the interview's counter says. */
  ghost predicate Counters(ivs: map<nat, Interview>, grants: seq<Grant>) {
    && Gapless(grants)
    && (forall iv :: Total(grants, iv) == if iv in ivs then ivs[iv].last else 0)
  }

  lemma CountersGrant(ivs: map<nat, Interview>, grants: seq<Grant>, g: Grant)
    requires Counters(ivs, grants) && g.iv in ivs && g.count >= 1 && g.first == ivs[g.iv].last + 1
    ensures Counters(ivs[g.iv := ivs[g.iv].(last := g.first + g.count - 1)], grants + [g])
  {
    var grants' := grants + [g];
    assert grants'[..|grants|] == grants;
    forall k | 0 <= k < |grants'| ensures grants'[k].count >= 1 && grants'[k].first == Total(grants'[..k], grants'[k].iv) + 1 {
      if k < |grants| { assert grants'[..k] == grants[..k]; }
    }
  }

  /** Nothing a commit decides has changed. */
  ghost predicate Keeps(s: DB, s': DB) {
    && s'.past.grants == s.past.grants && s'.past.log == s.past.log && s'.erasure.purges == s.erasure.purges
    && s.nextId <= s'.nextId && s'.pipe.outbox <= s.pipe.outbox
    && (forall i :: i in s.ivs ==> i in s'.ivs && s'.ivs[i].last == s.ivs[i].last && s'.ivs[i].purged == s.ivs[i].purged)
    && (forall i :: i in s'.ivs && i !in s.ivs ==> s'.ivs[i].last == 0 && !s'.ivs[i].purged)
    && (forall k :: k in s.claims.homes ==> k in s'.claims.homes && s'.claims.homes[k] == s.claims.homes[k])
  }

  lemma KeepsGuard(s: DB, t: nat, expired: bool)
    requires t in s.txs
    ensures Keeps(s, GuardStep(s, t, expired))
  {
    var tx := s.txs[t];
    if tx.stage != Opened || tx.kind.RecordEvents? || tx.kind.Purge? || !ClaimFree(s.txs, t, tx.kind) {
    } else if !GuardPasses(s, tx.kind, expired) {
      assert GuardStep(s, t, expired) == Drop(s, t);
    }
  }

  lemma KeepsAllocate(s: DB, t: nat)
    requires t in s.txs
    ensures Keeps(s, AllocateStep(s, t))
  {
    var s' := AllocateStep(s, t);
    if s' != s && s' != Drop(s, t) { assert s' == SetTx(s, t, s'.txs[t]); }
  }

  lemma KeepsPurging(s: DB, t: nat, ok: bool)
    requires t in s.txs
    ensures Keeps(s, PurgeLockStep(s, t))
    ensures Keeps(s, DeleteSearchStep(s, t, ok))
    ensures Keeps(s, DeleteLogStep(s, t, ok))
  {
    var s' := PurgeLockStep(s, t);
    if s' != s && s' != Drop(s, t) { assert s' == SetTx(s, t, s'.txs[t]); }
    var s'' := DeleteSearchStep(s, t, ok);
    if s'' != s && s'' != Drop(s, t) { assert s''.ivs == s.ivs && s''.claims.homes == s.claims.homes; }
  }

  lemma KeepsTx(s: DB, t: nat, a: TxAction)
    requires t in s.txs && !a.Commit?
    ensures Keeps(s, TxStep(s, t, a))
  {
    match a
    case Guard(expired) => KeepsGuard(s, t, expired);
    case Allocate => KeepsAllocate(s, t);
    case InsertRow =>
    case PurgeLock => KeepsPurging(s, t, true);
    case DeleteSearch(ok) => KeepsPurging(s, t, ok);
    case DeleteLog(ok) => KeepsPurging(s, t, ok);
    case Abort =>
    case LoseConnection =>
  }

  predicate IsCommit(a: Action) { a.Exec? && a.tx.Commit? }

  /** Only a commit moves a counter, grants a number or adds to the log. */
  lemma OnlyCommits(s: DB, a: Action)
    requires !IsCommit(a)
    ensures Keeps(s, Step(s, a))
  {
    match a
    case Admin(iv, admin) =>
    case Begin(t, kind) =>
    case Exec(t, tx) => if t in s.txs { KeepsTx(s, t, tx); }
    case Orphaned(_, _) =>
    case Relaying(_, _) =>
  }

  lemma CountersCommit(s: DB, t: nat, now: int)
    requires LocksOf(s) && Counters(s.ivs, s.past.grants) && t in s.txs
    ensures Counters(CommitStep(s, t, now).ivs, CommitStep(s, t, now).past.grants)
  {
    var tx := s.txs[t];
    assert LockInv(s.ivs, s.claims.homes, tx);
    if CommitStep(s, t, now) != s {
      if tx.stage == Allocated {
        assert CommitStep(s, t, now) == CommitAllocation(s, t);
        CountersGrant(s.ivs, s.past.grants, Grant(tx.iv, tx.first, CountOf(tx.kind)));
      } else {
        assert CommitStep(s, t, now) == CommitPurge(s, t, now);
        CountersKept(s.ivs, CommitPurge(s, t, now).ivs, s.past.grants);
      }
    }
  }

  lemma CountersKept(ivs: map<nat, Interview>, ivs': map<nat, Interview>, grants: seq<Grant>)
    requires Counters(ivs, grants) && ivs'.Keys == ivs.Keys && forall iv :: iv in ivs ==> ivs'[iv].last == ivs[iv].last
    ensures Counters(ivs', grants)
  {
  }

  lemma CountersStep(s: DB, a: Action)
    requires LocksOf(s) && Counters(s.ivs, s.past.grants)
    ensures Counters(Step(s, a).ivs, Step(s, a).past.grants)
  {
    if IsCommit(a) {
      if a.t in s.txs { CountersCommit(s, a.t, a.tx.now); }
    } else {
      OnlyCommits(s, a);
    }
  }

  ghost predicate Granted(grants: seq<Grant>, iv: nat, n: nat) {
    exists k :: 0 <= k < |grants| && Covers(grants[k], iv, n)
  }

  /** A number of an interview was granted exactly when its counter reached it,
    * and then by one transaction only. */
  lemma {:induction false} GrantedOnce(grants: seq<Grant>, iv: nat, n: nat)
    requires Gapless(grants)
    ensures 1 <= n <= Total(grants, iv) <==> Granted(grants, iv, n)
    ensures forall j, k :: 0 <= j < k < |grants| && Covers(grants[j], iv, n) ==> !Covers(grants[k], iv, n)
  {
    if grants != [] {
      var m := |grants| - 1;
      var init := grants[..m];
      GaplessInit(grants);
      GrantedOnce(init, iv, n);
      GrantedSnoc(init, grants[m], iv, n);
      assert grants == init + [grants[m]];
      forall j | 0 <= j < m && Covers(grants[j], iv, n) ensures !Covers(grants[m], iv, n) {
        assert Covers(init[j], iv, n);
        assert Granted(init, iv, n);
      }
    }
  }

  lemma GaplessInit(grants: seq<Grant>)
    requires Gapless(grants) && grants != []
    ensures
      var m := |grants| - 1;
      Gapless(grants[..m]) && grants[m].count >= 1 && grants[m].first == Total(grants[..m], grants[m].iv) + 1
  {
    var init := grants[..|grants| - 1];
    forall k | 0 <= k < |init| ensures init[k].count >= 1 && init[k].first == Total(init[..k], init[k].iv) + 1 {
      assert init[..k] == grants[..k];
    }
  }

  lemma GrantedSnoc(init: seq<Grant>, g: Grant, iv: nat, n: nat)
    ensures Granted(init + [g], iv, n) <==> Granted(init, iv, n) || Covers(g, iv, n)
  {
    var all := init + [g];
    if Granted(init, iv, n) {
      var k :| 0 <= k < |init| && Covers(init[k], iv, n);
      assert Covers(all[k], iv, n);
    }
    if Covers(g, iv, n) { assert Covers(all[|init|], iv, n); }
    if Granted(all, iv, n) {
      var k :| 0 <= k < |all| && Covers(all[k], iv, n);
      if k < |init| { assert Covers(init[k], iv, n); }
    }
  }

  // ---- Outbox rows ----

  /** One interview's rows commit in number order and in id order. */
  ghost predicate Ordered(rows: seq<Row>) {
    forall i, j :: 0 <= i < j < |rows| && rows[i].iv == rows[j].iv ==> rows[i].no < rows[j].no && rows[i].id < rows[j].id
  }

  predicate RowOk(r: Row, ivs: map<nat, Interview>, homes: map<nat, nat>, nextId: nat) {
    r.iv in ivs && 1 <= r.no <= ivs[r.iv].last && r.id < nextId && r.key in homes && homes[r.key] == r.iv
  }

  ghost predicate LogInv(log: seq<Row>, ivs: map<nat, Interview>, homes: map<nat, nat>, nextId: nat) {
    Ordered(log) && forall i :: 0 <= i < |log| ==> RowOk(log[i], ivs, homes, nextId)
  }

  /** The uncommitted rows of a transaction that holds its interview's lock. */
  ghost predicate Pending(tx: Tx, log: seq<Row>, nextId: nat) {
    && |tx.rows| <= |OffsetsOf(tx.kind)|
    && (forall i :: 0 <= i < |tx.rows| ==>
          && tx.rows[i].iv == tx.iv && tx.rows[i].key == KeyOf(tx.kind) && tx.rows[i].tag == TagOf(tx.kind)
          && tx.rows[i].no == tx.first + OffsetsOf(tx.kind)[i] && tx.rows[i].id < nextId)
    && (forall i, j :: 0 <= i < j < |tx.rows| ==> tx.rows[i].id < tx.rows[j].id)
    && (forall i, j :: 0 <= i < |tx.rows| && 0 <= j < |log| && log[j].iv == tx.iv ==> log[j].id < tx.rows[i].id)
  }

  ghost predicate RowsInv(s: DB) {
    && LogInv(s.past.log, s.ivs, s.claims.homes, s.nextId)
    && (forall r :: r in s.pipe.outbox ==> r in s.past.log)
    && (forall t :: t in s.txs && s.txs[t].stage == Allocated ==> Pending(s.txs[t], s.past.log, s.nextId))
  }

  lemma LogAppend(s: DB, t: nat)
    requires LocksOf(s) && RowsInv(s) && t in s.txs && s.txs[t].stage == Allocated
    ensures LogInv(s.past.log + s.txs[t].rows, CommitAllocation(s, t).ivs, s.claims.homes, s.nextId)
  {
    var tx := s.txs[t];
    assert LockInv(s.ivs, s.claims.homes, tx) && Pending(tx, s.past.log, s.nextId);
    var ivs' := CommitAllocation(s, t).ivs;
    var log' := s.past.log + tx.rows;
    forall i | 0 <= i < |log'| ensures RowOk(log'[i], ivs', s.claims.homes, s.nextId) {
      if i < |s.past.log| { assert RowOk(s.past.log[i], s.ivs, s.claims.homes, s.nextId); }
    }
    forall i, j | 0 <= i < j < |log'| && log'[i].iv == log'[j].iv ensures log'[i].no < log'[j].no && log'[i].id < log'[j].id {
      if i < |s.past.log| { assert RowOk(s.past.log[i], s.ivs, s.claims.homes, s.nextId); }
    }
  }

  lemma RowsCommit(s: DB, t: nat, now: int)
    requires LocksOf(s) && RowsInv(s) && t in s.txs
    ensures RowsInv(CommitStep(s, t, now))
  {
    var tx := s.txs[t];
    var s' := CommitStep(s, t, now);
    assert LockInv(s.ivs, s.claims.homes, tx);
    if s' != s && tx.stage == Allocated {
      LogAppend(s, t);
      forall u | u in s'.txs && s'.txs[u].stage == Allocated ensures Pending(s'.txs[u], s'.past.log, s'.nextId) {
        assert Pending(s.txs[u], s.past.log, s.nextId);
        assert HoldsLock(s.txs[u]) && HoldsLock(tx);
      }
    } else if s' != s {
      forall i | 0 <= i < |s.past.log| ensures RowOk(s.past.log[i], s'.ivs, s.claims.homes, s.nextId) {
        assert RowOk(s.past.log[i], s.ivs, s.claims.homes, s.nextId);
      }
    }
  }

  lemma RowsInsert(s: DB, t: nat)
    requires LocksOf(s) && RowsInv(s) && t in s.txs
    ensures RowsInv(InsertRowStep(s, t))
  {
    var s' := InsertRowStep(s, t);
    if s' != s {
      assert Pending(s.txs[t], s.past.log, s.nextId);
      LogGrows(s.past.log, s.ivs, s.claims.homes, s.nextId, s.ivs, s.claims.homes, s'.nextId);
      assert forall j :: 0 <= j < |s.past.log| ==> RowOk(s.past.log[j], s.ivs, s.claims.homes, s.nextId);
      assert Pending(s'.txs[t], s.past.log, s'.nextId);
      forall u | u in s'.txs && s'.txs[u].stage == Allocated ensures Pending(s'.txs[u], s'.past.log, s'.nextId) {
        if u != t { assert Pending(s.txs[u], s.past.log, s.nextId); }
      }
    }
  }

  lemma LogGrows(log: seq<Row>, ivs: map<nat, Interview>, homes: map<nat, nat>, nextId: nat,
                 ivs': map<nat, Interview>, homes': map<nat, nat>, nextId': nat)
    requires LogInv(log, ivs, homes, nextId) && nextId <= nextId'
    requires forall i :: i in ivs ==> i in ivs' && ivs'[i].last >= ivs[i].last
    requires forall k :: k in homes ==> k in homes' && homes'[k] == homes[k]
    ensures LogInv(log, ivs', homes', nextId')
  {
    forall i | 0 <= i < |log| ensures RowOk(log[i], ivs', homes', nextId') {
      assert RowOk(log[i], ivs, homes, nextId);
    }
  }

  /** A transaction becomes Allocated, and gains rows, only in its own steps. */
  ghost predicate NewlyAllocated(s: DB, s': DB) {
    forall u :: u in s'.txs && s'.txs[u].stage == Allocated ==> s'.txs[u].rows == [] || (u in s.txs && s'.txs[u] == s.txs[u])
  }

  lemma AllocatedTx(s: DB, t: nat, flag: bool)
    requires LocksOf(s) && t in s.txs
    ensures NewlyAllocated(s, AllocateStep(s, t))
    ensures NewlyAllocated(s, PurgeLockStep(s, t))
    ensures NewlyAllocated(s, DeleteSearchStep(s, t, flag))
    ensures NewlyAllocated(s, DeleteLogStep(s, t, flag))
  {
    assert LockInv(s.ivs, s.claims.homes, s.txs[t]);
  }

  lemma AllocatedGuard(s: DB, t: nat, flag: bool)
    requires LocksOf(s) && t in s.txs
    ensures NewlyAllocated(s, GuardStep(s, t, flag))
  {}

  lemma AllocatedStep(s: DB, t: nat, a: TxAction)
    requires LocksOf(s) && t in s.txs && !a.Commit? && !a.InsertRow?
    ensures NewlyAllocated(s, TxStep(s, t, a))
  {
    match a
    case Guard(expired) => AllocatedGuard(s, t, expired);
    case Allocate => AllocatedTx(s, t, true);
    case PurgeLock => AllocatedTx(s, t, true);
    case DeleteSearch(ok) => AllocatedTx(s, t, ok);
    case DeleteLog(ok) => AllocatedTx(s, t, ok);
    case Abort =>
    case LoseConnection =>
  }

  lemma RowsFrame(s: DB, s': DB)
    requires RowsInv(s) && Keeps(s, s') && NewlyAllocated(s, s')
    ensures RowsInv(s')
  {
    LogGrows(s.past.log, s.ivs, s.claims.homes, s.nextId, s'.ivs, s'.claims.homes, s'.nextId);
    forall u | u in s'.txs && s'.txs[u].stage == Allocated ensures Pending(s'.txs[u], s'.past.log, s'.nextId) {
      if s'.txs[u].rows != [] { assert Pending(s.txs[u], s.past.log, s.nextId); }
    }
  }

  lemma RowsTx(s: DB, t: nat, a: TxAction)
    requires LocksOf(s) && RowsInv(s) && t in s.txs
    ensures RowsInv(TxStep(s, t, a))
  {
    if a.Commit? { RowsCommit(s, t, a.now); }
    else if a.InsertRow? { RowsInsert(s, t); }
    else {
      KeepsTx(s, t, a);
      AllocatedStep(s, t, a);
      RowsFrame(s, TxStep(s, t, a));
    }
  }

  lemma RowsStep(s: DB, a: Action)
    requires LocksOf(s) && RowsInv(s)
    ensures RowsInv(Step(s, a))
  {
    match a
    case Exec(t, tx) => if t in s.txs { RowsTx(s, t, tx); }
    case Admin(iv, admin) =>
      OnlyCommits(s, a);
      RowsFrame(s, AdminStep(s, iv, admin));
    case Begin(t, kind) =>
      OnlyCommits(s, a);
      RowsFrame(s, BeginStep(s, t, kind));
    case Orphaned(t, ok) =>
      OnlyCommits(s, a);
      RowsFrame(s, s.(erasure := OrphanStep(s.erasure, t, ok)));
    case Relaying(r, relay) =>
      OnlyCommits(s, a);
      RowsFrame(s, s.(pipe := RelayStep(s.pipe, r, relay)));
  }
}
