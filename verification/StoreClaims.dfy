/** One start per invite, one score per session, diffs in client order: what
  * the claimed rows and the committed log say about each other.
  */
module StoreClaims {
  import opened StoreModel
  import opened StoreSafety

  /** A claimed session, score or invite still is what the guard saw, or the
    * interview has been purged since and the allocation will fail. */
  predicate StillClaimed(s: DB, tx: Tx) {
    match tx.kind
    case StartSession(v, session) =>
      && v in s.claims.invites && !s.claims.invites[v].accepted && s.claims.invites[v].iv == tx.iv
      && v in s.claims.issued && session !in s.claims.sessions
      && (forall i :: 0 <= i < |s.past.log| && s.past.log[i].key == session ==> !s.past.log[i].tag.Diffed?)
    case RecordDiff(_, session, c) =>
      session in s.claims.sessions && s.claims.sessions[session].iv == tx.iv && s.claims.sessions[session].lastDiff < c
    case SaveScore(_, session) =>
      session !in s.claims.scores && session in s.claims.sessions && s.claims.sessions[session].iv == tx.iv
    case _ => true
  }

  predicate IsPurged(ivs: map<nat, Interview>, iv: nat) { iv in ivs && ivs[iv].purged }

  ghost predicate ClaimsHeld(s: DB) {
    forall t :: t in s.txs && (s.txs[t].stage == Guarded || s.txs[t].stage == Allocated)
      ==> (StillClaimed(s, s.txs[t]) || IsPurged(s.ivs, s.txs[t].iv))
  }

  /** The tables: no session or score outlives its interview's purge. */
  ghost predicate Tables(ivs: map<nat, Interview>, c: Claims) {
    && (forall x :: x in c.sessions ==>
          x in c.homes && c.homes[x] == c.sessions[x].iv && c.sessions[x].iv in ivs && !ivs[c.sessions[x].iv].purged)
    && (forall x :: x in c.scores ==> x in c.sessions && c.sessions[x].iv == c.scores[x])
    && (forall v :: v in c.invites ==> v in c.issued && c.invites[v].iv in ivs)
  }

  predicate SameEvent(a: Row, b: Row) {
    || (a.tag.Started? && b.tag == a.tag)
    || (a.tag.Scored? && b.tag.Scored? && a.key == b.key)
  }

  /** What a committed row leaves behind in the tables. */
  predicate Witnessed(r: Row, ivs: map<nat, Interview>, c: Claims) {
    match r.tag
    case Started(v) => v in c.issued && (v in c.invites ==> c.invites[v].accepted)
    case Scored => r.key in c.scores || IsPurged(ivs, r.iv)
    case Diffed(n) => r.key in c.sessions ==> n <= c.sessions[r.key].lastDiff
    case Recorded => true
  }

  ghost predicate LogClaims(log: seq<Row>, ivs: map<nat, Interview>, c: Claims) {
    && (forall i, j :: 0 <= i < j < |log| ==> !SameEvent(log[i], log[j]))
    && (forall i, j :: 0 <= i < j < |log| && log[i].tag.Diffed? && log[j].tag.Diffed? && log[i].key == log[j].key
          ==> log[i].tag.clientSeq < log[j].tag.clientSeq)
    && (forall i :: 0 <= i < |log| ==> Witnessed(log[i], ivs, c))
    && (forall x :: x in c.scores ==> exists i :: 0 <= i < |log| && log[i].tag.Scored? && log[i].key == x)
  }

  ghost predicate ClaimsInv(s: DB) {
    Tables(s.ivs, s.claims) && ClaimsHeld(s) && LogClaims(s.past.log, s.ivs, s.claims)
  }

  // ---- Steps that commit nothing ----

  /** What a step before a commit can do to the tables. */
  ghost predicate ClaimsKept(s: DB, s': DB) {
    && s'.claims.sessions == s.claims.sessions && s'.claims.scores == s.claims.scores
    && (forall k :: k in s.claims.homes ==> k in s'.claims.homes && s'.claims.homes[k] == s.claims.homes[k])
    && s.claims.issued <= s'.claims.issued
    && (forall v :: v in s.claims.invites ==> v in s'.claims.invites && s'.claims.invites[v] == s.claims.invites[v])
    && (forall v :: v in s'.claims.invites && v !in s.claims.invites ==>
          v !in s.claims.issued && v in s'.claims.issued && s'.claims.invites[v].iv in s'.ivs)
  }

  predicate Claiming(tx: Tx) { tx.stage == Guarded || tx.stage == Allocated }

  lemma HeldFrame(s: DB, s': DB, tx: Tx)
    requires Keeps(s, s') && ClaimsKept(s, s') && (StillClaimed(s, tx) || IsPurged(s.ivs, tx.iv))
    ensures StillClaimed(s', tx) || IsPurged(s'.ivs, tx.iv)
  {}

  lemma ClaimsFrame(s: DB, s': DB)
    requires ClaimsInv(s) && Keeps(s, s') && ClaimsKept(s, s')
    requires forall t :: t in s'.txs && Claiming(s'.txs[t]) ==> StillClaimed(s, s'.txs[t]) || IsPurged(s.ivs, s'.txs[t].iv)
    ensures ClaimsInv(s')
  {
    forall i | 0 <= i < |s.past.log| ensures Witnessed(s.past.log[i], s'.ivs, s'.claims) {
      assert Witnessed(s.past.log[i], s.ivs, s.claims);
    }
    forall t | t in s'.txs && Claiming(s'.txs[t]) ensures StillClaimed(s', s'.txs[t]) || IsPurged(s'.ivs, s'.txs[t].iv) {
      HeldFrame(s, s', s'.txs[t]);
    }
  }

  lemma ClaimsGuard(s: DB, t: nat, expired: bool)
    requires RowsInv(s) && ClaimsInv(s) && t in s.txs
    ensures ClaimsInv(GuardStep(s, t, expired))
  {
    KeepsGuard(s, t, expired);
    var tx := s.txs[t];
    if tx.stage == Opened && !tx.kind.RecordEvents? && !tx.kind.Purge? && ClaimFree(s.txs, t, tx.kind) && GuardPasses(s, tx.kind, expired) {
      assert forall i :: 0 <= i < |s.past.log| ==> RowOk(s.past.log[i], s.ivs, s.claims.homes, s.nextId);
      assert StillClaimed(s, tx.(stage := Guarded, iv := GuardedInterview(s, tx.kind)));
    }
    ClaimsFrame(s, GuardStep(s, t, expired));
  }

  lemma ClaimsQuiet(s: DB, t: nat, a: TxAction)
    requires LocksOf(s) && ClaimsInv(s) && t in s.txs && !a.Guard? && !a.Commit?
    ensures ClaimsInv(TxStep(s, t, a))
  {
    KeepsTx(s, t, a);
    var s' := TxStep(s, t, a);
    assert LockInv(s.ivs, s.claims.homes, s.txs[t]);
    assert s'.claims == s.claims;
    forall u | u in s'.txs && Claiming(s'.txs[u]) ensures StillClaimed(s, s'.txs[u]) || IsPurged(s.ivs, s'.txs[u].iv) {
      QuietHeld(s, t, a, u);
    }
    ClaimsFrame(s, s');
  }

  lemma QuietHeld(s: DB, t: nat, a: TxAction, u: nat)
    requires LocksOf(s) && ClaimsHeld(s) && t in s.txs && !a.Guard? && !a.Commit?
    requires u in TxStep(s, t, a).txs && Claiming(TxStep(s, t, a).txs[u])
    ensures StillClaimed(s, TxStep(s, t, a).txs[u]) || IsPurged(s.ivs, TxStep(s, t, a).txs[u].iv)
  {
    assert LockInv(s.ivs, s.claims.homes, s.txs[t]);
    if u == t && a.Allocate? && !s.txs[t].kind.RecordEvents? {
      assert s.txs[t].stage == Guarded || s.txs[t].stage == Allocated;
    }
  }

  // ---- Commits ----

  /** What the lock and the claim still guarantee when a transaction commits. */
  lemma CommitReady(s: DB, t: nat)
    requires LocksOf(s) && RowsInv(s) && ClaimsInv(s) && t in s.txs && s.txs[t].stage == Allocated
    ensures StillClaimed(s, s.txs[t]) && s.txs[t].iv in s.ivs && !s.ivs[s.txs[t].iv].purged
    ensures KeyOf(s.txs[t].kind) in s.claims.homes && s.claims.homes[KeyOf(s.txs[t].kind)] == s.txs[t].iv
    ensures CountOf(s.txs[t].kind) >= 1 && Pending(s.txs[t], s.past.log, s.nextId)
  {
    assert LockInv(s.ivs, s.claims.homes, s.txs[t]);
  }

  lemma TablesCommit(s: DB, t: nat)
    requires LocksOf(s) && RowsInv(s) && ClaimsInv(s) && t in s.txs && s.txs[t].stage == Allocated
    requires s.txs[t].iv in s.ivs && CountOf(s.txs[t].kind) >= 1
    ensures Tables(CommitAllocation(s, t).ivs, CommitAllocation(s, t).claims)
  {
    CommitReady(s, t);
  }

  lemma HeldCommit(s: DB, t: nat)
    requires LocksOf(s) && RowsInv(s) && ClaimsInv(s) && t in s.txs && s.txs[t].stage == Allocated
    requires s.txs[t].iv in s.ivs && CountOf(s.txs[t].kind) >= 1
    ensures ClaimsHeld(CommitAllocation(s, t))
  {
    CommitReady(s, t);
    var s' := CommitAllocation(s, t);
    forall u | u in s'.txs && Claiming(s'.txs[u]) ensures StillClaimed(s', s'.txs[u]) || IsPurged(s'.ivs, s'.txs[u].iv) {
      assert StillClaimed(s, s.txs[u]) || IsPurged(s.ivs, s.txs[u].iv);
      assert ClaimFree(s.txs, u, s.txs[u].kind);
      assert !SameClaim(s.txs[u].kind, s.txs[t].kind);
    }
  }

  /** A row that the claim allows is a new event, in client order. */
  lemma NewRow(s: DB, t: nat, prior: Row)
    requires LocksOf(s) && RowsInv(s) && ClaimsInv(s) && t in s.txs && s.txs[t].stage == Allocated
    requires prior in s.past.log
    ensures forall r :: r in s.txs[t].rows ==> !SameEvent(prior, r)
    ensures forall r :: r in s.txs[t].rows && prior.tag.Diffed? && r.tag.Diffed? && prior.key == r.key ==> prior.tag.clientSeq < r.tag.clientSeq
  {
    CommitReady(s, t);
    var i :| 0 <= i < |s.past.log| && s.past.log[i] == prior;
    assert Witnessed(s.past.log[i], s.ivs, s.claims) && RowOk(s.past.log[i], s.ivs, s.claims.homes, s.nextId);
  }

  lemma WitnessedCommit(s: DB, t: nat, r: Row)
    requires LocksOf(s) && RowsInv(s) && ClaimsInv(s) && t in s.txs && s.txs[t].stage == Allocated
    requires r in s.past.log + s.txs[t].rows && s.txs[t].iv in s.ivs && CountOf(s.txs[t].kind) >= 1
    ensures Witnessed(r, CommitAllocation(s, t).ivs, CommitAllocation(s, t).claims)
  {
    CommitReady(s, t);
    if r in s.past.log {
      var i :| 0 <= i < |s.past.log| && s.past.log[i] == r;
      assert Witnessed(s.past.log[i], s.ivs, s.claims) && RowOk(s.past.log[i], s.ivs, s.claims.homes, s.nextId);
    }
  }

  lemma LogCommit(s: DB, t: nat)
    requires LocksOf(s) && RowsInv(s) && ClaimsInv(s) && t in s.txs && s.txs[t].stage == Allocated
    requires s.txs[t].iv in s.ivs && CountOf(s.txs[t].kind) >= 1 && |s.txs[t].rows| == |OffsetsOf(s.txs[t].kind)|
    ensures LogClaims(s.past.log + s.txs[t].rows, CommitAllocation(s, t).ivs, CommitAllocation(s, t).claims)
  {
    CommitReady(s, t);
    var tx := s.txs[t];
    var log := s.past.log;
    var log' := log + tx.rows;
    var c' := CommitAllocation(s, t).claims;
    forall i | 0 <= i < |log'| ensures Witnessed(log'[i], CommitAllocation(s, t).ivs, c') {
      WitnessedCommit(s, t, log'[i]);
    }
    forall i, j | 0 <= i < j < |log'|
      ensures !SameEvent(log'[i], log'[j])
      ensures log'[i].tag.Diffed? && log'[j].tag.Diffed? && log'[i].key == log'[j].key ==> log'[i].tag.clientSeq < log'[j].tag.clientSeq
    {
      if i < |log| <= j { NewRow(s, t, log[i]); }
    }
    forall x | x in c'.scores ensures exists i :: 0 <= i < |log'| && log'[i].tag.Scored? && log'[i].key == x {
      if x in s.claims.scores {
        var i :| 0 <= i < |log| && log[i].tag.Scored? && log[i].key == x;
        assert log'[i] == log[i];
      } else {
        assert log'[|log|] == tx.rows[0];
      }
    }
  }

  lemma ClaimsPurge(s: DB, t: nat, now: int)
    requires LocksOf(s) && RowsInv(s) && ClaimsInv(s) && t in s.txs && s.txs[t].iv in s.ivs
    ensures ClaimsInv(CommitPurge(s, t, now))
  {
    var s' := CommitPurge(s, t, now);
    forall i | 0 <= i < |s.past.log| ensures Witnessed(s.past.log[i], s'.ivs, s'.claims) {
      assert Witnessed(s.past.log[i], s.ivs, s.claims) && RowOk(s.past.log[i], s.ivs, s.claims.homes, s.nextId);
    }
    forall u | u in s'.txs && Claiming(s'.txs[u]) ensures StillClaimed(s', s'.txs[u]) || IsPurged(s'.ivs, s'.txs[u].iv) {
      assert StillClaimed(s, s.txs[u]) || IsPurged(s.ivs, s.txs[u].iv);
    }
  }

  lemma ClaimsTx(s: DB, t: nat, a: TxAction)
    requires LocksOf(s) && RowsInv(s) && ClaimsInv(s) && t in s.txs
    ensures ClaimsInv(TxStep(s, t, a))
  {
    if a.Guard? { ClaimsGuard(s, t, a.expired); }
    else if !a.Commit? { ClaimsQuiet(s, t, a); }
    else {
      var tx := s.txs[t];
      assert LockInv(s.ivs, s.claims.homes, tx);
      if tx.stage == Allocated && |tx.rows| == |OffsetsOf(tx.kind)| {
        TablesCommit(s, t);
        HeldCommit(s, t);
        LogCommit(s, t);
      } else if tx.stage == LogDeleted {
        ClaimsPurge(s, t, a.now);
      }
    }
  }

  lemma ClaimsAdmin(s: DB, iv: nat, a: AdminAction)
    requires ClaimsInv(s)
    ensures ClaimsInv(AdminStep(s, iv, a))
  {
    OnlyCommits(s, Admin(iv, a));
    ClaimsFrame(s, AdminStep(s, iv, a));
  }

  lemma ClaimsBegin(s: DB, t: nat, kind: Kind)
    requires ClaimsInv(s)
    ensures ClaimsInv(BeginStep(s, t, kind))
  {
    OnlyCommits(s, Begin(t, kind));
    ClaimsFrame(s, BeginStep(s, t, kind));
  }

  lemma ClaimsRelay(s: DB, p: Pipe)
    requires ClaimsInv(s) && p.outbox <= s.pipe.outbox
    ensures ClaimsInv(s.(pipe := p))
  {
    ClaimsFrame(s, s.(pipe := p));
  }

  lemma ClaimsOrphan(s: DB, e: Erasure)
    requires ClaimsInv(s) && e.purges == s.erasure.purges
    ensures ClaimsInv(s.(erasure := e))
  {
    ClaimsFrame(s, s.(erasure := e));
  }

  lemma ClaimsStep(s: DB, a: Action)
    requires LocksOf(s) && RowsInv(s) && ClaimsInv(s)
    ensures ClaimsInv(Step(s, a))
  {
    match a
    case Exec(t, tx) => if t in s.txs { ClaimsTx(s, t, tx); }
    case Admin(iv, admin) => ClaimsAdmin(s, iv, admin);
    case Begin(t, kind) => ClaimsBegin(s, t, kind);
    case Orphaned(t, ok) => ClaimsOrphan(s, OrphanStep(s.erasure, t, ok));
    case Relaying(r, relay) =>
      OnlyCommits(s, a);
      ClaimsRelay(s, RelayStep(s.pipe, r, relay));
  }
}
