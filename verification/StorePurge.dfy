/** The purge: external deletes only while eligible and locked, unless the purge
  * lost its connection; one purge and one purge_log row per interview, and
  * nothing new afterwards.
  */
module StorePurge {
  import opened Prelude
  import opened StoreModel
  import opened StoreSafety
  import opened StoreClaims

  ghost predicate Distinct(xs: seq<nat>) { forall i, j :: 0 <= i < j < |xs| ==> xs[i] != xs[j] }

  ghost predicate ErasureInv(ivs: map<nat, Interview>, e: Erasure) {
    && Distinct(e.purges)
    && (forall i :: i in e.purges <==> IsPurged(ivs, i))
    && (forall i :: i in e.purgeLog <==> i in e.purges)
    && (forall i :: i in e.purges ==> i in e.searchErased && i in e.logErased)
    && e.logErased <= e.searchErased
  }

  /** An orphan has no transaction, and deletes the search documents first. */
  ghost predicate OrphansInv(txs: map<nat, Tx>, e: Erasure) {
    forall t :: t in e.orphans ==> t !in txs && (e.orphans[t].searchDone ==> e.orphans[t].iv in e.searchErased)
  }

  ghost predicate PurgeInv(s: DB) {
    && ErasureInv(s.ivs, s.erasure) && OrphansInv(s.txs, s.erasure)
    && (forall t :: t in s.txs && (s.txs[t].stage == SearchDeleted || s.txs[t].stage == LogDeleted) ==> s.txs[t].iv in s.erasure.searchErased)
    && (forall t :: t in s.txs && s.txs[t].stage == LogDeleted ==> s.txs[t].iv in s.erasure.logErased)
  }

  lemma PurgeTx(s: DB, t: nat, a: TxAction)
    requires LocksOf(s) && PurgeInv(s) && t in s.txs && !a.Commit?
    ensures PurgeInv(TxStep(s, t, a))
  {
    KeepsTx(s, t, a);
    match a
    case Guard(expired) =>
    case Allocate =>
    case InsertRow =>
    case PurgeLock =>
    case DeleteSearch(ok) =>
    case DeleteLog(ok) =>
    case Abort =>
    case LoseConnection =>
  }

  lemma PurgeCommit(s: DB, t: nat, now: int)
    requires LocksOf(s) && PurgeInv(s) && t in s.txs
    ensures PurgeInv(CommitStep(s, t, now))
  {
    assert LockInv(s.ivs, s.claims.homes, s.txs[t]);
  }

  lemma PurgeStep(s: DB, a: Action)
    requires LocksOf(s) && PurgeInv(s)
    ensures PurgeInv(Step(s, a))
  {
    match a
    case Exec(t, tx) =>
      if t in s.txs {
        if tx.Commit? { PurgeCommit(s, t, tx.now); } else { PurgeTx(s, t, tx); }
      }
    case Admin(iv, admin) =>
      OnlyCommits(s, a);
      assert AdminStep(s, iv, admin).txs == s.txs && AdminStep(s, iv, admin).erasure == s.erasure;
    case Begin(t, kind) =>
    case Orphaned(t, ok) =>
    case Relaying(_, _) =>
  }

  // ---- External deletes ----

  /** An external delete: who attempts it, on which interview, and the retention
    * cutoff the purge was started with. */
  datatype Delete = Delete(t: nat, iv: nat, cutoff: int)

  /** The external delete an action attempts, whether it succeeds or not. */
  function Attempted(s: DB, a: Action): Option<Delete> {
    match a
    case Exec(t, DeleteSearch(_)) =>
      if t in s.txs && s.txs[t].stage == Locked then Some(Delete(t, s.txs[t].iv, CutoffOf(s.txs[t].kind))) else None
    case Exec(t, DeleteLog(_)) =>
      if t in s.txs && s.txs[t].stage == SearchDeleted then Some(Delete(t, s.txs[t].iv, CutoffOf(s.txs[t].kind))) else None
    case Orphaned(t, _) =>
      if t in s.erasure.orphans then Some(Delete(t, s.erasure.orphans[t].iv, s.erasure.orphans[t].cutoff)) else None
    case _ => None
  }

  /** The interview is eligible in the committed table, and the purge that
    * deletes, and nobody else, holds its row. */
  predicate Protected(s: DB, d: Delete) {
    && d.iv in s.ivs && Eligible(s.ivs[d.iv], d.cutoff)
    && d.t in s.txs && HoldsLock(s.txs[d.t]) && s.txs[d.t].iv == d.iv
    && LockFree(Without(s.txs, d.t), d.iv)
  }

  /** An external delete is protected exactly when its purge is not an orphan;
    * the event log goes after the search documents in either case. */
  lemma DeletesWhileEligible(s: DB, a: Action)
    requires LocksOf(s) && PurgeInv(s) && Attempted(s, a).Some?
    ensures Protected(s, Attempted(s, a).value) <==> a.t !in s.erasure.orphans
    ensures Attempted(s, a).value.iv in Step(s, a).erasure.logErased ==> Attempted(s, a).value.iv in Step(s, a).erasure.searchErased
  {
    if a.t in s.txs { assert LockInv(s.ivs, s.claims.homes, s.txs[a.t]); }
    PurgeStep(s, a);
  }

  // ---- After the purge ----

  /** No session, no score, no number and no row can be added for the interview. */
  ghost predicate Frozen(s: DB, s': DB, iv: nat) {
    && iv in s.ivs && IsPurged(s'.ivs, iv) && s'.ivs[iv].last == s.ivs[iv].last
    && (forall x :: x in s'.claims.sessions ==> s'.claims.sessions[x].iv != iv)
    && (forall x :: x in s'.claims.scores ==> s'.claims.scores[x] != iv)
    && (forall r :: r in s'.past.log && r.iv == iv ==> r in s.past.log)
    && (forall g :: g in s'.past.grants && g.iv == iv ==> g in s.past.grants)
  }

  lemma FrozenCommit(s: DB, t: nat, now: int, iv: nat)
    requires LocksOf(s) && RowsInv(s) && ClaimsInv(s) && IsPurged(s.ivs, iv) && t in s.txs
    ensures IsPurged(CommitStep(s, t, now).ivs, iv) && CommitStep(s, t, now).ivs[iv].last == s.ivs[iv].last
    ensures forall r :: r in CommitStep(s, t, now).past.log && r.iv == iv ==> r in s.past.log
    ensures forall g :: g in CommitStep(s, t, now).past.grants && g.iv == iv ==> g in s.past.grants
  {
    assert LockInv(s.ivs, s.claims.homes, s.txs[t]);
  }

  lemma FrozenStep(s: DB, a: Action, iv: nat)
    requires LocksOf(s) && RowsInv(s) && ClaimsInv(s) && IsPurged(s.ivs, iv)
    requires LocksOf(Step(s, a)) && RowsInv(Step(s, a)) && ClaimsInv(Step(s, a))
    ensures Frozen(s, Step(s, a), iv)
  {
    if IsCommit(a) {
      if a.t in s.txs { FrozenCommit(s, a.t, a.tx.now, iv); }
    } else {
      OnlyCommits(s, a);
    }
    assert Tables(Step(s, a).ivs, Step(s, a).claims);
  }
}
