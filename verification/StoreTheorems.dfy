/** The promises of the store over every run from an empty database. */
module StoreTheorems {
  import opened Prelude
  import opened StoreModel
  import opened StoreSafety
  import opened StoreClaims
  import opened StoreRelay
  import opened StorePurge

  ghost predicate Inv(s: DB) {
    && LocksOf(s) && Counters(s.ivs, s.past.grants) && RowsInv(s) && ClaimsInv(s)
    && PipeInv(s.past.log, s.pipe) && PurgeInv(s)
  }

  lemma InvStep(s: DB, a: Action)
    requires Inv(s)
    ensures Inv(Step(s, a))
  {
    LocksStep(s, a);
    CountersStep(s, a);
    RowsStep(s, a);
    ClaimsStep(s, a);
    PipeStep(s, a);
    PurgeStep(s, a);
  }

  lemma {:induction false} InvRun(s: DB, actions: seq<Action>)
    requires Inv(s)
    ensures Inv(Run(s, actions))
  {
    if actions != [] {
      InvRun(s, actions[..|actions| - 1]);
      InvStep(Run(s, actions[..|actions| - 1]), actions[|actions| - 1]);
    }
  }

  lemma InvEmpty()
    ensures Inv(EMPTY) && NoRepeat(EMPTY.pipe)
  {}

  // ---- Allocation ----

  /** Committed allocations of an interview are exactly 1 .. last_sequence_number,
    * every number granted by one transaction only, reserved numbers included. */
  lemma AllocationIsGapless(actions: seq<Action>, iv: nat, n: nat)
    ensures var s := Run(EMPTY, actions);
      (iv in s.ivs && 1 <= n <= s.ivs[iv].last <==> Granted(s.past.grants, iv, n))
    ensures var g := Run(EMPTY, actions).past.grants;
      forall j, k :: 0 <= j < k < |g| && Covers(g[j], iv, n) ==> !Covers(g[k], iv, n)
  {
    InvEmpty();
    InvRun(EMPTY, actions);
    GrantedOnce(Run(EMPTY, actions).past.grants, iv, n);
  }

  /** Of two rows of one interview the one committed first has the lower number
    * and the lower outbox id; each number was granted to its interview. */
  lemma OutboxFollowsNumbers(actions: seq<Action>)
    ensures Ordered(Run(EMPTY, actions).past.log)
    ensures forall r :: r in Run(EMPTY, actions).past.log ==> Granted(Run(EMPTY, actions).past.grants, r.iv, r.no)
  {
    InvEmpty();
    InvRun(EMPTY, actions);
    var s := Run(EMPTY, actions);
    forall r | r in s.past.log ensures Granted(s.past.grants, r.iv, r.no) {
      var i :| 0 <= i < |s.past.log| && s.past.log[i] == r;
      assert RowOk(s.past.log[i], s.ivs, s.claims.homes, s.nextId);
      GrantedOnce(s.past.grants, r.iv, r.no);
    }
  }

  // ---- Relay ----

  /** Whatever fails or competes, a committed row is in the outbox or in Kafka,
    * and the first occurrences of one key's rows in Kafka ascend. */
  lemma RelayDelivers(actions: seq<Action>)
    ensures var s := Run(EMPTY, actions); NothingLost(s.past.log, s.pipe)
    ensures var kafka := Run(EMPTY, actions).pipe.kafka;
      forall i, j :: 0 <= i < j && FirstAt(kafka, i) && FirstAt(kafka, j) && kafka[i].key == kafka[j].key && kafka[i].no != kafka[j].no
        ==> kafka[i].no < kafka[j].no
  {
    InvEmpty();
    InvRun(EMPTY, actions);
    var s := Run(EMPTY, actions);
    forall i, j | 0 <= i < j && FirstAt(s.pipe.kafka, i) && FirstAt(s.pipe.kafka, j)
        && s.pipe.kafka[i].key == s.pipe.kafka[j].key && s.pipe.kafka[i].no != s.pipe.kafka[j].no
      ensures s.pipe.kafka[i].no < s.pipe.kafka[j].no
    {
      FirstOccurrencesAscend(s.past.log, s.pipe, i, j);
    }
  }

  /** With no failed attempt and no lost lock every row is published once. */
  lemma {:induction false} FaultlessRelayNeverRepeats(actions: seq<Action>)
    requires forall i :: 0 <= i < |actions| ==> Faultless(actions[i])
    ensures NoRepeat(Run(EMPTY, actions).pipe)
  {
    InvEmpty();
    if actions != [] {
      var before := actions[..|actions| - 1];
      FaultlessRelayNeverRepeats(before);
      InvRun(EMPTY, before);
      NoRepeatStep(Run(EMPTY, before), actions[|actions| - 1]);
    }
  }

  // ---- Claims ----

  /** An invite starts at most one session and a session gets at most one
    * score.computed; a stored score always has its event. */
  lemma StartedAndScoredOnce(actions: seq<Action>)
    ensures var log := Run(EMPTY, actions).past.log; forall i, j :: 0 <= i < j < |log| ==> !SameEvent(log[i], log[j])
    ensures var s := Run(EMPTY, actions);
      forall x :: x in s.claims.scores ==> exists i :: 0 <= i < |s.past.log| && s.past.log[i].tag.Scored? && s.past.log[i].key == x
  {
    InvEmpty();
    InvRun(EMPTY, actions);
  }

  predicate SameSessionDiffs(a: Row, b: Row) { a.tag.Diffed? && b.tag.Diffed? && a.key == b.key }

  lemma LaterDiff(s: DB, i: nat, j: nat)
    requires Inv(s) && i < j < |s.past.log| && SameSessionDiffs(s.past.log[i], s.past.log[j])
    ensures s.past.log[i].tag.clientSeq < s.past.log[j].tag.clientSeq && s.past.log[i].no < s.past.log[j].no
  {
    assert RowOk(s.past.log[i], s.ivs, s.claims.homes, s.nextId) && RowOk(s.past.log[j], s.ivs, s.claims.homes, s.nextId);
  }

  /** A session's diffs have the same order by client and by interview number. */
  lemma DiffsKeepClientOrder(actions: seq<Action>)
    ensures var log := Run(EMPTY, actions).past.log;
      forall i, j :: 0 <= i < |log| && 0 <= j < |log| && SameSessionDiffs(log[i], log[j])
        ==> (log[i].tag.clientSeq < log[j].tag.clientSeq <==> log[i].no < log[j].no)
  {
    InvEmpty();
    InvRun(EMPTY, actions);
    var s := Run(EMPTY, actions);
    var log := s.past.log;
    forall i, j | 0 <= i < |log| && 0 <= j < |log| && SameSessionDiffs(log[i], log[j])
      ensures log[i].tag.clientSeq < log[j].tag.clientSeq <==> log[i].no < log[j].no
    {
      if i < j { LaterDiff(s, i, j); }
      if j < i { LaterDiff(s, j, i); }
    }
  }

  // ---- Purge ----

  /** purged_at is committed only after both external deletes succeeded, once
    * per interview, with one purge_log row; nothing of it is left behind. */
  lemma PurgedOnceAfterDeletes(actions: seq<Action>, iv: nat)
    ensures var s := Run(EMPTY, actions);
      && (IsPurged(s.ivs, iv) ==> iv in s.erasure.searchErased && iv in s.erasure.logErased)
      && (IsPurged(s.ivs, iv) <==> iv in s.erasure.purgeLog)
      && Distinct(s.erasure.purges) && (iv in s.erasure.purgeLog <==> iv in s.erasure.purges)
      && (IsPurged(s.ivs, iv) ==> forall x :: x in s.claims.sessions ==> s.claims.sessions[x].iv != iv)
      && (IsPurged(s.ivs, iv) ==> forall x :: x in s.claims.scores ==> s.claims.scores[x] != iv)
  {
    InvEmpty();
    InvRun(EMPTY, actions);
  }

  /** Purge t lost its connection between its lock and its last external delete,
    * and has had no transaction since. */
  ghost predicate Lost(actions: seq<Action>, t: nat) {
    exists k :: 0 <= k < |actions| && LostAt(actions, t, k)
  }

  ghost predicate LostAt(actions: seq<Action>, t: nat, k: nat)
    requires k < |actions|
  {
    && actions[k] == Exec(t, LoseConnection)
    && t in Run(EMPTY, actions[..k]).txs && Deleting(Run(EMPTY, actions[..k]).txs[t])
    && forall j :: k < j <= |actions| ==> t !in Run(EMPTY, actions[..j]).txs
  }

  lemma LostStays(actions: seq<Action>, a: Action, t: nat)
    requires Lost(actions, t) && t !in Run(EMPTY, actions + [a]).txs
    ensures Lost(actions + [a], t)
  {
    var k :| 0 <= k < |actions| && LostAt(actions, t, k);
    var longer := actions + [a];
    assert longer[..k] == actions[..k];
    forall j | k < j <= |longer| ensures t !in Run(EMPTY, longer[..j]).txs {
      if j <= |actions| { assert longer[..j] == actions[..j]; } else { assert longer[..j] == longer; }
    }
    assert LostAt(longer, t, k);
  }

  lemma LostNow(actions: seq<Action>, t: nat)
    requires t in Run(EMPTY, actions).txs && Deleting(Run(EMPTY, actions).txs[t])
    ensures Lost(actions + [Exec(t, LoseConnection)], t)
  {
    var longer := actions + [Exec(t, LoseConnection)];
    assert longer[..|actions|] == actions && longer[..|longer|] == longer;
    RunSnoc(EMPTY, actions, Exec(t, LoseConnection));
    assert LostAt(longer, t, |actions|);
  }

  lemma {:induction false} OrphansLost(actions: seq<Action>, t: nat)
    requires t in Run(EMPTY, actions).erasure.orphans
    ensures Lost(actions, t)
  {
    if actions != [] {
      var before, a := actions[..|actions| - 1], actions[|actions| - 1];
      assert actions == before + [a];
      if t in Run(EMPTY, before).erasure.orphans {
        OrphansLost(before, t);
        NoTransaction(actions, t);
        LostStays(before, a, t);
      } else {
        NewOrphan(Run(EMPTY, before), a, t);
        LostNow(before, t);
      }
    }
  }

  lemma NoTransaction(actions: seq<Action>, t: nat)
    requires t in Run(EMPTY, actions).erasure.orphans
    ensures t !in Run(EMPTY, actions).txs
  {
    InvEmpty();
    InvRun(EMPTY, actions);
  }

  lemma NewOrphan(s: DB, a: Action, t: nat)
    requires t !in s.erasure.orphans && t in Step(s, a).erasure.orphans
    ensures a == Exec(t, LoseConnection) && t in s.txs && Deleting(s.txs[t])
  {}

  /** In every run an external delete is attempted on an eligible interview whose
    * row its purge alone has locked, exactly when that purge's connection was
    * not lost between its lock and the delete. */
  lemma DeletesProtectedIff(actions: seq<Action>, a: Action)
    requires Attempted(Run(EMPTY, actions), a).Some?
    ensures Protected(Run(EMPTY, actions), Attempted(Run(EMPTY, actions), a).value) <==> !Lost(actions, a.t)
  {
    InvEmpty();
    InvRun(EMPTY, actions);
    DeletesWhileEligible(Run(EMPTY, actions), a);
    if a.t in Run(EMPTY, actions).erasure.orphans { OrphansLost(actions, a.t); }
    assert actions[..|actions|] == actions;
  }

  /** What an orphan still deletes. */
  function OrphanSteps(t: nat, stage: Stage): seq<Action> {
    if stage == Locked then [Orphaned(t, true), Orphaned(t, true)] else [Orphaned(t, true)]
  }

  /** A purge loses its connection, its interview is put on legal hold, and the
    * housekeeper does the deletes it has left. */
  function HeldRun(tx: Tx, t: nat): seq<Action> {
    [Exec(t, LoseConnection), Admin(tx.iv, Update(Hold(true)))] + OrphanSteps(t, tx.stage)
  }

  lemma OrphanErases(s: DB, t: nat, stage: Stage)
    requires t in s.erasure.orphans && (s.erasure.orphans[t].searchDone <==> stage != Locked)
    requires s.erasure.orphans[t].searchDone ==> s.erasure.orphans[t].iv in s.erasure.searchErased
    ensures var s', iv := Run(s, OrphanSteps(t, stage)), s.erasure.orphans[t].iv;
      && s'.ivs == s.ivs && s'.erasure.purgeLog == s.erasure.purgeLog
      && iv in s'.erasure.searchErased && iv in s'.erasure.logErased
  {
    if stage == Locked { RunTwo(s, Orphaned(t, true), Orphaned(t, true)); } else { RunSnoc(s, [], Orphaned(t, true)); }
  }

  lemma LoseThenHold(s: DB, t: nat)
    requires Inv(s) && t in s.txs && Deleting(s.txs[t])
    ensures var iv, s' := s.txs[t].iv, Run(s, [Exec(t, LoseConnection), Admin(s.txs[t].iv, Update(Hold(true)))]);
      && iv in s.ivs && !s.ivs[iv].hold && iv in s'.ivs && s'.ivs[iv].hold && !s'.ivs[iv].purged && iv !in s'.erasure.purgeLog
      && t in s'.erasure.orphans && s'.erasure.orphans[t].iv == iv && (s'.erasure.orphans[t].searchDone <==> s.txs[t].stage != Locked)
      && (s'.erasure.orphans[t].searchDone ==> iv in s'.erasure.searchErased)
  {
    var iv := s.txs[t].iv;
    assert LockInv(s.ivs, s.claims.homes, s.txs[t]);
    assert LockFree(LoseConnectionStep(s, t).txs, iv);
    assert iv !in s.erasure.purgeLog;
    RunTwo(s, Exec(t, LoseConnection), Admin(iv, Update(Hold(true))));
  }

  predicate HeldButErased(s: DB, iv: nat) {
    && iv in s.ivs && s.ivs[iv].hold && !s.ivs[iv].purged && iv !in s.erasure.purgeLog
    && iv in s.erasure.searchErased && iv in s.erasure.logErased
  }

  /** From every state with a purge between its lock and its last delete, a hold
    * set after its connection is lost does not stop the deletes: the interview
    * is held and not purged, and its search documents and log rows are gone. */
  lemma LostPurgeErasesHeld(s: DB, t: nat)
    requires Inv(s) && t in s.txs && Deleting(s.txs[t])
    ensures s.txs[t].iv in s.ivs && !s.ivs[s.txs[t].iv].hold && HeldButErased(Run(s, HeldRun(s.txs[t], t)), s.txs[t].iv)
  {
    var steps := [Exec(t, LoseConnection), Admin(s.txs[t].iv, Update(Hold(true)))];
    LoseThenHold(s, t);
    OrphanErases(Run(s, steps), t, s.txs[t].stage);
    RunConcat(s, steps, OrphanSteps(t, s.txs[t].stage));
  }

  lemma {:induction false} RunConcat(s: DB, a: seq<Action>, b: seq<Action>)
    ensures Run(s, a + b) == Run(Run(s, a), b)
  {
    if b == [] {
      assert a + b == a;
    } else {
      RunConcat(s, a, b[..|b| - 1]);
      RunSnoc(s, a + b[..|b| - 1], b[|b| - 1]);
      assert a + b == a + b[..|b| - 1] + [b[|b| - 1]];
    }
  }

  lemma RunSnoc(s: DB, actions: seq<Action>, a: Action)
    ensures Run(s, actions + [a]) == Step(Run(s, actions), a)
  {
    assert (actions + [a])[..|actions|] == actions;
  }

  lemma RunTwo(s: DB, a: Action, b: Action)
    ensures Run(s, [a, b]) == Step(Step(s, a), b)
  {
    RunSnoc(s, [], a);
    RunSnoc(s, [a], b);
  }

  function PurgeSteps(t: nat, iv: nat, cutoff: int): seq<Action> {
    [Begin(t, Kind.Purge(iv, cutoff)), Exec(t, PurgeLock), Exec(t, DeleteSearch(true))]
  }

  /** Every eligible interview whose row is free gets there. */
  lemma PurgeReaches(s: DB, t: nat, iv: nat, cutoff: int)
    requires t !in s.txs && t !in s.erasure.orphans && iv in s.ivs && Eligible(s.ivs[iv], cutoff) && LockFree(s.txs, iv)
    ensures var s' := Run(s, PurgeSteps(t, iv, cutoff));
      t in s'.txs && s'.txs[t] == PurgingTx(iv, cutoff, SearchDeleted)
  {
    var s1 := BeginStep(s, t, Kind.Purge(iv, cutoff));
    assert LockFree(s1.txs, iv);
    RunTwo(s, Begin(t, Kind.Purge(iv, cutoff)), Exec(t, PurgeLock));
    RunSnoc(s, [Begin(t, Kind.Purge(iv, cutoff)), Exec(t, PurgeLock)], Exec(t, DeleteSearch(true)));
    assert PurgeSteps(t, iv, cutoff) == [Begin(t, Kind.Purge(iv, cutoff)), Exec(t, PurgeLock)] + [Exec(t, DeleteSearch(true))];
  }

  lemma LockedThenLost(s: DB, t: nat, iv: nat, cutoff: int)
    requires Inv(s) && t !in s.txs && t !in s.erasure.orphans && iv in s.ivs && Eligible(s.ivs[iv], cutoff) && LockFree(s.txs, iv)
    ensures HeldButErased(Run(Run(s, PurgeSteps(t, iv, cutoff)), HeldRun(PurgingTx(iv, cutoff, SearchDeleted), t)), iv)
  {
    PurgeReaches(s, t, iv, cutoff);
    InvRun(s, PurgeSteps(t, iv, cutoff));
    LostPurgeErasesHeld(Run(s, PurgeSteps(t, iv, cutoff)), t);
  }

  /** A new interview whose erasure is requested is ready to be purged. */
  lemma ReadyToPurge(s: DB, iv: nat)
    requires Inv(s) && s.txs == map[] && iv !in s.ivs
    ensures var s' := Run(s, [Admin(iv, NewInterview), Admin(iv, Update(RequestErasure))]);
      Inv(s') && s'.txs == map[] && s'.erasure == s.erasure && iv in s'.ivs && forall c :: Eligible(s'.ivs[iv], c)
  {
    InvRun(s, [Admin(iv, NewInterview), Admin(iv, Update(RequestErasure))]);
    RunTwo(s, Admin(iv, NewInterview), Admin(iv, Update(RequestErasure)));
  }

  /** Such a run from an empty database: lock, search documents, lost connection,
    * legal hold, and then the log rows of the held interview. */
  lemma HeldInterviewErased(t: nat, iv: nat, cutoff: int)
    ensures HeldButErased(Run(EMPTY, [Admin(iv, NewInterview), Admin(iv, Update(RequestErasure))]
        + PurgeSteps(t, iv, cutoff)
        + [Exec(t, LoseConnection), Admin(iv, Update(Hold(true))), Orphaned(t, true)]), iv)
  {
    var ready := [Admin(iv, NewInterview), Admin(iv, Update(RequestErasure))];
    var rest := [Exec(t, LoseConnection), Admin(iv, Update(Hold(true))), Orphaned(t, true)];
    InvEmpty();
    ReadyToPurge(EMPTY, iv);
    LockedThenLost(Run(EMPTY, ready), t, iv, cutoff);
    RunConcat(EMPTY, ready, PurgeSteps(t, iv, cutoff));
    RunConcat(EMPTY, ready + PurgeSteps(t, iv, cutoff), rest);
    assert HeldRun(PurgingTx(iv, cutoff, SearchDeleted), t) == rest;
  }

  /** After the purge no session start, allocation or score of it commits. */
  lemma {:induction false} PurgeIsFinal(s: DB, actions: seq<Action>, iv: nat)
    requires Inv(s) && IsPurged(s.ivs, iv)
    ensures Frozen(s, Run(s, actions), iv)
  {
    if actions == [] {
      assert Tables(s.ivs, s.claims);
    } else {
      var before := actions[..|actions| - 1];
      PurgeIsFinal(s, before, iv);
      InvRun(s, before);
      InvStep(Run(s, before), actions[|actions| - 1]);
      FrozenStep(Run(s, before), actions[|actions| - 1], iv);
    }
  }
}
