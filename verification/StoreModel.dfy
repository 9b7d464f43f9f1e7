/** The Postgres side of the platform as a state machine over transaction steps.
  *
  * A step is one SQL statement of one open transaction, a commit, an abort, or
  * one action of a relay. Statements of different transactions interleave
  * freely. A transaction's writes stay private until it commits; the interview
  * row lock it takes is held until it ends. A statement that has to wait for a
  * lock, and an action that does not apply, leave the state as it is; a
  * statement that finds its row unsuitable aborts the transaction. When a
  * purge's connection is lost the database rolls the transaction back and frees
  * its lock, but the housekeeper goes on with its external deletes: from then on
  * it is an orphan.
  */
module StoreModel {
  import opened Prelude

  // ---- Tables ----

  datatype Interview = Interview(last: nat, hold: bool, erase: bool, terminal: Option<int>, purged: bool)
  datatype Session = Session(iv: nat, lastDiff: int)
  datatype Invite = Invite(iv: nat, accepted: bool)

  /** What an outbox row announces. */
  datatype Tag = Started(invite: nat) | Recorded | Diffed(clientSeq: int) | Scored

  /** An outbox row: its bigserial id, the interview and the sequence number it
    * carries, and its Kafka message key, which is a session id. */
  datatype Row = Row(id: nat, iv: nat, no: nat, key: nat, tag: Tag)

  /** One committed allocation: the numbers first .. first + count - 1. */
  datatype Grant = Grant(iv: nat, first: nat, count: nat)

  // ---- Transactions ----

  datatype Kind =
    | RecordEvents(iv: nat, key: nat, count: int, offsets: seq<nat>)
    | StartSession(invite: nat, session: nat)
    | RecordDiff(iv: nat, session: nat, clientSeq: int)
    | SaveScore(iv: nat, session: nat)
    | Purge(iv: nat, cutoff: int)

  /** Guarded: the invite is consumed, the diff guard passed or the score
    * inserted. The interview row lock is held from Allocated or Locked on. */
  datatype Stage = Opened | Guarded | Allocated | Locked | SearchDeleted | LogDeleted

  datatype Tx = Tx(kind: Kind, stage: Stage, iv: nat, first: nat, rows: seq<Row>)

  /** A relay: the batch it read, and which of its rows it has written. */
  datatype Relay = Relay(batch: seq<Row>, written: set<nat>, locked: bool)

  /** Rows only one transaction may claim. `homes` and `issued` are history: the
    * interview of every session id, and every invite id, ever used. */
  datatype Claims = Claims(sessions: map<nat, Session>, invites: map<nat, Invite>, scores: map<nat, nat>,
                           homes: map<nat, nat>, issued: set<nat>)

  /** The outbox table, the relays, and everything Kafka has received. */
  datatype Pipe = Pipe(outbox: set<Row>, relays: map<nat, Relay>, kafka: seq<Row>)

  /** History: committed rows and allocations, in commit order. */
  datatype Past = Past(log: seq<Row>, grants: seq<Grant>)

  /** A housekeeper whose purge lost its connection with deletes still to do. */
  datatype Orphan = Orphan(iv: nat, cutoff: int, searchDone: bool)

  /** The purge_log table, the orphans, and history: the committed purges in
    * order and the interviews whose external deletes succeeded. */
  datatype Erasure = Erasure(purgeLog: set<nat>, purges: seq<nat>, searchErased: set<nat>, logErased: set<nat>, orphans: map<nat, Orphan>)

  datatype DB = DB(txs: map<nat, Tx>, ivs: map<nat, Interview>, nextId: nat, claims: Claims, pipe: Pipe, past: Past, erasure: Erasure)

  const EMPTY: DB :=
    DB(map[], map[], 1, Claims(map[], map[], map[], map[], {}), Pipe({}, map[], []), Past([], []), Erasure({}, [], {}, {}, map[]))

  /** What an administrator changes on an interview row. */
  datatype Change = Hold(on: bool) | RequestErasure | Terminate(at: int)

  datatype AdminAction = NewInterview | NewInvite(invite: nat) | Update(change: Change)

  datatype TxAction =
    | Guard(expired: bool)
    | Allocate
    | InsertRow
    | PurgeLock
    | DeleteSearch(searchOk: bool)
    | DeleteLog(logOk: bool)
    | Commit(now: int)
    | Abort
    | LoseConnection

  datatype RelayAction = Read(batch: seq<Row>, limit: nat) | Write(k: nat) | Finish | Fail | LoseLock

  datatype Action =
    | Admin(iv: nat, admin: AdminAction)
    | Begin(t: nat, kind: Kind)
    | Exec(t: nat, tx: TxAction)
    | Orphaned(t: nat, ok: bool)
    | Relaying(r: nat, relay: RelayAction)

  // ---- Reading the state ----

  predicate HoldsLock(tx: Tx) { !tx.stage.Opened? && !tx.stage.Guarded? }

  predicate LockFree(txs: map<nat, Tx>, iv: nat) {
    forall t :: t in txs && HoldsLock(txs[t]) ==> txs[t].iv != iv
  }

  /** The row another transaction must not have claimed: the session row of a
    * diff, the unique score of a session, the invite row of a session start. */
  predicate SameClaim(a: Kind, b: Kind) {
    match a
    case RecordDiff(_, s, _) => b.RecordDiff? && b.session == s
    case SaveScore(_, s) => b.SaveScore? && b.session == s
    case StartSession(v, s) => b.StartSession? && (b.invite == v || b.session == s)
    case _ => false
  }

  predicate ClaimFree(txs: map<nat, Tx>, t: nat, k: Kind) {
    forall u :: u in txs && u != t && txs[u].stage != Opened ==> !SameClaim(k, txs[u].kind)
  }

  function CountOf(k: Kind): int { if k.RecordEvents? then k.count else 1 }
  function OffsetsOf(k: Kind): seq<nat> { if k.RecordEvents? then k.offsets else [0] }
  function KeyOf(k: Kind): nat { if k.RecordEvents? then k.key else if k.Purge? then 0 else k.session }

  function CutoffOf(k: Kind): int { if k.Purge? then k.cutoff else 0 }

  /** A purge that has locked its row and has external deletes left to do. */
  predicate Deleting(tx: Tx) { tx.stage == Locked || tx.stage == SearchDeleted }

  function PurgingTx(iv: nat, cutoff: int, stage: Stage): Tx { Tx(Kind.Purge(iv, cutoff), stage, iv, 0, []) }

  function TagOf(k: Kind): Tag {
    match k
    case StartSession(v, _) => Started(v)
    case RecordDiff(_, _, c) => Diffed(c)
    case SaveScore(_, _) => Scored
    case _ => Recorded
  }

  /** The messages a caller of RecordEvents builds carry increasing numbers out
    * of those it allocated, and go to a session of that interview. */
  predicate WellFormed(homes: map<nat, nat>, k: Kind) {
    k.RecordEvents? ==>
      && k.key in homes && homes[k.key] == k.iv
      && (forall i, j :: 0 <= i < j < |k.offsets| ==> k.offsets[i] < k.offsets[j])
      && (forall i :: 0 <= i < |k.offsets| ==> k.offsets[i] < k.count)
  }

  predicate Eligible(i: Interview, cutoff: int) {
    !i.purged && !i.hold && (i.erase || (i.terminal.Some? && i.terminal.value < cutoff))
  }

  /** A relay's read: the lowest ids of the committed rows, in id order. */
  predicate IsBatch(outbox: set<Row>, batch: seq<Row>, limit: nat) {
    && |batch| <= limit
    && (|batch| < limit ==> forall r :: r in outbox ==> r in batch)
    && (forall j :: 0 <= j < |batch| ==> batch[j] in outbox)
    && (forall i, j :: 0 <= i < j < |batch| ==> batch[i].id < batch[j].id)
    && (forall r, j :: r in outbox && 0 <= j < |batch| && r.id < batch[j].id ==> r in batch)
  }

  // ---- Steps ----

  function Without(txs: map<nat, Tx>, t: nat): map<nat, Tx> { txs - {t} }

  function Drop(s: DB, t: nat): DB { s.(txs := Without(s.txs, t)) }

  function SetTx(s: DB, t: nat, tx: Tx): DB { s.(txs := s.txs[t := tx]) }

  /** The WHERE clause of the statement that claims the transaction's row: the
    * unconsumed invite, the older client sequence, the session without score. */
  predicate GuardPasses(s: DB, k: Kind, expired: bool) {
    match k
    case StartSession(v, session) => v in s.claims.invites && !s.claims.invites[v].accepted && !expired && session !in s.claims.homes
    case RecordDiff(iv, session, c) =>
      session in s.claims.sessions && s.claims.sessions[session].iv == iv && s.claims.sessions[session].lastDiff < c
    case SaveScore(iv, session) =>
      && iv in s.ivs && !s.ivs[iv].purged && session !in s.claims.scores
      && session in s.claims.sessions && s.claims.sessions[session].iv == iv
    case _ => false
  }

  function GuardedInterview(s: DB, k: Kind): nat
    requires !k.StartSession? || k.invite in s.claims.invites
  {
    if k.StartSession? then s.claims.invites[k.invite].iv else k.iv
  }

  function ClaimsGuarded(c: Claims, k: Kind, iv: nat): Claims {
    if k.StartSession? then c.(homes := c.homes[k.session := iv]) else c
  }

  /** Consuming the invite, advancing the client sequence, inserting the score. */
  function GuardStep(s: DB, t: nat, expired: bool): DB
    requires t in s.txs
  {
    var tx := s.txs[t];
    if tx.stage != Opened || tx.kind.RecordEvents? || tx.kind.Purge? || !ClaimFree(s.txs, t, tx.kind) then s
    else if !GuardPasses(s, tx.kind, expired) then Drop(s, t)
    else
      var iv := GuardedInterview(s, tx.kind);
      s.(txs := s.txs[t := tx.(stage := Guarded, iv := iv)], claims := ClaimsGuarded(s.claims, tx.kind, iv))
  }

  function AllocateStep(s: DB, t: nat): DB
    requires t in s.txs
  {
    var tx := s.txs[t];
    var ready := if tx.kind.RecordEvents? then tx.stage == Opened else !tx.kind.Purge? && tx.stage == Guarded;
    var iv := if tx.kind.RecordEvents? then tx.kind.iv else tx.iv;
    if !ready then s
    else if CountOf(tx.kind) < 1 then Drop(s, t)
    else if !LockFree(s.txs, iv) then s
    else if iv !in s.ivs || s.ivs[iv].purged then Drop(s, t)
    else SetTx(s, t, tx.(stage := Allocated, iv := iv, first := s.ivs[iv].last + 1))
  }

  function InsertRowStep(s: DB, t: nat): DB
    requires t in s.txs
  {
    var tx := s.txs[t];
    if tx.stage != Allocated || |tx.rows| >= |OffsetsOf(tx.kind)| then s
    else
      var row := Row(s.nextId, tx.iv, tx.first + OffsetsOf(tx.kind)[|tx.rows|], KeyOf(tx.kind), TagOf(tx.kind));
      SetTx(s, t, tx.(rows := tx.rows + [row])).(nextId := s.nextId + 1)
  }

  function PurgeLockStep(s: DB, t: nat): DB
    requires t in s.txs
  {
    var tx := s.txs[t];
    if !tx.kind.Purge? || tx.stage != Opened || !LockFree(s.txs, tx.kind.iv) then s
    else if tx.kind.iv !in s.ivs || !Eligible(s.ivs[tx.kind.iv], tx.kind.cutoff) then Drop(s, t)
    else SetTx(s, t, tx.(stage := Locked, iv := tx.kind.iv))
  }

  function DeleteSearchStep(s: DB, t: nat, ok: bool): DB
    requires t in s.txs
  {
    var tx := s.txs[t];
    if tx.stage != Locked then s
    else if !ok then Drop(s, t)
    else SetTx(s, t, tx.(stage := SearchDeleted)).(erasure := s.erasure.(searchErased := s.erasure.searchErased + {tx.iv}))
  }

  function DeleteLogStep(s: DB, t: nat, ok: bool): DB
    requires t in s.txs
  {
    var tx := s.txs[t];
    if tx.stage != SearchDeleted then s
    else if !ok then Drop(s, t)
    else SetTx(s, t, tx.(stage := LogDeleted)).(erasure := s.erasure.(logErased := s.erasure.logErased + {tx.iv}))
  }

  /** The lock is freed with the connection; what the housekeeper has still to
    * delete outside, it will. */
  function LoseConnectionStep(s: DB, t: nat): DB
    requires t in s.txs
  {
    var tx := s.txs[t];
    if Deleting(tx)
    then Drop(s, t).(erasure := s.erasure.(orphans := s.erasure.orphans[t := Orphan(tx.iv, CutoffOf(tx.kind), tx.stage == SearchDeleted)]))
    else Drop(s, t)
  }

  /** An orphan's next external delete. After the last one its next statement
    * fails, because its transaction is gone. */
  function OrphanStep(e: Erasure, t: nat, ok: bool): Erasure {
    if t !in e.orphans then e
    else if !ok then e.(orphans := e.orphans - {t})
    else if e.orphans[t].searchDone then e.(logErased := e.logErased + {e.orphans[t].iv}, orphans := e.orphans - {t})
    else e.(searchErased := e.searchErased + {e.orphans[t].iv}, orphans := e.orphans[t := e.orphans[t].(searchDone := true)])
  }

  function ClaimsAfter(c: Claims, k: Kind, iv: nat): Claims {
    match k
    case StartSession(v, session) =>
      c.(invites := if v in c.invites then c.invites[v := c.invites[v].(accepted := true)] else c.invites,
         sessions := c.sessions[session := Session(iv, 0)])
    case RecordDiff(_, session, n) => c.(sessions := c.sessions[session := Session(iv, n)])
    case SaveScore(_, session) => c.(scores := c.scores[session := iv])
    case _ => c
  }

  function CommitAllocation(s: DB, t: nat): DB
    requires t in s.txs && s.txs[t].iv in s.ivs && CountOf(s.txs[t].kind) >= 1
  {
    var tx := s.txs[t];
    s.(txs := Without(s.txs, t),
       ivs := s.ivs[tx.iv := s.ivs[tx.iv].(last := tx.first + CountOf(tx.kind) - 1)],
       past := Past(s.past.log + tx.rows, s.past.grants + [Grant(tx.iv, tx.first, CountOf(tx.kind))]),
       pipe := s.pipe.(outbox := s.pipe.outbox + (set r | r in tx.rows)),
       claims := ClaimsAfter(s.claims, tx.kind, tx.iv))
  }

  function ClaimsErased(c: Claims, iv: nat): Claims {
    c.(scores := map x | x in c.scores && c.scores[x] != iv :: c.scores[x],
       sessions := map x | x in c.sessions && c.sessions[x].iv != iv :: c.sessions[x],
       invites := map x | x in c.invites && c.invites[x].iv != iv :: c.invites[x])
  }

  function CommitPurge(s: DB, t: nat, now: int): DB
    requires t in s.txs && s.txs[t].iv in s.ivs
  {
    var iv := s.txs[t].iv;
    var row := s.ivs[iv];
    s.(txs := Without(s.txs, t),
       ivs := s.ivs[iv := row.(purged := true, terminal := if row.terminal.Some? then row.terminal else Some(now))],
       claims := ClaimsErased(s.claims, iv),
       erasure := s.erasure.(purgeLog := s.erasure.purgeLog + {iv}, purges := s.erasure.purges + [iv]))
  }

  function CommitStep(s: DB, t: nat, now: int): DB
    requires t in s.txs
  {
    var tx := s.txs[t];
    if tx.iv !in s.ivs then s
    else if tx.stage == Allocated && |tx.rows| == |OffsetsOf(tx.kind)| && CountOf(tx.kind) >= 1 then CommitAllocation(s, t)
    else if tx.stage == LogDeleted then CommitPurge(s, t, now)
    else s
  }

  /** Another relay's turn is skipped while the advisory lock is taken. */
  predicate RelayLockFree(relays: map<nat, Relay>) { forall q :: q in relays ==> !relays[q].locked }

  function ReadStep(p: Pipe, r: nat, batch: seq<Row>, limit: nat): Pipe {
    if r in p.relays || !RelayLockFree(p.relays) || !IsBatch(p.outbox, batch, limit) then p
    else p.(relays := p.relays[r := Relay(batch, {}, true)])
  }

  /** Records with one key go to one partition in order; a failing write may
    * stop anywhere, and the keys may stop at different places. */
  predicate CanWrite(relay: Relay, k: nat) {
    && k < |relay.batch| && k !in relay.written
    && (forall j :: 0 <= j < k && relay.batch[j].key == relay.batch[k].key ==> j in relay.written)
  }

  function WriteStep(p: Pipe, r: nat, k: nat): Pipe {
    if r in p.relays && CanWrite(p.relays[r], k)
    then p.(relays := p.relays[r := p.relays[r].(written := p.relays[r].written + {k})], kafka := p.kafka + [p.relays[r].batch[k]])
    else p
  }

  predicate AllWritten(relay: Relay) { forall j :: 0 <= j < |relay.batch| ==> j in relay.written }

  /** Deleting the published rows and committing, which needs the lock's transaction. */
  function FinishStep(p: Pipe, r: nat): Pipe {
    if r in p.relays && p.relays[r].locked && AllWritten(p.relays[r])
    then p.(relays := p.relays - {r}, outbox := p.outbox - (set x | x in p.relays[r].batch))
    else p
  }

  /** A relay whose connection breaks loses its lock but may still be writing. */
  function LoseLockStep(p: Pipe, r: nat): Pipe {
    if r in p.relays then p.(relays := p.relays[r := p.relays[r].(locked := false)]) else p
  }

  function RelayStep(p: Pipe, r: nat, a: RelayAction): Pipe {
    match a
    case Read(batch, limit) => ReadStep(p, r, batch, limit)
    case Write(k) => WriteStep(p, r, k)
    case Finish => FinishStep(p, r)
    case Fail => p.(relays := p.relays - {r})
    case LoseLock => LoseLockStep(p, r)
  }

  function Changed(i: Interview, c: Change): Interview {
    match c
    case Hold(on) => i.(hold := on)
    case RequestErasure => i.(erase := true)
    case Terminate(at) => if i.terminal.Some? then i else i.(terminal := Some(at))
  }

  function AdminStep(s: DB, iv: nat, a: AdminAction): DB {
    match a
    case NewInterview => if iv in s.ivs then s else s.(ivs := s.ivs[iv := Interview(0, false, false, None, false)])
    case NewInvite(v) =>
      if v in s.claims.issued || iv !in s.ivs then s else s.(claims := s.claims.(invites := s.claims.invites[v := Invite(iv, false)], issued := s.claims.issued + {v}))
    case Update(c) =>
      if iv !in s.ivs || !LockFree(s.txs, iv) then s else s.(ivs := s.ivs[iv := Changed(s.ivs[iv], c)])
  }

  function TxStep(s: DB, t: nat, a: TxAction): DB
    requires t in s.txs
  {
    match a
    case Guard(expired) => GuardStep(s, t, expired)
    case Allocate => AllocateStep(s, t)
    case InsertRow => InsertRowStep(s, t)
    case PurgeLock => PurgeLockStep(s, t)
    case DeleteSearch(ok) => DeleteSearchStep(s, t, ok)
    case DeleteLog(ok) => DeleteLogStep(s, t, ok)
    case Commit(now) => CommitStep(s, t, now)
    case Abort => Drop(s, t)
    case LoseConnection => LoseConnectionStep(s, t)
  }

  function BeginStep(s: DB, t: nat, kind: Kind): DB {
    if t in s.txs || t in s.erasure.orphans || !WellFormed(s.claims.homes, kind) then s else SetTx(s, t, Tx(kind, Opened, 0, 0, []))
  }

  function Step(s: DB, a: Action): DB {
    match a
    case Admin(iv, admin) => AdminStep(s, iv, admin)
    case Begin(t, kind) => BeginStep(s, t, kind)
    case Exec(t, tx) => if t in s.txs then TxStep(s, t, tx) else s
    case Orphaned(t, ok) => s.(erasure := OrphanStep(s.erasure, t, ok))
    case Relaying(r, relay) => s.(pipe := RelayStep(s.pipe, r, relay))
  }

  /** The state after a run of steps. */
  function Run(s: DB, actions: seq<Action>): DB {
    if actions == [] then s else Step(Run(s, actions[..|actions| - 1]), actions[|actions| - 1])
  }
}
