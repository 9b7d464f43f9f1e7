/** The server of the diff pipeline is the store: one session's diffs, as the
  * store's transactions record them, are the server's log.
  */
module DiffStore {
  import opened StoreModel
  import opened StoreTransactions
  import D = DiffTheorems
  import R = DiffDebouncer

  /** The interview numbers of a session's diffs, in commit order. */
  function Numbers(log: seq<Row>, session: nat): seq<int> {
    if log == [] then []
    else
      var last := log[|log| - 1];
      Numbers(log[..|log| - 1], session) + if last.key == session && last.tag.Diffed? then [last.no] else []
  }

  /** The store's rows for a session of an interview say what the server does. */
  ghost predicate Mirrors(s: DB, iv: nat, session: nat, server: D.Server) {
    && session in s.claims.sessions && s.claims.sessions[session] == Session(iv, server.lastClientSeq)
    && iv in s.ivs && s.ivs[iv].last == server.lastSeqNo
    && |Numbers(s.past.log, session)| == |server.log|
    && (forall i :: 0 <= i < |server.log| ==> Numbers(s.past.log, session)[i] == server.log[i].seqNo)
  }

  /** A post that arrives right away: the store records it exactly when the
    * server does, under the same number. */
  lemma DiffMirrored(s: DB, iv: nat, session: nat, server: D.Server, r: R.Request)
    requires Mirrors(s, iv, session, server)
    ensures Newer(s.claims, iv, session, r.clientSeq) <==> D.RecordDiff(server, r, 0) != server
    ensures Mirrors(if Newer(s.claims, iv, session, r.clientSeq) then AfterDiff(s, iv, session, r.clientSeq) else s, iv, session,
                    D.RecordDiff(server, r, 0))
  {
    if Newer(s.claims, iv, session, r.clientSeq) {
      var row := DiffRow(s, iv, session, r.clientSeq);
      assert (s.past.log + [row])[..|s.past.log|] == s.past.log;
      assert |D.RecordDiff(server, r, 0).log| == |server.log| + 1;
    }
  }

  lemma {:induction false} NoNewNumbers(log: seq<Row>, rows: seq<Row>, session: nat)
    requires forall r :: r in rows ==> r.key != session || !r.tag.Diffed?
    ensures Numbers(log + rows, session) == Numbers(log, session)
  {
    if rows == [] {
      assert log + rows == log;
    } else {
      var n := |rows| - 1;
      NoNewNumbers(log, rows[..n], session);
      assert rows[n] in rows && (log + rows)[..|log| + n] == log + rows[..n];
    }
  }

  /** Other events of the interview in between, and a post after them. */
  lemma OthersMirrored(s: DB, iv: nat, session: nat, server: D.Server, r: R.Request, count: nat, rows: seq<Row>, nextId: nat)
    requires Mirrors(s, iv, session, server) && forall x :: x in rows ==> x.key != session || !x.tag.Diffed?
    ensures Mirrors(AfterRecord(s, iv, count, rows, nextId), iv, session, server.(lastSeqNo := server.lastSeqNo + count))
    ensures D.RecordDiff(server.(lastSeqNo := server.lastSeqNo + count), r, 0) == D.RecordDiff(server, r, count)
  {
    NoNewNumbers(s.past.log, rows, session);
  }
}
