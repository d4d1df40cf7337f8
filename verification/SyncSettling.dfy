/** Sending a batch, losing its response and settling its results keep the invariant. */
module SyncSettling {
  import opened Protocol
  import opened PushRules
  import opened LocalDb
  import opened SyncModel
  import opened SyncInvariant
  import opened SyncAcknowledge

  // ----- Entries that only change status -----

  /** Only statuses differ, and a blocked conflict stays one. */
  ghost predicate Restated(o: Outbox, q: Outbox) {
    && q.Keys == o.Keys
    && (forall id :: id in o ==>
        q[id] == o[id].(status := q[id].status) && (IsConflict(o[id]) ==> IsConflict(q[id])))
  }

  function WithOutbox(n: Node, q: Outbox): Node {
    n.(db := n.db.(outbox := q))
  }

  lemma RestatedKeepsOpen(o: Outbox, q: Outbox)
    requires Restated(o, q)
    ensures forall k :: HasOpen(q, k) <==> HasOpen(o, k)
  {
    forall k ensures HasOpen(q, k) <==> HasOpen(o, k) {
      if id :| id in o && o[id].key == k {
        assert id in q && q[id].key == k;
      }
      if id :| id in q && q[id].key == k {
        assert id in o && o[id].key == k;
      }
    }
  }

  lemma RestatedKeepsOutbox(db: Db, q: Outbox)
    requires OutboxOk(db) && Restated(db.outbox, q)
    ensures OutboxOk(db.(outbox := q))
  {
    var after := db.(outbox := q);
    RestatedKeepsOpen(db.outbox, q);
    hide HasOpen;
    forall id | id in q ensures EntryRowOk(after.local, q[id]) {
      assert EntryRowOk(db.local, db.outbox[id]);
    }
    forall k | Live(after, k) && (after.local[k].dirty || after.local[k].copy.version == 0) ensures HasOpen(q, k) {
      assert Live(db, k);
    }
  }

  lemma RestatedKeepsCore(w: World, c: ClientId, n: Node, q: Outbox)
    requires CoreOk(w, c, n) && Restated(n.db.outbox, q)
    requires forall id :: id in q ==> SavedOk(w, n.seen, q[id])
    ensures CoreOk(w, c, WithOutbox(n, q))
  {
    hide BaseOk, SentKey, Owned, LocalCodesUnique, LocalRowOk, SavedOk;
    var m := WithOutbox(n, q);
    RestatedKeepsOutbox(n.db, q);
    hide OutboxOk;
    forall ch | ch in m.sent ensures SentPayloadOk(w, c, m, ch) {
      assert SentPayloadOk(w, c, n, ch);
    }
  }

  lemma RestatedKeepsCoverage(rows: map<Key, Row>, db: Db, q: Outbox)
    requires CoverageOk(rows, db) && Restated(db.outbox, q)
    ensures CoverageOk(rows, db.(outbox := q))
  {
    var after := db.(outbox := q);
    RestatedKeepsOpen(db.outbox, q);
    forall k | k in rows && rows[k].sequence <= after.watermark ensures Covered(rows, after, k) {
      assert Covered(rows, db, k);
    }
  }

  // ----- Release of authentication blocks -----

  lemma ReleaseAuthenticationKeeps(w: World, c: ClientId, n: Node)
    requires NodeOk(w, c, n)
    ensures NodeOk(w, c, WithOutbox(n, ReleaseAuthenticationBlocks(n.db.outbox)))
  {
    hide OutboxOk, LocalOk, BoundaryOk, PayloadsOk, LocalCodesUnique, CoverageOk, BaseOk, ResultOk, PullingOk,
         ReplyOk, SentKey;
    var q := ReleaseAuthenticationBlocks(n.db.outbox);
    assert forall id :: id in q ==> SavedOk(w, n.seen, n.db.outbox[id]);
    RestatedKeepsCore(w, c, n, q);
    RestatedKeepsCoverage(w.server.rows, n.db, q);
    forall ch | Carried(n.db.outbox, ch) ensures Carried(q, ch) {
      ReleasedStaysCarried(n.db.outbox, ch);
    }
    hide Carried, BasesOk;
  }

  lemma ReleasedStaysCarried(o: Outbox, ch: Change)
    requires Carried(o, ch)
    ensures Carried(ReleaseAuthenticationBlocks(o), ch)
  {
    var q := ReleaseAuthenticationBlocks(o);
    if ch.id !in o {
      var i :| i in o && o[i].key == ch.key && Sendable(o[i]) && !o[i].attempted;
      assert i in q && q[i] == o[i];
    }
  }

  // ----- Send -----

  lemma SendKeepsBases(w: World, c: ClientId, n: Node, ids: seq<ChangeId>)
    requires CanSend(n, ids) && BasesOk(w, c, n)
    ensures BasesOk(w, c, Send(n, ids))
  {
    hide BaseOk;
  }

  lemma SendKeepsBoundary(w: World, c: ClientId, n: Node, ids: seq<ChangeId>)
    requires CanSend(n, ids) && BoundaryOk(w, c, n) && OnePerKey(n.db.outbox)
    ensures BoundaryOk(w, c, Send(n, ids))
  {
    hide Owned;
    var m, batch := Send(n, ids), Batch(n.db.outbox, ids);
    forall id | id in m.db.outbox && m.db.outbox[id].base.None? && !m.db.outbox[id].attempted
      ensures !SentKey(m.sent, m.db.outbox[id].key)
    {
      assert !SentKey(n.sent, n.db.outbox[id].key);
      forall ch | ch in batch ensures ch.key != m.db.outbox[id].key {
        assert ch.id in ids && n.db.outbox[ch.id].key == ch.key;
      }
    }
    forall k | k in w.server.rows && Owned(w, k, c) ensures SentKey(m.sent, k) {
      assert SentKey(n.sent, k);
    }
  }

  lemma SendKeepsPayloads(w: World, c: ClientId, n: Node, ids: seq<ChangeId>)
    requires CanSend(n, ids) && PayloadsOk(w, c, n)
    ensures PayloadsOk(w, c, Send(n, ids))
  {
    var m, batch := Send(n, ids), Batch(n.db.outbox, ids);
    forall ch | ch in m.sent ensures SentPayloadOk(w, c, m, ch) {
      assert ch in n.sent ==> SentPayloadOk(w, c, n, ch);
      assert ch in batch ==> ch.id in ids;
    }
    forall a, b | a in n.sent && b in batch && a.id == b.id ensures a == b {
      assert SentPayloadOk(w, c, n, a);
    }
  }

  lemma SendOpensBatch(n: Node, ids: seq<ChangeId>)
    requires CanSend(n, ids) && OnePerKey(n.db.outbox)
    ensures BatchOk(Send(n, ids), Batch(n.db.outbox, ids))
  {
    var m, batch := Send(n, ids), Batch(n.db.outbox, ids);
    forall i | 0 <= i < |batch| ensures batch[i] in m.sent && Carried(m.db.outbox, batch[i]) {
      assert batch[i] in batch;
    }
  }

  lemma MarkAttemptedKeepsRows(db: Db, ids: set<ChangeId>)
    requires OutboxOk(db)
    ensures OutboxOk(db.(outbox := MarkAttempted(db.outbox, ids)))
    ensures forall k :: HasOpen(MarkAttempted(db.outbox, ids), k) <==> HasOpen(db.outbox, k)
  {
    var q := MarkAttempted(db.outbox, ids);
    var after := db.(outbox := q);
    forall k ensures HasOpen(q, k) <==> HasOpen(db.outbox, k) {
      if id :| id in db.outbox && db.outbox[id].key == k {
        assert id in q && q[id].key == k;
      }
    }
    forall id | id in q ensures EntryRowOk(after.local, q[id]) {
      assert EntryRowOk(db.local, db.outbox[id]);
    }
    forall k | Live(after, k) && (after.local[k].dirty || after.local[k].copy.version == 0) ensures HasOpen(q, k) {
      assert Live(db, k);
    }
  }

  lemma SendKeepsCoverage(rows: map<Key, Row>, db: Db, after: Db)
    requires CoverageOk(rows, db) && after.watermark == db.watermark && after.local == db.local
    requires forall k :: HasOpen(after.outbox, k) <==> HasOpen(db.outbox, k)
    ensures CoverageOk(rows, after)
  {
    forall k | k in rows && rows[k].sequence <= after.watermark ensures Covered(rows, after, k) {
      assert Covered(rows, db, k);
    }
  }

  /** Selecting a batch and marking it attempted. */
  lemma SendKeeps(w: World, c: ClientId, n: Node, ids: seq<ChangeId>)
    requires NodeOk(w, c, n) && CanSend(n, ids)
    ensures NodeOk(w, c, Send(n, ids))
  {
    hide OutboxOk, BasesOk, BoundaryOk, PayloadsOk, LocalCodesUnique, LocalRowOk, CoverageOk, BatchOk, HasOpen,
         MarkAttempted, OnePerKey;
    CorePayloads(w, c, n);
    SendKeepsBases(w, c, n, ids);
    SendKeepsBoundary(w, c, n, ids);
    SendKeepsPayloads(w, c, n, ids);
    SendOpensBatch(n, ids);
    MarkAttemptedKeepsRows(n.db, set id | id in ids);
    SendKeepsCoverage(w.server.rows, n.db, Send(n, ids).db);
  }

  // ----- A lost response -----

  lemma LoseKeeps(w: World, c: ClientId, n: Node, kind: FailureKind)
    requires NodeOk(w, c, n) && n.phase.Pushing? && !kind.Conflicting?
    ensures NodeOk(w, c, Lose(n, kind))
  {
    hide CoreOk, CoverageOk, Carried, ReplyOk;
    CorePhaseFree(w, c, n, Lose(n, kind));
  }

  lemma StopKeeps(w: World, c: ClientId, n: Node)
    requires NodeOk(w, c, n)
    ensures NodeOk(w, c, Stop(n))
  {
    hide CoreOk, CoverageOk;
    CorePhaseFree(w, c, n, Stop(n));
  }

  // ----- Settling one result -----

  /** Settling one answer leaves the others as they were. */
  lemma OthersStay(s: Server, c: ClientId, n: Node, m: Node, todo: seq<Answer>, i: nat)
    requires TodoOk(s, c, n, todo) && i < |todo|
    requires m.sent == n.sent && m.db.watermark == n.db.watermark
    requires forall a :: a in todo && a.change.key != todo[i].change.key && a.change.id != todo[i].change.id ==>
      Carried(m.db.outbox, a.change)
    ensures TodoOk(s, c, m, todo[..i] + todo[i + 1..])
  {
    hide Carried, ResultOk, Acknowledges;
    var rest := todo[..i] + todo[i + 1..];
    forall a | a in rest
      ensures a in todo && a.change.key != todo[i].change.key && a.change.id != todo[i].change.id
    {
      var j :| 0 <= j < |rest| && rest[j] == a;
      assert a == todo[if j < i then j else j + 1];
    }
  }

  lemma UntouchedStaysCarried(o: Outbox, q: Outbox, k: Key, id: ChangeId, ch: Change)
    requires Carried(o, ch) && ch.key != k && ch.id != id
    requires forall i :: i in o && o[i].key != k ==> i in q && q[i] == o[i]
    requires forall i :: i in q ==> i in o
    requires ch.id in o ==> o[ch.id].key == ch.key
    ensures Carried(q, ch)
  {
    if ch.id !in o {
      var i :| i in o && o[i].key == ch.key && Sendable(o[i]) && !o[i].attempted;
      assert i in q && q[i] == o[i];
    }
  }

  /** A conflict or an error: the entry changes status, nothing else does. */
  lemma RestatusKeeps(w: World, c: ClientId, n: Node, i: nat)
    requires NodeOk(w, c, n) && n.phase.Settling? && i < |n.phase.todo|
    requires !n.phase.todo[i].result.outcome.Accepted?
    ensures var m := Settle(n, i); CoreOk(w, c, m) && CoverageOk(w.server.rows, m.db) && Restated(n.db.outbox, m.db.outbox)
  {
    var a, m := n.phase.todo[i], Settle(n, i);
    assert SentPayloadOk(w, c, n, a.change);
    assert a in n.phase.todo && RestOk(w.server, c, n, a);
    SeenGrows(w, c, n, m.seen);
    assert SavesOk(w, n, m.seen) by { SavesGrow(w, c, n, m.seen); }
    var q := m.db.outbox;
    hide OutboxOk, LocalOk, BasesOk, BoundaryOk, PayloadsOk, LocalCodesUnique, CoverageOk, AnswersApart, ResultOk,
         Carried;
    assert Restated(n.db.outbox, q) && forall id :: id in q ==> SavedOk(w, m.seen, q[id]) by {
      RestatusSaves(w, c, n, a, m.seen);
    }
    RestatedKeepsCore(w, c, n.(seen := m.seen), q);
    RestatedKeepsCoverage(w.server.rows, n.db, q);
    CorePhaseFree(w, c, WithOutbox(n.(seen := m.seen), q), m);
  }

  ghost predicate SavesOk(w: World, n: Node, seen: set<KeyCopy>) {
    forall id :: id in n.db.outbox ==> SavedOk(w, seen, n.db.outbox[id])
  }

  lemma SavesGrow(w: World, c: ClientId, n: Node, seen: set<KeyCopy>)
    requires CoreOk(w, c, n) && n.seen <= seen
    ensures SavesOk(w, n, seen)
  {
    hide OutboxOk, LocalOk, BoundaryOk, PayloadsOk, LocalCodesUnique, BaseOk;
    forall id | id in n.db.outbox ensures SavedOk(w, seen, n.db.outbox[id]) {
      assert SavedOk(w, n.seen, n.db.outbox[id]);
    }
  }

  lemma RestatusSaves(w: World, c: ClientId, n: Node, a: Answer, seen: set<KeyCopy>)
    requires SentPayloadOk(w, c, n, a.change) && RestOk(w.server, c, n, a) && !a.result.outcome.Accepted?
    requires SavesOk(w, n, seen) && seen == n.seen + SettledCopies(n.db.outbox, a)
    ensures var q := SettledOutbox(n.db.outbox, a.result);
      Restated(n.db.outbox, q) && forall id :: id in q ==> SavedOk(w, seen, q[id])
  {
    hide FreshCopy, Wrote, NoRowYet;
    var q := SettledOutbox(n.db.outbox, a.result);
    forall id | id in q ensures SavedOk(w, seen, q[id]) {
      assert SavedOk(w, seen, n.db.outbox[id]);
    }
  }

  /** A delete accepted without server state: the server never had the row. */
  lemma ForgetKeeps(w: World, c: ClientId, n: Node, i: nat)
    requires NodeOk(w, c, n) && n.phase.Settling? && i < |n.phase.todo|
    requires n.phase.todo[i].result.outcome.Accepted?
    ensures var m := Settle(n, i); CoreOk(w, c, m) && CoverageOk(w.server.rows, m.db)
  {
    var a, m := n.phase.todo[i], Settle(n, i);
    assert a in n.phase.todo && RestOk(w.server, c, n, a);
    assert SentPayloadOk(w, c, n, a.change);
    ForgottenIsDelete(w.server, c, n, a);
    hide ResultOk, Carried, AnswersApart, LocalOk, BasesOk, BoundaryOk, PayloadsOk, LocalCodesUnique;
    ForgetKeepsOutbox(n.db, m.db, a.change.id);
    ForgetKeepsCoverage(w.server.rows, n.db, m.db, a.change.id);
    hide OutboxOk, CoverageOk, RestOk;
    ForgetKeepsLedgers(w, c, n, m, a.change.id);
  }

  lemma ForgetKeepsLedgers(w: World, c: ClientId, n: Node, m: Node, id: ChangeId)
    requires LocalOk(w, c, n) && BasesOk(w, c, n) && BoundaryOk(w, c, n) && PayloadsOk(w, c, n)
    requires m.db == n.db.(outbox := n.db.outbox - {id}) && m.sent == n.sent && m.seen == n.seen
    ensures LocalOk(w, c, m) && BasesOk(w, c, m) && BoundaryOk(w, c, m) && PayloadsOk(w, c, m)
  {
    hide LocalRowOk, BaseOk, SavedOk, Owned, SentKey;
    forall ch | ch in m.sent ensures SentPayloadOk(w, c, m, ch) {
      assert SentPayloadOk(w, c, n, ch);
    }
  }

  lemma ForgottenIsDelete(s: Server, c: ClientId, n: Node, a: Answer)
    requires RestOk(s, c, n, a) && a.result.outcome.Accepted?
    ensures a.change.op.Delete? && a.change.id in n.db.outbox && Sendable(n.db.outbox[a.change.id])
    ensures NoRowYet(s.rows, n.db.watermark, a.change.key)
  {
  }

  lemma ForgetKeepsOutbox(db: Db, after: Db, id: ChangeId)
    requires OutboxOk(db) && id in db.outbox && db.outbox[id].op.Delete?
    requires after == db.(outbox := db.outbox - {id})
    ensures OutboxOk(after)
  {
    forall k | Live(after, k) && (after.local[k].dirty || after.local[k].copy.version == 0) ensures HasOpen(after.outbox, k) {
      assert Live(db, k) && HasOpen(db.outbox, k);
      var i :| i in db.outbox && db.outbox[i].key == k;
      assert EntryRowOk(db.local, db.outbox[id]) && EntryRowOk(db.local, db.outbox[i]);
      assert i in after.outbox;
    }
    forall i | i in after.outbox ensures EntryRowOk(after.local, after.outbox[i]) {
      assert EntryRowOk(db.local, db.outbox[i]);
    }
  }

  lemma ForgetKeepsCoverage(rows: map<Key, Row>, db: Db, after: Db, id: ChangeId)
    requires CoverageOk(rows, db) && id in db.outbox && NoRowYet(rows, db.watermark, db.outbox[id].key)
    requires after == db.(outbox := db.outbox - {id})
    ensures CoverageOk(rows, after)
  {
    forall k | k in rows && rows[k].sequence <= after.watermark ensures Covered(rows, after, k) {
      assert Covered(rows, db, k) && k != db.outbox[id].key;
      if i :| i in db.outbox && db.outbox[i].key == k {
        assert i in after.outbox;
      }
    }
  }

  lemma SettleKeepsTodo(w: World, c: ClientId, n: Node, i: nat)
    requires NodeOk(w, c, n) && n.phase.Settling? && i < |n.phase.todo|
    ensures PhaseOk(w.server, c, Settle(n, i))
  {
    hide CoreOk, CoverageOk, ResultOk, AnswersApart, Carried, OnePerKey, SettledCopies;
    var a, m := n.phase.todo[i], Settle(n, i);
    CorePayloads(w, c, n);
    assert a in n.phase.todo;
    ResultKey(w.server, n.db.watermark, c, a.change, a.result);
    forall b | b in n.phase.todo && b.change.key != a.change.key && b.change.id != a.change.id
      ensures Carried(m.db.outbox, b.change)
    {
      assert SentPayloadOk(w, c, n, a.change) && SentPayloadOk(w, c, n, b.change);
      UntouchedStaysCarried(n.db.outbox, m.db.outbox, a.change.key, a.change.id, b.change);
    }
    OthersStay(w.server, c, n, m, n.phase.todo, i);
  }

  lemma SettleKeeps(w: World, c: ClientId, n: Node, i: nat)
    requires NodeOk(w, c, n) && n.phase.Settling? && i < |n.phase.todo|
    ensures NodeOk(w, c, Settle(n, i))
  {
    SettleKeepsTodo(w, c, n, i);
    if n.phase.todo[i].result.outcome.Accepted? {
      ForgetKeeps(w, c, n, i);
    } else {
      RestatusKeeps(w, c, n, i);
    }
    hide CoreOk, CoverageOk, PhaseOk, Settle;
  }
}
