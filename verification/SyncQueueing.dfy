/** Queueing keeps a client's invariant: edits, deletes, and conflicts requeued under a new id. */
module SyncQueueing {
  import opened Protocol
  import opened PushRules
  import opened LocalDb
  import opened SyncModel
  import opened SyncInvariant

  // ----- What a queueing operation does to the outbox -----

  ghost predicate SameElsewhere(o: Outbox, q: Outbox, k: Key) {
    && (forall i :: i in o && o[i].key != k ==> i in q && q[i] == o[i])
    && (forall i :: i in q && q[i].key != k ==> i in o && q[i] == o[i])
  }

  /** The row's entry is a new, unsent one under the new id. */
  ghost predicate NewEntry(o: Outbox, q: Outbox, k: Key, id: ChangeId) {
    && SameElsewhere(o, q, k)
    && id in q && q[id].key == k && q[id].status == Pending && !q[id].attempted
    && (forall i :: i in q && q[i].key == k ==> i == id)
  }

  /** The row's entry is its blocked conflict, whose id, base and server copy stay. */
  ghost predicate KeptConflict(o: Outbox, q: Outbox, k: Key, id: ChangeId) {
    && SameElsewhere(o, q, k)
    && id in o && id in q && q[id].key == o[id].key == k && IsConflict(o[id])
    && q[id].status == o[id].status && q[id].base == o[id].base && q[id].attempted == o[id].attempted
    && (forall i :: i in q && q[i].key == k ==> i == id)
  }

  ghost predicate KeepsConflict(o: Outbox, k: Key, force: bool) {
    !force && HasOpen(o, k) && IsConflict(o[OpenId(o, k)])
  }

  lemma ReplaceEffect(
    o: Outbox, k: Key, op: Op, base: Option<int>, record: Record, force: bool, id: ChangeId)
    requires OnePerKey(o) && id !in o
    ensures var q := Replace(o, k, op, base, record, force, id);
      && (KeepsConflict(o, k, force) ==> KeptConflict(o, q, k, OpenId(o, k)) && q[OpenId(o, k)].op == op)
      && (!KeepsConflict(o, k, force) ==>
          NewEntry(o, q, k, id) && q[id].op == op && q[id].record == record
          && q[id].base == if force then base else SquashedBase(o, k, base))
  {
  }

  lemma OverrideEffect(q: Outbox, k: Key, base: Option<int>)
    requires base.Some? ==> base.value >= 1
    ensures var r := OverrideBase(q, k, base);
      && r.Keys == q.Keys
      && (forall i :: i in q ==>
          r[i] == if base.Some? && q[i].key == k && Sendable(q[i]) then q[i].(base := base) else q[i])
  {
  }

  // ----- The invariant across a queueing operation -----

  ghost predicate IdFresh(w: World, c: ClientId, n: Node, id: ChangeId) {
    && id in w.minted && w.minted[id] == c && id !in n.db.outbox
    && (forall ch :: ch in n.sent ==> ch.id != id)
  }

  ghost predicate RowFits(w: World, c: ClientId, n: Node, k: Key, l: Local) {
    && LocalRowOk(w, c, n.seen, k, l)
    && CodeFree(n.db.local, k, l.copy.code)
    && (!Scored(k.kind) ==> l.copy.code.None?)
  }

  function WithRow(n: Node, k: Key, l: Local, q: Outbox): Node {
    n.(db := n.db.(local := n.db.local[k := l], outbox := q))
  }

  /** An entry about to be replaced is a conflict or an upsert, so a delete in flight stays. */
  ghost predicate ReplacesUpsert(n: Node, k: Key) {
    forall i :: i in n.db.outbox && n.db.outbox[i].key == k && Sendable(n.db.outbox[i]) ==> n.db.outbox[i].op.Upsert?
  }

  lemma QueueKeepsOutbox(n: Node, k: Key, l: Local, q: Outbox, id: ChangeId)
    requires OutboxOk(n.db)
    requires NewEntry(n.db.outbox, q, k, id) || KeptConflict(n.db.outbox, q, k, id)
    requires EntryRowOk(n.db.local[k := l], q[id])
    ensures OutboxOk(WithRow(n, k, l, q).db)
  {
    var db := WithRow(n, k, l, q).db;
    forall j | Live(db, j) && (db.local[j].dirty || db.local[j].copy.version == 0) ensures HasOpen(db.outbox, j) {
      if j != k {
        assert HasOpen(n.db.outbox, j);
        var i :| i in n.db.outbox && n.db.outbox[i].key == j;
        assert i in q && q[i].key == j;
      }
    }
  }

  lemma QueueKeepsRows(w: World, c: ClientId, n: Node, k: Key, l: Local, q: Outbox)
    requires LocalOk(w, c, n) && LocalCodesUnique(n.db.local) && RowFits(w, c, n, k, l)
    ensures LocalOk(w, c, WithRow(n, k, l, q)) && LocalCodesUnique(WithRow(n, k, l, q).db.local)
  {
    hide LocalRowOk;
  }

  lemma QueueKeepsBases(w: World, c: ClientId, n: Node, k: Key, l: Local, q: Outbox, id: ChangeId)
    requires BasesOk(w, c, n) && BoundaryOk(w, c, n)
    requires (NewEntry(n.db.outbox, q, k, id) && BaseOk(w, c, n.seen, k, q[id].base)
              && (q[id].base.None? ==> !SentKey(n.sent, k)))
          || KeptConflict(n.db.outbox, q, k, id)
    ensures BasesOk(w, c, WithRow(n, k, l, q)) && BoundaryOk(w, c, WithRow(n, k, l, q))
  {
    hide BaseOk, SentKey, Owned;
  }

  lemma QueueKeepsPayloads(w: World, c: ClientId, n: Node, k: Key, l: Local, q: Outbox, id: ChangeId)
    requires PayloadsOk(w, c, n)
    requires (NewEntry(n.db.outbox, q, k, id) && IdFresh(w, c, n, id)) || KeptConflict(n.db.outbox, q, k, id)
    ensures PayloadsOk(w, c, WithRow(n, k, l, q))
  {
    var m := WithRow(n, k, l, q);
    forall ch | ch in m.sent ensures SentPayloadOk(w, c, m, ch) {
      assert SentPayloadOk(w, c, n, ch);
    }
  }

  lemma QueueKeepsCarried(w: World, c: ClientId, n: Node, k: Key, q: Outbox, id: ChangeId, ch: Change)
    requires SentPayloadOk(w, c, n, ch) && Carried(n.db.outbox, ch) && ch.id != id
    requires (NewEntry(n.db.outbox, q, k, id) && ReplacesUpsert(n, k)) ||
             (KeptConflict(n.db.outbox, q, k, id) && OnePerKey(n.db.outbox))
    ensures Carried(q, ch)
  {
    var o := n.db.outbox;
    if ch.id in o {
      if ch.key == k {
        if NewEntry(o, q, k, id) {
          assert ch.id !in q;
          assert o[ch.id].op.Upsert? && ch.op == o[ch.id].op;
          assert Replaced(q, k);
        }
      }
    } else {
      var i :| i in o && o[i].key == ch.key && Sendable(o[i]) && !o[i].attempted;
      assert ch.key == k ==> NewEntry(o, q, k, id);
      assert Replaced(q, ch.key) by {
        if ch.key == k { assert q[id].key == k; } else { assert i in q && q[i] == o[i]; }
      }
      assert ch.id !in q;
    }
  }

  lemma QueueKeepsPhase(w: World, c: ClientId, n: Node, k: Key, l: Local, q: Outbox, id: ChangeId)
    requires PhaseOk(w.server, c, n) && PayloadsOk(w, c, n) && OnePerKey(n.db.outbox)
    requires (NewEntry(n.db.outbox, q, k, id) && ReplacesUpsert(n, k) && IdFresh(w, c, n, id))
          || KeptConflict(n.db.outbox, q, k, id)
    ensures PhaseOk(w.server, c, WithRow(n, k, l, q))
  {
    hide ResultOk, PullingOk, ReplyOk, Carried, SentPayloadOk, NewEntry, KeptConflict, ReplacesUpsert;
    var m := WithRow(n, k, l, q);
    forall ch | ch in n.sent && Carried(n.db.outbox, ch) ensures Carried(m.db.outbox, ch) {
      assert SentPayloadOk(w, c, n, ch);
      ConflictNotCarried(w, c, n, q, k, id, ch);
      QueueKeepsCarried(w, c, n, k, q, id, ch);
    }
  }

  lemma ConflictNotCarried(w: World, c: ClientId, n: Node, q: Outbox, k: Key, id: ChangeId, ch: Change)
    requires Carried(n.db.outbox, ch) && ch in n.sent
    requires IdFresh(w, c, n, id) || KeptConflict(n.db.outbox, q, k, id)
    ensures ch.id != id
  {
  }

  lemma QueueKeepsCoverage(w: World, n: Node, k: Key, l: Local, q: Outbox, id: ChangeId)
    requires CoverageOk(w.server.rows, n.db)
    requires NewEntry(n.db.outbox, q, k, id) || KeptConflict(n.db.outbox, q, k, id)
    ensures CoverageOk(w.server.rows, WithRow(n, k, l, q).db)
  {
    var rows, db := w.server.rows, WithRow(n, k, l, q).db;
    forall j | j in rows && rows[j].sequence <= db.watermark ensures Covered(rows, db, j) {
      assert Covered(rows, n.db, j);
      if j == k {
        assert q[id].key == k;
      } else if HasOpen(n.db.outbox, j) {
        var i :| i in n.db.outbox && n.db.outbox[i].key == j;
        assert i in q && q[i].key == j;
      }
    }
  }

  ghost predicate Queues(w: World, c: ClientId, n: Node, k: Key, l: Local, q: Outbox, id: ChangeId) {
    && RowFits(w, c, n, k, l)
    && (id in n.db.outbox ==> KeptConflict(n.db.outbox, q, k, id))
    && (id !in n.db.outbox ==>
        NewEntry(n.db.outbox, q, k, id) && IdFresh(w, c, n, id) && ReplacesUpsert(n, k)
        && BaseOk(w, c, n.seen, k, q[id].base) && (q[id].base.None? ==> !SentKey(n.sent, k)))
    && EntryRowOk(n.db.local[k := l], q[id])
  }

  lemma QueueKeeps(w: World, c: ClientId, n: Node, k: Key, l: Local, q: Outbox, id: ChangeId)
    requires NodeOk(w, c, n) && Queues(w, c, n, k, l, q, id)
    ensures NodeOk(w, c, WithRow(n, k, l, q))
  {
    hide OutboxOk, LocalOk, BasesOk, BoundaryOk, PayloadsOk, CoverageOk, PhaseOk, LocalCodesUnique, BaseOk, SentKey,
         RowFits, NewEntry, KeptConflict, EntryRowOk, ReplacesUpsert;
    assert OnePerKey(n.db.outbox) by { OutboxIsOnePerKey(n.db); }
    QueueKeepsOutbox(n, k, l, q, id);
    QueueKeepsRows(w, c, n, k, l, q);
    QueueKeepsBases(w, c, n, k, l, q, id);
    QueueKeepsPayloads(w, c, n, k, l, q, id);
    QueueKeepsPhase(w, c, n, k, l, q, id);
    QueueKeepsCoverage(w, n, k, l, q, id);
  }

  lemma OutboxIsOnePerKey(db: Db)
    requires OutboxOk(db)
    ensures OnePerKey(db.outbox)
  {
  }

  lemma CoreOnePerKey(w: World, c: ClientId, n: Node)
    requires CoreOk(w, c, n)
    ensures OnePerKey(n.db.outbox)
  {
  }
}
