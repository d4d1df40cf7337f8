/** Merging a conflict takes the server's row and queues the merged fields on its version. */
module SyncMerging {
  import opened Protocol
  import opened PushRules
  import opened LocalDb
  import opened SyncModel
  import opened SyncInvariant
  import opened SyncQueueing
  import opened SyncStores
  import opened SyncAcknowledge
  import opened SyncPulling
  import ServerHistory

  function MergedRow(local: Locals, k: Key, copy: Copy, r: Record): Local {
    var code := if r.code.Given? then r.code.code else copy.code;
    Local(copy.(code := code, fields := copy.fields + r.fields), true)
  }

  lemma MergeShape(db: Db, id: ChangeId, r: Record, newId: ChangeId)
    requires OnePerKey(db.outbox) && OpenConflict(db, id) && Merge(db, id, r, newId).Some?
    ensures var k := db.outbox[id].key;
      && CanMerge(db, id) && UseServer(db, id).Some?
      && (var taken, copy := UseServer(db, id).value, db.outbox[id].status.saved.value;
          Merge(db, id, r, newId).value ==
            Db(taken.local[k := MergedRow(taken.local, k, copy, r)],
               Replace(taken.outbox, k, Upsert, Some(copy.version), r, true, newId),
               0))
  {
    hide Replace;
    UseServerShape(db, id);
  }

  /** Releasing the server copy's code leaves the merged code to the merged row alone. */
  lemma MergedCodeFree(local: Locals, k: Key, copy: Copy, r: Record)
    requires LocalCodesUnique(local) && (!Scored(k.kind) ==> copy.code.None? && r.code.Absent?)
    requires r.code.Given? ==> CodeFree(PutCopy(local, k, copy), k, r.code.code)
    ensures CodeFree(PutCopy(local, k, copy), k, MergedRow(local, k, copy, r).copy.code)
  {
    PutCopyKeepsCodes(local, k, copy);
  }

  lemma MergeFits(w: World, c: ClientId, n: Node, id: ChangeId, r: Record)
    requires WorldOk(w) && NodeOk(w, c, n) && CanResolve(n, id) && CanMergeInto(n, id, r) && CanMerge(n.db, id)
    ensures var k, copy := n.db.outbox[id].key, n.db.outbox[id].status.saved.value;
      && RowFits(w, c, n.(db := n.db.(local := PutCopy(n.db.local, k, copy))), k, MergedRow(n.db.local, k, copy, r))
      && BaseOk(w, c, n.seen, k, Some(copy.version))
  {
    hide OwnersOk, ReceiptsOk, CoverageOk, PhaseOk, OutboxOk, LocalOk, BasesOk, BoundaryOk, PayloadsOk, PutCopy,
         ServerHistory.RowsStamped, ServerHistory.CodesUnique, ServerHistory.ArchiveCurrent,
         ServerHistory.ArchiveFull, ServerHistory.ArchiveWithin, ServerHistory.AuditOk, ServerHistory.VersionSum,
         Merge;
    var k, copy := n.db.outbox[id].key, n.db.outbox[id].status.saved.value;
    SavedFacts(w, c, n, id);
    MergedCodeFree(n.db.local, k, copy, r);
  }

  lemma MergeQueues(w: World, c: ClientId, n: Node, m: Node, id: ChangeId, r: Record, newId: ChangeId)
    requires WorldOk(w) && NodeOk(w, c, n) && CanResolve(n, id) && CanMergeInto(n, id, r) && CanMerge(n.db, id)
    requires IdFresh(w, c, n, newId) && UseServer(n.db, id).Some? && m == n.(db := UseServer(n.db, id).value)
    ensures var k, copy := n.db.outbox[id].key, n.db.outbox[id].status.saved.value;
      Queues(w, c, m, k, MergedRow(m.db.local, k, copy, r),
             Replace(m.db.outbox, k, Upsert, Some(copy.version), r, true, newId), newId)
  {
    hide WorldOk, NodeOk, CanMergeInto, UseServer, PutCopy, BaseOk, Replace, Queues, RowFits, IdFresh, WithoutKey;
    var k, copy := n.db.outbox[id].key, n.db.outbox[id].status.saved.value;
    assert OnePerKey(n.db.outbox) by { NodeOnePerKey(w, c, n); }
    UseServerShape(n.db, id);
    MergeFits(w, c, n, id, r);
    var t := n.(db := n.db.(local := PutCopy(n.db.local, k, copy)));
    RowFitsTable(w, c, t, m, k, MergedRow(n.db.local, k, copy, r));
    FreshStays(w, c, n, m, k, newId);
    NewestQueued(w, c, m, k, MergedRow(m.db.local, k, copy, r), Some(copy.version), r, newId);
  }

  lemma RowFitsTable(w: World, c: ClientId, n: Node, m: Node, k: Key, l: Local)
    requires RowFits(w, c, n, k, l) && n.db.local == m.db.local && n.seen == m.seen
    ensures RowFits(w, c, m, k, l)
  {
    hide LocalRowOk, CodeFree;
  }

  lemma FreshStays(w: World, c: ClientId, n: Node, m: Node, k: Key, newId: ChangeId)
    requires IdFresh(w, c, n, newId) && m.db.outbox == WithoutKey(n.db.outbox, k) && m.sent == n.sent
    ensures IdFresh(w, c, m, newId) && !HasOpen(m.db.outbox, k)
    ensures OnePerKey(n.db.outbox) ==> OnePerKey(m.db.outbox)
  {
  }

  lemma NewestQueued(w: World, c: ClientId, m: Node, k: Key, l: Local, base: Option<int>, r: Record, newId: ChangeId)
    requires OnePerKey(m.db.outbox) && IdFresh(w, c, m, newId) && !HasOpen(m.db.outbox, k)
    requires RowFits(w, c, m, k, l) && l.dirty && !l.copy.deleted && base.Some? && BaseOk(w, c, m.seen, k, base)
    ensures Queues(w, c, m, k, l, Replace(m.db.outbox, k, Upsert, base, r, true, newId), newId)
  {
    hide BaseOk, RowFits, Replace;
    ReplaceEffect(m.db.outbox, k, Upsert, base, r, true, newId);
  }

  lemma MergeKeeps(w: World, c: ClientId, n: Node, id: ChangeId, r: Record, newId: ChangeId)
    requires WorldOk(w) && NodeOk(w, c, n) && CanResolve(n, id) && CanMergeInto(n, id, r)
    requires IdFresh(w, c, n, newId) && Merge(n.db, id, r, newId).Some?
    ensures NodeOk(w, c, n.(db := Merge(n.db, id, r, newId).value))
  {
    hide WorldOk, NodeOk, CanMergeInto, Merge, UseServer, Replace, IdFresh, Queues, WithRow, MergedRow;
    assert OnePerKey(n.db.outbox) by { NodeOnePerKey(w, c, n); }
    MergeShape(n.db, id, r, newId);
    var k, copy := n.db.outbox[id].key, n.db.outbox[id].status.saved.value;
    var m := n.(db := UseServer(n.db, id).value);
    UseServerKeeps(w, c, n, id);
    MergeQueues(w, c, n, m, id, r, newId);
    var l, q := MergedRow(m.db.local, k, copy, r), Replace(m.db.outbox, k, Upsert, Some(copy.version), r, true, newId);
    QueueKeeps(w, c, m, k, l, q, newId);
    assert WithRow(m, k, l, q) == n.(db := Merge(n.db, id, r, newId).value) by { MergedNode(n, m, k, l, q, id, r, newId); }
  }

  lemma NodeOnePerKey(w: World, c: ClientId, n: Node)
    requires NodeOk(w, c, n)
    ensures OnePerKey(n.db.outbox)
  {
    CorePayloads(w, c, n);
  }

  lemma MergedNode(n: Node, m: Node, k: Key, l: Local, q: Outbox, id: ChangeId, r: Record, newId: ChangeId)
    requires OpenConflict(n.db, id) && UseServer(n.db, id).Some? && Merge(n.db, id, r, newId).Some?
    requires m == n.(db := UseServer(n.db, id).value)
    requires Merge(n.db, id, r, newId).value == Db(m.db.local[k := l], q, 0)
    ensures WithRow(m, k, l, q) == n.(db := Merge(n.db, id, r, newId).value)
  {
    hide Merge, Replace;
  }
}
