/** Local edits, deletes and "keep mine" keep the invariant. */
module SyncEdits {
  import opened Protocol
  import opened PushRules
  import opened LocalDb
  import opened SyncModel
  import opened SyncInvariant
  import opened SyncGrowth
  import opened SyncQueueing
  import ServerHistory

  // ----- Fresh ids -----

  lemma SentKeysOwned(w: World, c: ClientId, n: Node)
    requires OwnersOk(w) && ServerHistory.ArchiveWithin(w.server) && BasesOk(w, c, n)
    ensures forall ch :: ch in n.sent ==> ch.key in w.owner
    ensures forall k :: k !in w.owner ==> k !in w.server.rows && !SentKey(n.sent, k)
  {
    forall ch | ch in n.sent ensures ch.key in w.owner {
      assert BaseOk(w, c, n.seen, ch.key, ch.base);
    }
  }

  /** Minting a change id, or claiming a fresh row id, changes nothing anyone relied on. */
  lemma MintKeeps(w: World, v: World, d: ClientId, n: Node)
    requires WorldOk(w) && NodeOk(w, d, n) && v.server == w.server && Grows(w, v)
    requires forall k :: k in v.owner && k !in w.owner ==> k !in w.server.rows
    requires forall id :: id in v.minted && id !in w.minted ==> id !in w.server.receipts
    ensures NodeOk(v, d, n)
  {
    hide OutboxOk, LocalOk, BasesOk, CoverageOk, PhaseOk, LocalCodesUnique, OwnersOk, ReceiptsOk,
         ServerHistory.Evolves, ServerHistory.RowsStamped, ServerHistory.ArchiveCurrent, ServerHistory.ArchiveFull,
         ServerHistory.ArchiveWithin, ServerHistory.CodesUnique, ServerHistory.VersionSum, ServerHistory.AuditOk;
    FromSentKept(w, v, d, n);
    NodeGrows(w, v, d, n);
  }

  lemma FromSentKept(w: World, v: World, d: ClientId, n: Node)
    requires BoundaryOk(w, d, n) && PayloadsOk(w, d, n) && v.server == w.server && Grows(w, v)
    requires forall k :: k in v.owner && k !in w.owner ==> k !in w.server.rows
    requires forall id :: id in v.minted && id !in w.minted ==> id !in w.server.receipts
    ensures FromSent(v, d, n)
  {
  }

  lemma MintKeepsWorld(w: World, v: World)
    requires WorldOk(w) && v.server == w.server && Grows(w, v)
    ensures WorldOk(v)
  {
    hide ServerHistory.Good, StoredOk, ServerHistory.Evolves;
    forall id | id in v.server.receipts ensures ReceiptOk(v, id) {
      assert ReceiptOk(w, id);
    }
    forall k | k in v.server.rows ensures k in v.owner && v.owner[k] == w.owner[k] {
      assert k in w.owner;
    }
  }

  // ----- The entry already open for a live row -----

  lemma OpenUpsert(w: World, c: ClientId, n: Node, k: Key)
    requires CoreOk(w, c, n) && Live(n.db, k) && HasOpen(n.db.outbox, k)
    ensures var e := n.db.outbox[OpenId(n.db.outbox, k)];
      && e.op.Upsert?
      && BaseOk(w, c, n.seen, k, e.base)
      && (e.base.None? && !e.attempted ==> !SentKey(n.sent, k))
    ensures ReplacesUpsert(n, k)
  {
    hide LocalOk, PayloadsOk, LocalCodesUnique, BaseOk, SentKey, SavedOk;
    var i := OpenId(n.db.outbox, k);
    assert EntryRowOk(n.db.local, n.db.outbox[i]);
  }

  lemma SquashedBaseOk(w: World, c: ClientId, n: Node, k: Key, base: Option<int>)
    requires CoreOk(w, c, n)
    requires k in n.db.local ==> Live(n.db, k)
    requires !HasOpen(n.db.outbox, k) ==> BaseOk(w, c, n.seen, k, base) && (base.None? ==> !SentKey(n.sent, k))
    ensures var b := SquashedBase(n.db.outbox, k, base);
      BaseOk(w, c, n.seen, k, b) && (b.None? ==> !SentKey(n.sent, k))
    ensures ReplacesUpsert(n, k)
  {
    hide LocalOk, PayloadsOk, LocalCodesUnique, SentKey, BasesOk, BoundaryOk, Knows;
    if HasOpen(n.db.outbox, k) {
      assert EntryRowOk(n.db.local, n.db.outbox[OpenId(n.db.outbox, k)]);
      OpenUpsert(w, c, n, k);
    }
  }

  /** A live row without an open entry has a version the client knows. */
  lemma SettledVersion(w: World, c: ClientId, n: Node, k: Key)
    requires CoreOk(w, c, n) && Live(n.db, k) && !HasOpen(n.db.outbox, k)
    ensures n.db.local[k].copy.version >= 1 && BaseOk(w, c, n.seen, k, VersionBase(n.db.local[k].copy.version))
  {
    hide BasesOk, BoundaryOk, PayloadsOk, LocalCodesUnique, Knows, Owned;
    assert LocalRowOk(w, c, n.seen, k, n.db.local[k]);
  }

  // ----- Save -----

  lemma OverrideKeepsEntry(o: Outbox, q: Outbox, k: Key, id: ChangeId, base: Option<int>)
    requires base.Some? ==> base.value >= 1
    ensures var r := OverrideBase(q, k, base);
      && (NewEntry(o, q, k, id) ==>
          NewEntry(o, r, k, id) && r[id].op == q[id].op
          && r[id].base == if base.Some? then base else q[id].base)
      && (KeptConflict(o, q, k, id) ==> KeptConflict(o, r, k, id) && r[id].op == q[id].op)
  {
    OverrideEffect(q, k, base);
    hide OverrideBase;
  }

  lemma SaveRowFits(w: World, c: ClientId, n: Node, k: Key, r: Record)
    requires CoreOk(w, c, n)
    requires k !in n.db.local ==> Owned(w, k, c)
    requires !Scored(k.kind) ==> r.code.Absent?
    requires CodeFree(n.db.local, k, EditedCopy(n.db.local, k, r).code)
    ensures RowFits(w, c, n, k, Local(EditedCopy(n.db.local, k, r), true))
  {
    hide OutboxOk, BasesOk, BoundaryOk, PayloadsOk, Knows, Owned;
    if k in n.db.local {
      assert LocalRowOk(w, c, n.seen, k, n.db.local[k]);
    }
  }

  lemma SaveQueues(w: World, c: ClientId, n: Node, k: Key, r: Record, editorBase: Option<int>, id: ChangeId) returns (e: ChangeId)
    requires NodeOk(w, c, n) && IdFresh(w, c, n, id)
    requires k in n.db.local ==> Live(n.db, k)
    requires k !in n.db.local ==> Owned(w, k, c) && !SentKey(n.sent, k) && !HasOpen(n.db.outbox, k)
    requires !Scored(k.kind) ==> r.code.Absent?
    requires CodeFree(n.db.local, k, EditedCopy(n.db.local, k, r).code)
    requires editorBase.Some? ==> Knows(w.server, c, n.seen, k, editorBase.value)
    ensures Queues(w, c, n, k, Local(EditedCopy(n.db.local, k, r), true), SaveRow(n.db, k, r, editorBase, id).outbox, e)
  {
    hide CoreOk, CoverageOk, PhaseOk, Knows, SentKey, Replace, CodeFree, RowFits, SameElsewhere, SquashedBase,
         OverrideBase, ReplacesUpsert;
    SaveRowFits(w, c, n, k, r);
    CoreOnePerKey(w, c, n);
    var o := n.db.outbox;
    var version := EditedCopy(n.db.local, k, r).version;
    if k in n.db.local && !HasOpen(o, k) {
      SettledVersion(w, c, n, k);
    }
    SquashedBaseOk(w, c, n, k, VersionBase(version));
    ReplaceEffect(o, k, Upsert, VersionBase(version), r, false, id);
    KnowsPositive(w.server, c, n.seen, k, editorBase);
    e := if KeepsConflict(o, k, false) then OpenId(o, k) else id;
    OverrideKeepsEntry(o, Replace(o, k, Upsert, VersionBase(version), r, false, id), k, e, editorBase);
  }

  lemma KnowsPositive(s: Server, c: ClientId, seen: set<KeyCopy>, k: Key, base: Option<int>)
    requires base.Some? ==> Knows(s, c, seen, k, base.value)
    ensures base.Some? ==> base.value >= 1
  {
  }

  // ----- Delete -----

  /** Version zero and nothing sent: no request with this row's id ever left. */
  lemma DiscardIsUnsent(w: World, c: ClientId, n: Node, k: Key)
    requires CoreOk(w, c, n) && Live(n.db, k) && Discards(n.db, k)
    ensures HasOpen(n.db.outbox, k) && !SentKey(n.sent, k) && k !in w.server.rows
  {
    hide BasesOk, PayloadsOk, LocalCodesUnique, Knows;
    assert LocalRowOk(w, c, n.seen, k, n.db.local[k]);
    assert EntryRowOk(n.db.local, n.db.outbox[OpenId(n.db.outbox, k)]);
  }

  ghost predicate DropsRow(n: Node, m: Node, k: Key) {
    && m == n.(db := n.db.(local := m.db.local, outbox := WithoutKey(n.db.outbox, k)))
    && (forall j :: j in n.db.local && j != k ==> j in m.db.local && m.db.local[j] == n.db.local[j])
    && (forall j :: j in m.db.local && j != k ==> j in n.db.local)
    && (k in m.db.local ==> k in n.db.local && m.db.local[k] == MarkDeleted(n.db.local[k]))
  }

  lemma DropKeepsOutbox(n: Node, m: Node, k: Key)
    requires OutboxOk(n.db) && DropsRow(n, m, k)
    ensures OutboxOk(m.db)
  {
    forall j | Live(m.db, j) && (m.db.local[j].dirty || m.db.local[j].copy.version == 0)
      ensures HasOpen(m.db.outbox, j)
    {
      assert j != k && HasOpen(n.db.outbox, j);
      var i :| i in n.db.outbox && n.db.outbox[i].key == j;
      assert i in m.db.outbox;
    }
    forall i | i in m.db.outbox ensures EntryRowOk(m.db.local, m.db.outbox[i]) {
      assert EntryRowOk(n.db.local, n.db.outbox[i]);
    }
  }

  lemma DropKeepsLedgers(w: World, c: ClientId, n: Node, m: Node, k: Key)
    requires LocalOk(w, c, n) && BasesOk(w, c, n) && BoundaryOk(w, c, n) && PayloadsOk(w, c, n)
    requires DropsRow(n, m, k)
    ensures LocalOk(w, c, m) && BasesOk(w, c, m) && BoundaryOk(w, c, m) && PayloadsOk(w, c, m)
  {
    hide BaseOk, SavedOk, SentKey, Knows, Owned;
    forall j | j in m.db.local ensures LocalRowOk(w, c, m.seen, j, m.db.local[j]) {
      assert LocalRowOk(w, c, n.seen, j, n.db.local[j]);
    }
    forall ch | ch in m.sent ensures SentPayloadOk(w, c, m, ch) {
      assert SentPayloadOk(w, c, n, ch);
    }
  }

  lemma DropKeepsCoverage(w: World, n: Node, m: Node, k: Key)
    requires CoverageOk(w.server.rows, n.db) && DropsRow(n, m, k) && k !in w.server.rows
    ensures CoverageOk(w.server.rows, m.db)
  {
    forall j | j in w.server.rows && w.server.rows[j].sequence <= m.db.watermark ensures Covered(w.server.rows, m.db, j) {
      assert Covered(w.server.rows, n.db, j);
      if HasOpen(n.db.outbox, j) {
        var i :| i in n.db.outbox && n.db.outbox[i].key == j;
        assert i in m.db.outbox;
      }
    }
  }

  lemma DropKeepsPhase(s: Server, c: ClientId, n: Node, m: Node, k: Key)
    requires PhaseOk(s, c, n) && DropsRow(n, m, k) && !SentKey(n.sent, k)
    requires forall ch :: ch in n.sent && ch.id in n.db.outbox ==> n.db.outbox[ch.id].key == ch.key
    ensures PhaseOk(s, c, m)
  {
    hide ResultOk, PullingOk, ReplyOk;
    forall ch | ch in n.sent && Carried(n.db.outbox, ch) ensures Carried(m.db.outbox, ch) {
      assert ch.key != k;
      if ch.id !in n.db.outbox {
        var i :| i in n.db.outbox && n.db.outbox[i].key == ch.key && Sendable(n.db.outbox[i]) && !n.db.outbox[i].attempted;
        assert i in m.db.outbox;
      }
    }
    hide Carried;
  }

  lemma DropKeepsCodes(n: Node, m: Node, k: Key)
    requires LocalCodesUnique(n.db.local) && DropsRow(n, m, k)
    ensures LocalCodesUnique(m.db.local)
  {
  }

  lemma DropKeeps(w: World, c: ClientId, n: Node, m: Node, k: Key)
    requires NodeOk(w, c, n) && DropsRow(n, m, k) && !SentKey(n.sent, k) && k !in w.server.rows
    ensures NodeOk(w, c, m)
  {
    hide OutboxOk, LocalOk, BasesOk, BoundaryOk, CoverageOk, PhaseOk, LocalCodesUnique, SentKey, DropsRow;
    DropKeepsOutbox(n, m, k);
    DropKeepsLedgers(w, c, n, m, k);
    DropKeepsCoverage(w, n, m, k);
    DropKeepsCodes(n, m, k);
    assert forall ch :: ch in n.sent ==> SentPayloadOk(w, c, n, ch);
    DropKeepsPhase(w.server, c, n, m, k);
    assert m.db.watermark == n.db.watermark by { DropKeepsWatermark(n, m, k); }
  }

  lemma DropKeepsWatermark(n: Node, m: Node, k: Key)
    requires DropsRow(n, m, k)
    ensures m.db.watermark == n.db.watermark
  {
  }

  lemma DeleteQueues(w: World, c: ClientId, n: Node, k: Key, id: ChangeId) returns (e: ChangeId)
    requires NodeOk(w, c, n) && IdFresh(w, c, n, id) && Live(n.db, k) && !Discards(n.db, k)
    ensures Queues(w, c, n, k, MarkDeleted(n.db.local[k]), DeleteRow(n.db, k, id).outbox, e)
  {
    hide OutboxOk, BasesOk, BoundaryOk, PayloadsOk, CoverageOk, PhaseOk, Knows, SentKey, Replace;
    OutboxIsOnePerKey(n.db);
    var o, version := n.db.outbox, n.db.local[k].copy.version;
    assert LocalRowOk(w, c, n.seen, k, n.db.local[k]);
    if !HasOpen(o, k) {
      SettledVersion(w, c, n, k);
    }
    SquashedBaseOk(w, c, n, k, VersionBase(version));
    hide SquashedBase;
    if version >= 1 {
      ReplaceEffect(o, k, Delete, Some(version), DeleteRecord, false, id);
      e := if KeepsConflict(o, k, false) then OpenId(o, k) else id;
    } else {
      ReplaceEffect(o, k, Delete, Some(1), DeleteRecord, true, id);
      e := id;
    }
  }

  // ----- Keep mine -----

  lemma KeepMineQueues(w: World, c: ClientId, n: Node, id: ChangeId, newId: ChangeId)
    requires NodeOk(w, c, n) && IdFresh(w, c, n, newId) && OpenConflict(n.db, id) && KeepMine(n.db, id, newId).Some?
    ensures var k := n.db.outbox[id].key;
      Queues(w, c, n, k, n.db.local[k], KeepMine(n.db, id, newId).value.outbox, newId)
      && WithRow(n, k, n.db.local[k], KeepMine(n.db, id, newId).value.outbox).db == KeepMine(n.db, id, newId).value
  {
    hide BoundaryOk, PayloadsOk, CoverageOk, PhaseOk, Replace;
    var e := n.db.outbox[id];
    var k := e.key;
    var target := Max(e.status.saved.value.version, n.db.local[k].copy.version);
    assert EntryRowOk(n.db.local, e) && SavedOk(w, n.seen, e);
    assert LocalRowOk(w, c, n.seen, k, n.db.local[k]);
    assert Knows(w.server, c, n.seen, k, target);
    ReplaceEffect(n.db.outbox, k, e.op, Some(target), e.record, true, newId);
    assert n.db.local[k := n.db.local[k]] == n.db.local;
  }
}
