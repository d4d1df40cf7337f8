/** Server copies reaching a client keep its invariant, codes and coverage. */
module SyncStores {
  import opened Protocol
  import opened PushRules
  import opened LocalDb
  import opened SyncModel
  import opened SyncInvariant

  // ----- Storing one server copy -----

  /** The local table after PutCopy: the row is the copy, others at most gave up its code. */
  ghost predicate TableTook(local: Locals, after: Locals, k: Key, copy: Copy) {
    && after.Keys == local.Keys + {k}
    && after[k] == Local(copy, false)
    && (forall j :: j in local && j != k ==>
        after[j] == local[j] || (after[j] == ReleaseCode(local[j]) && j.kind == k.kind
                                 && copy.code.Some? && local[j].copy.code == copy.code))
  }

  lemma PutCopyEffect(local: Locals, k: Key, copy: Copy)
    ensures TableTook(local, PutCopy(local, k, copy), k, copy)
  {
  }

  /** The unique index is never broken, at the release or at the write. */
  lemma PutCopyKeepsCodes(local: Locals, k: Key, copy: Copy)
    requires LocalCodesUnique(local) && (!Scored(k.kind) ==> copy.code.None?)
    ensures LocalCodesUnique(PutCopy(local, k, copy))
    ensures CodeFree(PutCopy(local, k, copy), k, copy.code)
  {
  }

  function Took(n: Node, k: Key, copy: Copy): Node {
    n.(db := n.db.(outbox := WithoutKey(n.db.outbox, k), local := PutCopy(n.db.local, k, copy)))
  }

  lemma TookKeepsOutbox(n: Node, k: Key, copy: Copy)
    requires OutboxOk(n.db) && copy.version >= 1
    ensures OutboxOk(Took(n, k, copy).db)
  {
    var db := Took(n, k, copy).db;
    PutCopyEffect(n.db.local, k, copy);
    hide PutCopy;
    forall j | Live(db, j) && (db.local[j].dirty || db.local[j].copy.version == 0) ensures HasOpen(db.outbox, j) {
      assert j != k && HasOpen(n.db.outbox, j);
      var i :| i in n.db.outbox && n.db.outbox[i].key == j;
      assert i in db.outbox;
    }
    forall i | i in db.outbox ensures EntryRowOk(db.local, db.outbox[i]) {
      assert EntryRowOk(n.db.local, n.db.outbox[i]);
    }
  }

  lemma TookKeepsLedgers(w: World, c: ClientId, n: Node, k: Key, copy: Copy)
    requires LocalOk(w, c, n) && BasesOk(w, c, n) && BoundaryOk(w, c, n) && PayloadsOk(w, c, n)
    requires copy.version >= 1 && InArchive(w.server, k, copy) && KeyCopy(k, copy) in n.seen
    ensures var m := Took(n, k, copy); LocalOk(w, c, m) && BasesOk(w, c, m) && BoundaryOk(w, c, m) && PayloadsOk(w, c, m)
  {
    var m := Took(n, k, copy);
    PutCopyEffect(n.db.local, k, copy);
    hide PutCopy, BaseOk, SavedOk, SentKey, Owned;
    forall j | j in m.db.local ensures LocalRowOk(w, c, m.seen, j, m.db.local[j]) {
      assert j != k ==> LocalRowOk(w, c, n.seen, j, n.db.local[j]);
    }
    forall ch | ch in m.sent ensures SentPayloadOk(w, c, m, ch) {
      assert SentPayloadOk(w, c, n, ch);
    }
  }

  lemma TookKeepsCore(w: World, c: ClientId, n: Node, k: Key, copy: Copy)
    requires CoreOk(w, c, n) && copy.version >= 1 && (!Scored(k.kind) ==> copy.code.None?)
    requires InArchive(w.server, k, copy) && KeyCopy(k, copy) in n.seen
    ensures CoreOk(w, c, Took(n, k, copy))
  {
    hide OutboxOk, LocalOk, BasesOk, BoundaryOk, PayloadsOk, LocalCodesUnique, PutCopy, WithoutKey;
    TookKeepsOutbox(n, k, copy);
    TookKeepsLedgers(w, c, n, k, copy);
    PutCopyKeepsCodes(n.db.local, k, copy);
  }

  // ----- Coverage of a set of rows -----

  ghost predicate CoveredOn(rows: map<Key, Row>, db: Db, due: set<Key>) {
    forall k :: k in due ==> k in rows && Covered(rows, db, k)
  }

  ghost function Due(rows: map<Key, Row>, watermark: nat): set<Key> {
    set k | k in rows && rows[k].sequence <= watermark
  }

  /** Storing the due copy of one row covers it and uncovers none that is due. */
  lemma TookCovers(rows: map<Key, Row>, n: Node, due: set<Key>, k: Key, copy: Copy)
    requires CoveredOn(rows, n.db, due)
    requires k in due ==> rows[k].copy == copy
    requires forall j :: j in due && j != k && j.kind == k.kind && copy.code.Some? ==> rows[j].copy.code != copy.code
    ensures CoveredOn(rows, Took(n, k, copy).db, due)
    ensures k in rows && rows[k].copy == copy ==> CoveredOn(rows, Took(n, k, copy).db, due + {k})
  {
    var db := Took(n, k, copy).db;
    PutCopyEffect(n.db.local, k, copy);
    hide PutCopy;
    forall j | j in due ensures Covered(rows, db, j) {
      assert Covered(rows, n.db, j);
      if j != k && HasOpen(n.db.outbox, j) {
        var i :| i in n.db.outbox && n.db.outbox[i].key == j;
        assert i in db.outbox;
      }
    }
  }

  lemma FreshCopyCovers(rows: map<Key, Row>, n: Node, k: Key, copy: Copy)
    requires CoverageOk(rows, n.db) && FreshCopy(rows, n.db.watermark, k, copy)
    ensures CoverageOk(rows, Took(n, k, copy).db)
  {
    hide Took;
    var due := Due(rows, n.db.watermark);
    TookCovers(rows, n, due, k, copy);
    assert Took(n, k, copy).db.watermark == n.db.watermark by { TookWatermark(n, k, copy); }
    assert forall j :: j in rows && rows[j].sequence <= n.db.watermark ==> j in due;
  }

  lemma TookWatermark(n: Node, k: Key, copy: Copy)
    ensures Took(n, k, copy).db.watermark == n.db.watermark
  {
  }

  // ----- Clearing codes before an acknowledgement batch -----

  function Released(n: Node, results: seq<Result>): Node {
    n.(db := n.db.(local := ReleaseCodes(n.db.local, results)))
  }

  ghost predicate OnlyCodesCleared(local: Locals, after: Locals) {
    after.Keys == local.Keys && forall j :: j in local ==> after[j] == local[j] || after[j] == ReleaseCode(local[j])
  }

  lemma ReleasedKeepsCore(w: World, c: ClientId, n: Node, results: seq<Result>)
    requires CoreOk(w, c, n)
    ensures CoreOk(w, c, Released(n, results))
  {
    hide OutboxOk, LocalOk, BasesOk, BoundaryOk, PayloadsOk, LocalCodesUnique;
    var m := Released(n, results);
    assert OnlyCodesCleared(n.db.local, m.db.local);
    hide ReleaseCodes, OnlyCodesCleared;
    ReleasedKeepsOutbox(n.db, m.db);
    ReleasedKeepsUnique(n.db.local, m.db.local);
    ReleasedKeepsLedgers(w, c, n, m);
  }

  lemma ReleasedKeepsLedgers(w: World, c: ClientId, n: Node, m: Node)
    requires LocalOk(w, c, n) && BasesOk(w, c, n) && BoundaryOk(w, c, n) && PayloadsOk(w, c, n)
    requires m == n.(db := n.db.(local := m.db.local)) && OnlyCodesCleared(n.db.local, m.db.local)
    ensures LocalOk(w, c, m) && BasesOk(w, c, m) && BoundaryOk(w, c, m) && PayloadsOk(w, c, m)
  {
    hide BaseOk, SavedOk, SentKey, Owned, Knows;
    forall j | j in m.db.local ensures LocalRowOk(w, c, m.seen, j, m.db.local[j]) {
      assert LocalRowOk(w, c, n.seen, j, n.db.local[j]);
    }
    hide OnlyCodesCleared, LocalRowOk;
    forall ch | ch in m.sent ensures SentPayloadOk(w, c, m, ch) {
      assert SentPayloadOk(w, c, n, ch);
    }
  }

  lemma ReleasedKeepsOutbox(db: Db, after: Db)
    requires OutboxOk(db) && OnlyCodesCleared(db.local, after.local) && after.outbox == db.outbox
    ensures OutboxOk(after)
  {
    forall i | i in after.outbox ensures EntryRowOk(after.local, after.outbox[i]) {
      assert EntryRowOk(db.local, db.outbox[i]);
    }
    forall j | Live(after, j) && (after.local[j].dirty || after.local[j].copy.version == 0) ensures HasOpen(after.outbox, j) {
      assert Live(db, j) && HasOpen(db.outbox, j);
    }
  }

  lemma ReleasedKeepsUnique(local: Locals, after: Locals)
    requires LocalCodesUnique(local) && OnlyCodesCleared(local, after)
    ensures LocalCodesUnique(after)
  {
  }

  /** Acknowledged records are fresh and their rows still have an open entry. */
  ghost predicate ReleasesFresh(rows: map<Key, Row>, db: Db, results: seq<Result>) {
    forall r :: r in results && r.outcome.Accepted? && r.record.Some? ==>
      HasOpen(db.outbox, r.key) && CodeSafe(rows, db.watermark, r.key, r.record.value.code)
  }

  lemma ReleasedKeepsCoverage(rows: map<Key, Row>, n: Node, results: seq<Result>)
    requires CoverageOk(rows, n.db) && ReleasesFresh(rows, n.db, results)
    ensures CoverageOk(rows, Released(n, results).db)
  {
    var db := Released(n, results).db;
    forall j | j in rows && rows[j].sequence <= db.watermark ensures Covered(rows, db, j) {
      assert Covered(rows, n.db, j);
      if !HasOpen(n.db.outbox, j) {
        assert !CodeReleased(results, j, n.db.local[j].copy.code);
      }
    }
  }

  ghost predicate CodesReleased(local: Locals, results: seq<Result>) {
    forall r, j :: r in results && CarriesCode(r) && j in local && j.kind == r.key.kind ==>
      local[j].copy.code != r.record.value.code
  }

  lemma ReleasedFreesCodes(n: Node, results: seq<Result>)
    requires forall r :: r in results && CarriesCode(r) ==> Scored(r.key.kind)
    ensures CodesReleased(Released(n, results).db.local, results)
  {
  }

  // ----- Rebasing the edit that replaced an acknowledged change -----

  function Advanced(n: Node, k: Key, id: ChangeId, base: Option<int>, record: Record, l: Local): Node
    requires id in n.db.outbox
  {
    n.(db := n.db.(outbox := n.db.outbox[id := n.db.outbox[id].(base := base, record := record)],
                   local := n.db.local[k := l]))
  }

  ghost predicate Advances(w: World, c: ClientId, n: Node, k: Key, id: ChangeId, base: Option<int>, l: Local) {
    && id in n.db.outbox && n.db.outbox[id].key == k && !n.db.outbox[id].attempted
    && k in n.db.local && base.Some? && BaseOk(w, c, n.seen, k, base)
    && l.dirty && l.copy.deleted == n.db.local[k].copy.deleted && l.copy.version >= 1
    && Knows(w.server, c, n.seen, k, l.copy.version)
    && CodeFree(n.db.local, k, l.copy.code) && (!Scored(k.kind) ==> l.copy.code.None?)
  }

  lemma AdvancedKeepsOutbox(n: Node, k: Key, id: ChangeId, base: Option<int>, record: Record, l: Local)
    requires OutboxOk(n.db) && id in n.db.outbox && n.db.outbox[id].key == k && k in n.db.local
    requires l.dirty && l.copy.deleted == n.db.local[k].copy.deleted
    ensures OutboxOk(Advanced(n, k, id, base, record, l).db)
    ensures forall j :: HasOpen(n.db.outbox, j) ==> HasOpen(Advanced(n, k, id, base, record, l).db.outbox, j)
  {
    var db := Advanced(n, k, id, base, record, l).db;
    forall j | HasOpen(n.db.outbox, j) ensures HasOpen(db.outbox, j) {
      var i :| i in n.db.outbox && n.db.outbox[i].key == j;
      assert i in db.outbox && db.outbox[i].key == j;
    }
    forall i | i in db.outbox ensures EntryRowOk(db.local, db.outbox[i]) {
      assert EntryRowOk(n.db.local, n.db.outbox[i]);
    }
    assert HasOpen(n.db.outbox, k);
  }

  lemma AdvancedKeepsLedgers(
    w: World, c: ClientId, n: Node, k: Key, id: ChangeId, base: Option<int>, record: Record, l: Local)
    requires LocalOk(w, c, n) && BasesOk(w, c, n) && BoundaryOk(w, c, n) && PayloadsOk(w, c, n)
    requires Advances(w, c, n, k, id, base, l)
    ensures var m := Advanced(n, k, id, base, record, l);
      LocalOk(w, c, m) && BasesOk(w, c, m) && BoundaryOk(w, c, m) && PayloadsOk(w, c, m)
  {
    var m := Advanced(n, k, id, base, record, l);
    hide BaseOk, SentKey, Owned, Knows, CodeFree;
    forall j | j in m.db.local ensures LocalRowOk(w, c, m.seen, j, m.db.local[j]) {
      assert j != k ==> LocalRowOk(w, c, n.seen, j, n.db.local[j]);
    }
    forall ch | ch in m.sent ensures SentPayloadOk(w, c, m, ch) {
      assert SentPayloadOk(w, c, n, ch);
    }
  }

  lemma AdvancedKeepsCoverage(rows: map<Key, Row>, n: Node, m: Node, k: Key)
    requires CoverageOk(rows, n.db) && m.db.watermark == n.db.watermark && HasOpen(m.db.outbox, k)
    requires forall j :: HasOpen(n.db.outbox, j) ==> HasOpen(m.db.outbox, j)
    requires forall j :: j in n.db.local && j != k ==> j in m.db.local && m.db.local[j] == n.db.local[j]
    ensures CoverageOk(rows, m.db)
  {
    hide HasOpen;
    forall j | j in rows && rows[j].sequence <= m.db.watermark ensures Covered(rows, m.db, j) {
      assert Covered(rows, n.db, j);
    }
  }

  lemma AdvancedKeeps(
    w: World, c: ClientId, n: Node, k: Key, id: ChangeId, base: Option<int>, record: Record, l: Local)
    requires CoreOk(w, c, n) && CoverageOk(w.server.rows, n.db) && Advances(w, c, n, k, id, base, l)
    ensures var m := Advanced(n, k, id, base, record, l); CoreOk(w, c, m) && CoverageOk(w.server.rows, m.db)
  {
    hide OutboxOk, LocalOk, BasesOk, BoundaryOk, PayloadsOk, CoverageOk, BaseOk, Knows;
    AdvancedKeepsLedgers(w, c, n, k, id, base, record, l);
    AdvancedKeepsOutbox(n, k, id, base, record, l);
    assert HasOpen(n.db.outbox, k);
    AdvancedKeepsCoverage(w.server.rows, n, Advanced(n, k, id, base, record, l), k);
  }
}
