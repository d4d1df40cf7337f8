/** What one local edit may do to the outbox: the entry of its own row, and no other. */
module SyncTouches {
  import opened Protocol
  import opened PushRules
  import opened LocalDb
  import opened SyncModel
  import opened SyncInvariant
  import opened SyncQueueing
  import opened SyncPreservation
  import SyncMerging
  import SyncPulling

  /** Other rows keep their entries; this row's entry is new, or stays a conflict. */
  ghost predicate Touches(o: Outbox, q: Outbox, k: Key, newId: ChangeId) {
    && SameElsewhere(o, q, k)
    && (forall i :: i in q && q[i].key == k ==> i == newId || (i in o && IsConflict(o[i]) && IsConflict(q[i])))
  }

  lemma ReplaceTouches(
    o: Outbox, k: Key, op: Op, base: Option<int>, record: Record, force: bool, newId: ChangeId)
    requires OnePerKey(o) && newId !in o
    ensures Touches(o, Replace(o, k, op, base, record, force, newId), k, newId)
  {
    hide Replace, SquashedBase;
    ReplaceEffect(o, k, op, base, record, force, newId);
  }

  lemma OverrideTouches(o: Outbox, q: Outbox, k: Key, base: Option<int>, newId: ChangeId)
    requires Touches(o, q, k, newId)
    ensures Touches(o, OverrideBase(q, k, base), k, newId)
  {
  }

  lemma SaveTouches(db: Db, k: Key, r: Record, editorBase: Option<int>, newId: ChangeId)
    requires OnePerKey(db.outbox) && newId !in db.outbox
    ensures Touches(db.outbox, SaveRow(db, k, r, editorBase, newId).outbox, k, newId)
  {
    hide Replace, Touches, OverrideBase, OnePerKey;
    var base := VersionBase(EditedCopy(db.local, k, r).version);
    ReplaceTouches(db.outbox, k, Upsert, base, r, false, newId);
    OverrideTouches(db.outbox, Replace(db.outbox, k, Upsert, base, r, false, newId), k, editorBase, newId);
  }

  lemma DropTouches(o: Outbox, k: Key, newId: ChangeId)
    ensures Touches(o, WithoutKey(o, k), k, newId)
  {
  }

  lemma DeleteTouches(db: Db, k: Key, newId: ChangeId)
    requires OnePerKey(db.outbox) && newId !in db.outbox && k in db.local
    ensures Touches(db.outbox, DeleteRow(db, k, newId).outbox, k, newId)
  {
    hide Replace, Touches, WithoutKey, OnePerKey, Discards;
    ReplaceTouches(db.outbox, k, Delete, Some(db.local[k].copy.version), DeleteRecord, false, newId);
    ReplaceTouches(db.outbox, k, Delete, Some(1), DeleteRecord, true, newId);
    DropTouches(db.outbox, k, newId);
  }

  lemma KeepMineTouches(db: Db, id: ChangeId, newId: ChangeId)
    requires OnePerKey(db.outbox) && newId !in db.outbox && OpenConflict(db, id) && KeepMine(db, id, newId).Some?
    ensures Touches(db.outbox, KeepMine(db, id, newId).value.outbox, db.outbox[id].key, newId)
  {
    hide Replace, Touches, OnePerKey;
    var e := db.outbox[id];
    var target := Max(e.status.saved.value.version, db.local[e.key].copy.version);
    ReplaceTouches(db.outbox, e.key, e.op, Some(target), e.record, true, newId);
  }

  lemma UseServerTouches(db: Db, id: ChangeId, newId: ChangeId)
    requires OnePerKey(db.outbox) && OpenConflict(db, id) && UseServer(db, id).Some?
    ensures Touches(db.outbox, UseServer(db, id).value.outbox, db.outbox[id].key, newId)
  {
    hide UseServer, Touches, OnePerKey, WithoutKey, PutCopy;
    SyncPulling.UseServerShape(db, id);
    DropTouches(db.outbox, db.outbox[id].key, newId);
  }

  lemma MergeTouches(db: Db, id: ChangeId, r: Record, newId: ChangeId)
    requires OnePerKey(db.outbox) && newId !in db.outbox && OpenConflict(db, id) && Merge(db, id, r, newId).Some?
    ensures Touches(db.outbox, Merge(db, id, r, newId).value.outbox, db.outbox[id].key, newId)
  {
    hide Replace, UseServer, Merge, SyncMerging.MergedRow, PutCopy;
    SyncMerging.MergeShape(db, id, r, newId);
    SyncPulling.UseServerShape(db, id);
    var o, k := db.outbox, db.outbox[id].key;
    ReplaceTouches(WithoutKey(o, k), k, Upsert, Some(o[id].status.saved.value.version), r, true, newId);
  }

  // ----- As steps -----

  /** What the user may do to rows: edit, delete, or settle a conflict. */
  predicate IsLocal(step: Step) {
    IsEdit(step) || step.DoUseServer?
  }

  ghost function Touched(n: Node, step: Step): Key
    requires IsLocal(step)
  {
    match step
    case DoSave(_, k, _, _, _) => k
    case DoDelete(_, k, _) => k
    case DoKeepMine(_, id, _) => if id in n.db.outbox then n.db.outbox[id].key else Key(Risk, 0)
    case DoUseServer(_, id) => if id in n.db.outbox then n.db.outbox[id].key else Key(Risk, 0)
    case DoMerge(_, id, _, _) => if id in n.db.outbox then n.db.outbox[id].key else Key(Risk, 0)
  }

  /** The step's own new id, or none. */
  function Mint(step: Step): Option<ChangeId>
    requires IsLocal(step)
  {
    match step
    case DoSave(_, _, _, _, id) => Some(id)
    case DoDelete(_, _, id) => Some(id)
    case DoKeepMine(_, _, id) => Some(id)
    case DoMerge(_, _, _, id) => Some(id)
    case _ => None
  }

  ghost predicate MintedAll(w: World, n: Node) {
    forall id :: id in n.db.outbox ==> id in w.minted
  }

  /** An edit touches its row's entry only, under an id nobody used. */
  lemma LocalTouches(w: World, n: Node, step: Step, newId: ChangeId)
    requires OnePerKey(n.db.outbox) && MintedAll(w, n) && IsLocal(step) && ClientStep(w, n, step).Some?
    requires Mint(step).Some? ==> Mint(step).value == newId
    ensures var m := ClientStep(w, n, step).value.1;
      Touches(n.db.outbox, m.db.outbox, Touched(n, step), newId)
      && m.sent == n.sent && m.seen == n.seen && m.phase == n.phase
    ensures Mint(step).Some? ==> newId !in w.minted
    ensures ClientStep(w, n, step).value.0.server == w.server
  {
    hide OnePerKey, Touches, Replace, CodeFree, Knows, SaveRow, DeleteRow, KeepMine, UseServer;
    match step
    case DoSave(_, k, r, editorBase, id) => SaveTouches(n.db, k, r, editorBase, id);
    case DoDelete(_, k, id) => DeleteTouches(n.db, k, id);
    case DoKeepMine(_, id, id') => KeepMineTouches(n.db, id, id');
    case DoUseServer(_, id) => UseServerTouches(n.db, id, newId);
    case DoMerge(_, id, r, id') =>
      MergesUnderAnyId(n, id, r, id');
      MergeTouches(n.db, id, r, id');
  }

  lemma MergesUnderAnyId(n: Node, id: ChangeId, r: Record, newId: ChangeId)
    requires OpenConflict(n.db, id) && CanMergeInto(n, id, r)
    ensures Merge(n.db, id, r, newId).Some?
  {
    hide Replace;
  }

  /** A queued delete is out of reach: its row is not live, and only a conflict can be settled. */
  lemma DeletesUntouched(w: World, n: Node, step: Step, id: ChangeId)
    requires OnePerKey(n.db.outbox) && IsLocal(step) && ClientStep(w, n, step).Some?
    requires id in n.db.outbox && n.db.outbox[id].op.Delete? && !IsConflict(n.db.outbox[id])
    requires EntryRowOk(n.db.local, n.db.outbox[id])
    ensures Touched(n, step) != n.db.outbox[id].key
  {
    hide Replace, CodeFree, Knows, SaveRow, DeleteRow, KeepMine, UseServer, Merge;
  }

  lemma TouchedKeeps(o: Outbox, q: Outbox, k: Key, newId: ChangeId, id: ChangeId)
    requires Touches(o, q, k, newId) && id in o && o[id].key != k
    ensures id in q && q[id] == o[id]
  {
  }
}
