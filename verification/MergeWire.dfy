/** A merge by fields on its way: the client's row, the queued change and the server's row it ends in. */
module MergeWire {
  import opened Protocol
  import opened PushRules
  import opened LocalDb
  import opened SyncModel
  import opened ConflictMerge
  import Decimal
  import SyncMerging
  import opened SyncInvariant
  import ServerHistory
  import SyncPulling
  import SyncService
  import SyncTheorems

  // ----- Values and column names -----

  /** One text per value: quoted text, bare numbers and words. */
  function Wire(v: Value): string {
    match v
    case Null => "null"
    case Flag(on) => if on then "true" else "false"
    case Number(n) => if n < 0 then "-" + Decimal.Print(-n) else Decimal.Print(n)
    case Text(s) => "\"" + s
    case Other(repr, truthy) => (if truthy then "{" else "[") + repr
  }

  lemma NumberText(v: Value)
    ensures v.Number? && v.n >= 0 ==> Decimal.AllDigits(Wire(v)) && Decimal.Value(Wire(v)) == v.n
    ensures v.Number? && v.n < 0 ==> Wire(v)[0] == '-' && Decimal.AllDigits(Wire(v)[1..]) && Decimal.Value(Wire(v)[1..]) == -v.n
  {
    if v.Number? && v.n < 0 {
      Decimal.ValueOfPrint(-v.n);
      assert Wire(v)[1..] == Decimal.Print(-v.n);
    } else if v.Number? {
      Decimal.ValueOfPrint(v.n);
    }
  }

  lemma WireKeepsValue(a: Value, b: Value)
    ensures Wire(a) == Wire(b) <==> a == b
  {
    NumberText(a);
    NumberText(b);
    if Wire(a) == Wire(b) {
      assert Wire(a)[0] == Wire(b)[0] && Wire(a)[1..] == Wire(b)[1..];
    }
  }

  type Names = Field -> string

  /** No two of the known fields share a column. */
  ghost predicate Apart(name: Names) {
    forall a: Field, b: Field :: !a.OtherField? && !b.OtherField? && name(a) == name(b) ==> a == b
  }

  /** What a record carries in its fields: all it may carry but the id, which is the key, and the code. */
  function Columns(kind: Kind): (columns: set<Field>)
    ensures forall key :: key in columns ==> !key.OtherField?
  {
    ConflictMerge.Carried(kind) - {Id, Code}
  }

  function CodeOf(v: Value): Option<string> {
    if v.Text? then Some(v.s) else None
  }

  function WiredFields(name: Names, kind: Kind, rec: Rec): Fields
    requires Apart(name)
  {
    map key | key in rec && key in Columns(kind) :: name(key) := Wire(rec[key])
  }

  function Wired(name: Names, kind: Kind, rec: Rec): Record
    requires Apart(name)
  {
    Record(if Scored(kind) && Code in rec then Given(CodeOf(rec[Code])) else Absent, None, WiredFields(name, kind, rec))
  }

  lemma WiredHolds(name: Names, kind: Kind, rec: Rec, key: Field)
    requires Apart(name) && key in Columns(kind)
    ensures var fields := WiredFields(name, kind, rec);
      (name(key) in fields <==> key in rec) && (key in rec ==> fields[name(key)] == Wire(rec[key]))
  {
    hide Columns, Wire;
  }

  lemma WiredOnly(name: Names, kind: Kind, rec: Rec, column: string)
    requires Apart(name) && column in WiredFields(name, kind, rec)
    ensures exists key :: key in rec && key in Columns(kind) && name(key) == column
  {
  }

  // ----- The conflict both sides talk about -----

  ghost predicate Holds(name: Names, kind: Kind, rec: Rec, fields: Fields) {
    forall key :: key in Columns(kind) ==>
      (name(key) in fields <==> key in rec) && (key in rec ==> fields[name(key)] == Wire(rec[key]))
  }

  /** The saved conflict, as the merge reads it, is this blocked entry. */
  ghost predicate Stands(name: Names, c: Saved, e: Entry) {
    && c.op == e.op && c.kind == Some(e.key.kind)
    && IsConflict(e) && e.status.saved.Some? && c.local.Some? && c.server.Some?
    && Holds(name, e.key.kind, c.local.value, e.record.fields)
    && Holds(name, e.key.kind, c.server.value, e.status.saved.value.fields)
    && (Scored(e.key.kind) && Code in c.local.value ==> e.record.code == Given(CodeOf(c.local.value[Code])))
    && (Scored(e.key.kind) && Code in c.server.value ==> e.status.saved.value.code == CodeOf(c.server.value[Code]))
  }

  predicate Chose(choices: map<Field, Side>, key: Field) {
    key in choices && choices[key].Mine?
  }

  /** Whether the merge computes this field from the dimensions. */
  predicate Computed(kind: Kind, record: Rec, key: Field) {
    key == Impact && Scored(kind) && MaxDimension(record).Some?
  }

  predicate SameText(a: Fields, b: Fields, column: string) {
    (column in a <==> column in b) && (column in a ==> a[column] == b[column])
  }

  /** Mine where chosen, the server's elsewhere, a computed impact from the dimensions. */
  ghost predicate MergedColumn(
    name: Names, kind: Kind, choices: map<Field, Side>, record: Rec, mine: Fields, saved: Fields, fields: Fields, key: Field)
  {
    if Computed(kind, record, key)
    then name(key) in fields && fields[name(key)] == Wire(Number(MaxDimension(record).value))
    else SameText(fields, if Chose(choices, key) then mine else saved, name(key))
  }

  ghost predicate NoColumn(name: Names, kind: Kind, column: string) {
    forall key :: key in Columns(kind) ==> name(key) != column
  }

  /** Every field merged, every other column and the version the server's. */
  ghost predicate MergedContent(
    name: Names, kind: Kind, choices: map<Field, Side>, record: Rec, mine: Record, saved: Copy, copy: Copy)
  {
    && (forall key :: key in Columns(kind) ==>
        MergedColumn(name, kind, choices, record, mine.fields, saved.fields, copy.fields, key))
    && (forall column :: NoColumn(name, kind, column) ==> SameText(copy.fields, saved.fields, column))
    && copy.code == (if Scored(kind) && Chose(choices, Code) && mine.code.Given? then mine.code.code else saved.code)
    && !copy.deleted
  }

  // ----- The client's row -----

  lemma ColumnsCarried(kind: Kind, key: Field)
    requires key in Columns(kind)
    ensures key in ConflictMerge.Carried(kind) && key != Id && key != Code
  {
  }

  lemma CodeCarried(kind: Kind)
    requires Scored(kind)
    ensures Code in ConflictMerge.Carried(kind)
  {
  }

  /** One carried field of a merge, but the id and a computed impact. */
  lemma RecordAt(f: Formats, c: Saved, choices: map<Field, Side>, record: Rec, key: Field)
    requires Acceptable(f, c, choices) && IsMerge(c, choices, record)
    requires key in ConflictMerge.Carried(c.kind.value) && key != Id && !Computed(c.kind.value, record, key)
    ensures key in record <==> key in c.server.value
    ensures key in record ==> record[key] == if Chose(choices, key) then c.local.value[key] else c.server.value[key]
    ensures Chose(choices, key) ==> key in c.local.value && key in record
  {
    hide SelectedOk, MaxDimension, ConflictMerge.Carried;
    NonemptyCanMerge(c);
    MergeableIsCarried(c);
    hide ConflictMerge.CanMerge, MergeableFields;
  }

  lemma ComputedIsHighest(c: Saved, choices: map<Field, Side>, record: Rec, key: Field)
    requires IsMerge(c, choices, record) && Computed(c.kind.value, record, key)
    ensures key in record && record[key] == Number(MaxDimension(record).value)
  {
    hide ConflictMerge.CanMerge, MaxDimension, ConflictMerge.Carried;
  }

  lemma MergesColumn(name: Names, f: Formats, c: Saved, e: Entry, choices: map<Field, Side>, record: Rec, key: Field)
    requires Apart(name) && Stands(name, c, e) && Acceptable(f, c, choices) && IsMerge(c, choices, record)
    requires key in Columns(e.key.kind)
    ensures var saved := e.status.saved.value.fields;
      MergedColumn(name, e.key.kind, choices, record, e.record.fields, saved,
                   saved + WiredFields(name, e.key.kind, record), key)
  {
    WiredHolds(name, e.key.kind, record, key);
    ColumnsCarried(e.key.kind, key);
    hide ConflictMerge.CanMerge, MaxDimension, Wire, Acceptable, WiredFields, Apart, IsMerge, Columns, ConflictMerge.Carried;
    if Computed(e.key.kind, record, key) {
      ComputedIsHighest(c, choices, record, key);
    } else {
      RecordAt(f, c, choices, record, key);
    }
  }

  lemma MergesCode(name: Names, f: Formats, c: Saved, e: Entry, choices: map<Field, Side>, record: Rec)
    requires Apart(name) && Stands(name, c, e) && Acceptable(f, c, choices) && IsMerge(c, choices, record)
    ensures var code, saved := Wired(name, e.key.kind, record).code, e.status.saved.value.code;
      (if code.Given? then code.code else saved)
      == if Scored(e.key.kind) && Chose(choices, Code) && e.record.code.Given? then e.record.code.code else saved
  {
    hide Acceptable, WiredFields, Holds, Apart, IsMerge, ConflictMerge.Carried;
    if Scored(e.key.kind) {
      CodeCarried(e.key.kind);
      RecordAt(f, c, choices, record, Code);
    }
  }

  lemma OtherColumns(name: Names, kind: Kind, record: Rec, saved: Fields, column: string)
    requires Apart(name) && NoColumn(name, kind, column)
    ensures SameText(saved + WiredFields(name, kind, record), saved, column)
  {
    hide WiredFields, Columns;
    if column in WiredFields(name, kind, record) {
      WiredOnly(name, kind, record, column);
    }
  }

  function Under(saved: Copy, r: Record): Copy {
    saved.(code := if r.code.Given? then r.code.code else saved.code, fields := saved.fields + r.fields)
  }

  /** The saved server copy under the wired record is the merge, field by field. */
  lemma MergedContentOf(name: Names, f: Formats, c: Saved, e: Entry, choices: map<Field, Side>, record: Rec)
    requires Apart(name) && Stands(name, c, e) && Acceptable(f, c, choices) && IsMerge(c, choices, record)
    requires !e.status.saved.value.deleted
    ensures MergedContent(name, e.key.kind, choices, record, e.record, e.status.saved.value,
                          Under(e.status.saved.value, Wired(name, e.key.kind, record)))
  {
    var kind, saved := e.key.kind, e.status.saved.value;
    MergesCode(name, f, c, e, choices, record);
    hide Acceptable, IsMerge, MergedColumn, NoColumn, WiredFields, Columns, SameText, Apart, Holds, Chose;
    forall key | key in Columns(kind)
      ensures MergedColumn(name, kind, choices, record, e.record.fields, saved.fields,
                           saved.fields + WiredFields(name, kind, record), key)
    {
      MergesColumn(name, f, c, e, choices, record, key);
    }
    forall column | NoColumn(name, kind, column)
      ensures SameText(saved.fields + WiredFields(name, kind, record), saved.fields, column)
    {
      OtherColumns(name, kind, record, saved.fields, column);
    }
  }

  function MergeOf(name: Names, db: Db, id: ChangeId, record: Rec): Record
    requires Apart(name) && id in db.outbox
  {
    Wired(name, db.outbox[id].key.kind, record)
  }

  /** The conflict is replaced by one unsent upsert of the wired record on the saved version. */
  ghost predicate Requeued(db: Db, after: Db, id: ChangeId, r: Record, newId: ChangeId)
    requires OpenConflict(db, id) && db.outbox[id].status.saved.Some?
  {
    var k, saved := db.outbox[id].key, db.outbox[id].status.saved.value;
    && newId in after.outbox && after.outbox[newId] == Entry(k, Upsert, Some(saved.version), r, Pending, false)
    && (forall i :: i in after.outbox && i != newId <==> i in db.outbox && i != id)
    && (forall i :: i in after.outbox && i != newId ==> after.outbox[i] == db.outbox[i])
    && after.watermark == 0
  }

  lemma MergeRequeues(db: Db, id: ChangeId, r: Record, newId: ChangeId)
    requires OnePerKey(db.outbox) && OpenConflict(db, id) && newId !in db.outbox && Merge(db, id, r, newId).Some?
    ensures LocalDb.CanMerge(db, id) && Requeued(db, Merge(db, id, r, newId).value, id, r, newId)
    ensures var k, saved, after := db.outbox[id].key, db.outbox[id].status.saved.value, Merge(db, id, r, newId).value;
      k in after.local && after.local[k] == Local(Under(saved, r), true)
  {
    SyncMerging.MergeShape(db, id, r, newId);
    SyncPulling.UseServerShape(db, id);
    var k := db.outbox[id].key;
    assert WithoutKey(WithoutKey(db.outbox, k), k) == WithoutKey(db.outbox, k);
    hide UseServer, Merge, PutCopy;
  }

  /** After a merge the client's row is the merge and its change is queued on the saved version. */
  lemma MergeLeaves(
    name: Names, f: Formats, c: Saved, db: Db, id: ChangeId, choices: map<Field, Side>, record: Rec, newId: ChangeId)
    requires Apart(name) && OnePerKey(db.outbox) && OpenConflict(db, id) && Stands(name, c, db.outbox[id])
    requires Acceptable(f, c, choices) && IsMerge(c, choices, record) && newId !in db.outbox
    requires Merge(db, id, MergeOf(name, db, id, record), newId).Some?
    ensures var e, r := db.outbox[id], MergeOf(name, db, id, record);
      var after := Merge(db, id, r, newId).value;
      && Requeued(db, after, id, r, newId)
      && e.key in after.local && after.local[e.key].dirty
      && after.local[e.key].copy.version == e.status.saved.value.version
      && MergedContent(name, e.key.kind, choices, record, e.record, e.status.saved.value, after.local[e.key].copy)
  {
    MergeRequeues(db, id, MergeOf(name, db, id, record), newId);
    assert !db.outbox[id].status.saved.value.deleted;
    hide Merge, Stands, Acceptable, IsMerge, MergedContent, Requeued, Wired, OnePerKey;
    MergedContentOf(name, f, c, db.outbox[id], choices, record);
  }

  /** Such a merge is a step of the protocol iff it may be resolved now and its code is free. */
  lemma MergeIsStep(w: World, c: ClientId, n: Node, name: Names, id: ChangeId, record: Rec, newId: ChangeId)
    requires Apart(name) && OpenConflict(n.db, id)
    ensures var r := MergeOf(name, n.db, id, record);
      ClientStep(w, n, DoMerge(c, id, r, newId)).Some? <==>
        (newId !in w.minted && CanResolve(n, id) && LocalDb.CanMerge(n.db, id)
         && (r.code.Given? ==>
             CodeFree(PutCopy(n.db.local, n.db.outbox[id].key, n.db.outbox[id].status.saved.value), n.db.outbox[id].key, r.code.code)))
  {
    hide WiredFields, CodeFree, PutCopy, Replace;
    var r := MergeOf(name, n.db, id, record);
    if LocalDb.CanMerge(n.db, id) {
      TakenKeepsRow(n.db, id);
    }
  }

  lemma TakenKeepsRow(db: Db, id: ChangeId)
    requires OpenConflict(db, id) && LocalDb.CanMerge(db, id)
    ensures db.outbox[id].key in TakeServerCopy(db, id, db.outbox[id].status.saved.value).local
  {
  }

  // ----- The server's row -----

  lemma MergeUpdates(kind: Kind, saved: Copy, r: Record)
    requires r.deletes.None? && (!Scored(kind) ==> r.code.Absent?) && !saved.deleted
    ensures Updated(kind, saved, r) == Under(saved, r).(version := saved.version + 1)
  {
  }

  lemma MergeAllowed(s: Server, user: ClientId, role: Role, ch: Change)
    requires ch.op.Upsert? && ch.record.deletes.None? && Rank(role) >= 2
    ensures Decide(s, user, role, ch, Fine) == DecideUpsert(s, user, ch, Fine)
  {
    hide DecideUpsert;
  }

  /** The queued merge reaches the server: it writes the client's very row, one version on, or finds
    * the row moved on or its code taken, and then writes nothing. */
  lemma MergeArrives(s: Server, user: ClientId, role: Role, k: Key, saved: Copy, r: Record, id: ChangeId)
    requires ServerHistory.Good(s) && InArchive(s, k, saved) && saved.version >= 1 && !saved.deleted
    requires r.deletes.None? && (!Scored(k.kind) ==> r.code.Absent?) && Rank(role) >= 2
    ensures var d := DecideAndStore(s, user, role, Change(id, k, Upsert, Some(saved.version), r), Fine);
      && k in s.rows && k in d.server.rows
      && (if s.rows[k].copy.version != saved.version
          then d.result.outcome.Conflict? && d.server.rows == s.rows && d.result.record == Some(s.rows[k].copy)
          else if CodeTaken(s.rows, k, Under(saved, r).code)
          then d.result.outcome == Error(Validation, false) && d.server.rows == s.rows
          else d.result.outcome.Accepted? && d.server.rows[k].copy == Under(saved, r).(version := saved.version + 1)
               && forall j :: j in s.rows && j != k ==> j in d.server.rows && d.server.rows[j] == s.rows[j])
  {
    hide ServerHistory.Good, InArchive, CodeTaken, Decide, Updated, Under;
    ArchivedIsCurrent(s, k, saved);
    MergeUpdates(k.kind, saved, r);
    MergeAllowed(s, user, role, Change(id, k, Upsert, Some(saved.version), r));
    assert Under(saved, r).(version := saved.version + 1).code == Under(saved, r).code;
  }

  lemma ArchivedIsCurrent(s: Server, k: Key, saved: Copy)
    requires ServerHistory.Good(s) && InArchive(s, k, saved)
    ensures k in s.rows && (s.rows[k].copy.version == saved.version ==> s.rows[k].copy == saved)
  {
    hide ServerHistory.VersionSum, ServerHistory.AuditOk, ServerHistory.RowsStamped, ServerHistory.CodesUnique,
         ServerHistory.ArchiveFull;
  }

  /** From the user's choices to the server's row: in a reachable state, a merge sent while the saved
    * copy is current stores each chosen field of mine and the server's every other. */
  lemma MergeReachesServer(
    s: Sys, d: ClientId, role: Role, name: Names, f: Formats, c: Saved, id: ChangeId,
    choices: map<Field, Side>, record: Rec, newId: ChangeId)
    requires SyncTheorems.Reachable(s) && d in s.nodes && OpenConflict(s.nodes[d].db, id)
    requires Apart(name) && Stands(name, c, s.nodes[d].db.outbox[id]) && newId !in s.nodes[d].db.outbox
    requires Acceptable(f, c, choices) && IsMerge(c, choices, record) && Rank(role) >= 2
    requires Merge(s.nodes[d].db, id, MergeOf(name, s.nodes[d].db, id, record), newId).Some?
    ensures var db, e := s.nodes[d].db, s.nodes[d].db.outbox[id];
      var after := Merge(db, id, MergeOf(name, db, id, record), newId).value;
      var t := DecideAndStore(s.world.server, d, role, ChangeOf(newId, after.outbox[newId]), Fine);
      && e.key in s.world.server.rows && e.key in t.server.rows && e.key in after.local
      && (t.result.outcome.Accepted? <==>
          s.world.server.rows[e.key].copy.version == e.status.saved.value.version
          && !CodeTaken(s.world.server.rows, e.key, after.local[e.key].copy.code))
      && (t.result.outcome.Accepted? ==>
          t.server.rows[e.key].copy == after.local[e.key].copy.(version := after.local[e.key].copy.version + 1)
          && MergedContent(name, e.key.kind, choices, record, e.record, e.status.saved.value, t.server.rows[e.key].copy))
      && (!t.result.outcome.Accepted? ==> t.server.rows == s.world.server.rows)
  {
    hide SyncTheorems.Reachable, Inv, Stands, Acceptable, IsMerge, Merge, DecideAndStore, CodeTaken, Wired, Apart,
         MergedContent, Under, Requeued, OnePerKey, ServerHistory.Good, InArchive, Rank;
    SyncTheorems.ReachableInv(s);
    var db, e, r := s.nodes[d].db, s.nodes[d].db.outbox[id], MergeOf(name, s.nodes[d].db, id, record);
    SavedFacts(s, d, id, r, newId);
    var saved := e.status.saved.value;
    QueuedMerge(db, id, r, newId);
    MergeLeaves(name, f, c, db, id, choices, record, newId);
    WiredShape(name, e.key.kind, record);
    MergeArrives(s.world.server, d, role, e.key, saved, r, newId);
    SameContent(name, e.key.kind, choices, record, e.record, saved, Under(saved, r));
    assert Under(saved, r).version == saved.version by { UnderKeepsVersion(saved, r); }
  }

  lemma UnderKeepsVersion(saved: Copy, r: Record)
    ensures Under(saved, r).version == saved.version
  {
  }

  lemma WiredShape(name: Names, kind: Kind, record: Rec)
    requires Apart(name)
    ensures var r := Wired(name, kind, record); r.deletes.None? && (!Scored(kind) ==> r.code.Absent?)
  {
    hide WiredFields;
  }

  lemma QueuedMerge(db: Db, id: ChangeId, r: Record, newId: ChangeId)
    requires OnePerKey(db.outbox) && OpenConflict(db, id) && newId !in db.outbox && Merge(db, id, r, newId).Some?
    ensures var k, saved, after := db.outbox[id].key, db.outbox[id].status.saved, Merge(db, id, r, newId).value;
      && saved.Some? && newId in after.outbox
      && ChangeOf(newId, after.outbox[newId]) == Change(newId, k, Upsert, Some(saved.value.version), r)
      && k in after.local && after.local[k].copy == Under(saved.value, r)
  {
    MergeRequeues(db, id, r, newId);
    hide Merge, Under;
  }

  lemma SameContent(
    name: Names, kind: Kind, choices: map<Field, Side>, record: Rec, mine: Record, saved: Copy, copy: Copy)
    requires MergedContent(name, kind, choices, record, mine, saved, copy)
    ensures MergedContent(name, kind, choices, record, mine, saved, copy.(version := saved.version + 1))
  {
  }

  lemma SavedFacts(s: Sys, d: ClientId, id: ChangeId, r: Record, newId: ChangeId)
    requires Inv(s) && d in s.nodes && OpenConflict(s.nodes[d].db, id) && Merge(s.nodes[d].db, id, r, newId).Some?
    ensures OnePerKey(s.nodes[d].db.outbox) && ServerHistory.Good(s.world.server)
    ensures var e := s.nodes[d].db.outbox[id];
      e.status.saved.Some? && InArchive(s.world.server, e.key, e.status.saved.value)
      && e.status.saved.value.version >= 1 && !e.status.saved.value.deleted
  {
    hide ServerHistory.Good, OwnersOk, ReceiptsOk, PayloadsOk, LocalOk, BoundaryOk, CoverageOk, PhaseOk,
         LocalCodesUnique, EntryRowOk, OnePerKey, BaseOk, InArchive, Replace;
    var n := s.nodes[d];
    assert NodeOk(s.world, d, n);
    assert SavedOk(s.world, n.seen, n.db.outbox[id]);
  }

  // ----- The whole resolution -----

  /** Read the choices, build the merge, take the server's row and queue the merge, or change nothing. */
  method Resolve(
    service: SyncService.Service, name: Names, f: Formats, c: Saved, choices: map<Field, Side>,
    id: ChangeId, expected: Option<int>, newId: ChangeId) returns (ok: bool)
    requires service.store.Valid() && Apart(name) && newId !in service.store.outbox
    requires OpenConflict(service.store.Contents(), id) ==> Stands(name, c, service.store.outbox[id])
    modifies service.store
    ensures service.store.Valid()
    ensures ok <==>
      (Acceptable(f, c, choices)
       && old(service.Resolvable(id, expected) && LocalDb.CanMerge(service.store.Contents(), id)))
    ensures !ok ==> service.store.Contents() == old(service.store.Contents())
    ensures ok ==>
      var e, db := old(service.store.outbox[id]), service.store.Contents();
      e.key in db.local && db.local[e.key].dirty && e.status.saved.Some?
      && exists record: Rec ::
        && IsMerge(c, choices, record)
        && MergedContent(name, e.key.kind, choices, record, e.record, e.status.saved.value, db.local[e.key].copy)
        && Requeued(old(service.store.Contents()), db, id, Wired(name, e.key.kind, record), newId)
  {
    ok := service.RequireConflict(id, expected);
    if !ok {
      return;
    }
    var merged := MergedRecord(f, c, choices);
    if merged.Rejected? {
      return false;
    }
    ghost var db := service.store.Contents();
    var r := Wired(name, service.store.outbox[id].key.kind, merged.record);
    ok := service.ResolveMerge(id, expected, r, newId);
    if ok {
      MergeLeaves(name, f, c, db, id, choices, merged.record, newId);
    }
  }
}
