/** One client's database: local rows, outbox and watermark, and what each operation does to them. */
module LocalDb {
  import opened Protocol

  datatype Local = Local(copy: Copy, dirty: bool)

  /** `saved` is the server copy kept with a blocked conflict. */
  datatype Status = Pending | Retry | Blocked(kind: FailureKind, saved: Option<Copy>)

  /** `attempted` is the send boundary: a request carrying this change may have left. */
  datatype Entry = Entry(
    key: Key,
    op: Op,
    base: Option<int>,
    record: Record,
    status: Status,
    attempted: bool)

  type Locals = map<Key, Local>
  type Outbox = map<ChangeId, Entry>

  datatype Db = Db(local: Locals, outbox: Outbox, watermark: nat)

  const EmptyDb := Db(map[], map[], 0)

  // ----- The open entry of a row -----

  predicate HasOpen(outbox: Outbox, k: Key) {
    exists id :: id in outbox && outbox[id].key == k
  }

  /** At most one open entry per row, so "the oldest" is the only one. */
  ghost predicate OnePerKey(outbox: Outbox) {
    forall i, j :: i in outbox && j in outbox && outbox[i].key == outbox[j].key ==> i == j
  }

  ghost function OpenId(outbox: Outbox, k: Key): (id: ChangeId)
    requires HasOpen(outbox, k)
    ensures id in outbox && outbox[id].key == k
  {
    var id :| id in outbox && outbox[id].key == k;
    id
  }

  predicate IsConflict(e: Entry) {
    e.status.Blocked? && e.status.kind.Conflicting?
  }

  predicate Sendable(e: Entry) {
    !e.status.Blocked?
  }

  /** A sent create whose response was lost may already be version one remotely. */
  predicate CreateMayExist(e: Entry) {
    e.op.Upsert? && (e.base.Some? || e.attempted)
  }

  function WithoutKey(outbox: Outbox, k: Key): Outbox {
    map id | id in outbox && outbox[id].key != k :: outbox[id]
  }

  // ----- Queueing -----

  ghost function SquashedBase(outbox: Outbox, k: Key, base: Option<int>): Option<int>
  {
    if !HasOpen(outbox, k) then base
    else
      var e := outbox[OpenId(outbox, k)];
      if e.base.None? && CreateMayExist(e) then Some(1) else e.base
  }

  ghost function Replace(
    outbox: Outbox, k: Key, op: Op, base: Option<int>, record: Record, force: bool, id: ChangeId): Outbox
  {
    if !force && HasOpen(outbox, k) && IsConflict(outbox[OpenId(outbox, k)])
    then
      var open := OpenId(outbox, k);
      outbox[open := outbox[open].(op := op, record := record)]
    else
      var base' := if force then base else SquashedBase(outbox, k, base);
      WithoutKey(outbox, k)[id := Entry(k, op, base', record, Pending, false)]
  }

  function VersionBase(version: nat): Option<int> {
    NoVersionBelowOne(version)
  }

  /** The editor's own base version, applied to an entry that can still be sent. */
  function OverrideBase(outbox: Outbox, k: Key, base: Option<int>): Outbox {
    if base.None? then outbox
    else
      map id | id in outbox ::
        if outbox[id].key == k && Sendable(outbox[id])
        then outbox[id].(base := NoVersionBelowOne(base.value))
        else outbox[id]
  }

  // ----- Local edits -----

  predicate Live(db: Db, k: Key) {
    k in db.local && !db.local[k].copy.deleted
  }

  function EditedCopy(local: Locals, k: Key, r: Record): Copy {
    var version := if k in local then local[k].copy.version else 0;
    var code := if r.code.Given? then r.code.code else if k in local then local[k].copy.code else None;
    Copy(version, false, code, r.fields)
  }

  /** Write the row and queue its upsert in one transaction: a create or an edit. */
  ghost function SaveRow(db: Db, k: Key, r: Record, editorBase: Option<int>, id: ChangeId): Db
  {
    var copy := EditedCopy(db.local, k, r);
    var queued := Replace(db.outbox, k, Upsert, VersionBase(copy.version), r, false, id);
    db.(local := db.local[k := Local(copy, true)], outbox := OverrideBase(queued, k, editorBase))
  }

  const DeleteRecord := Record(Absent, None, map[])

  ghost predicate RemoteCreateMayExist(outbox: Outbox, k: Key)
  {
    HasOpen(outbox, k) && CreateMayExist(outbox[OpenId(outbox, k)])
  }

  /** Discard a create that never left; otherwise queue a delete. */
  ghost predicate Discards(db: Db, k: Key)
    requires k in db.local
  {
    db.local[k].copy.version < 1 && !RemoteCreateMayExist(db.outbox, k)
  }

  function MarkDeleted(l: Local): Local {
    Local(l.copy.(deleted := true), true)
  }

  ghost function DeleteRow(db: Db, k: Key, id: ChangeId): Db
    requires k in db.local
  {
    var version := db.local[k].copy.version;
    var gone := db.local[k := MarkDeleted(db.local[k])];
    if Discards(db, k) then
      db.(local := if k.kind.Ticket? then db.local - {k} else gone, outbox := WithoutKey(db.outbox, k))
    else if version >= 1 then
      db.(local := gone, outbox := Replace(db.outbox, k, Delete, Some(version), DeleteRecord, false, id))
    else
      db.(local := gone, outbox := Replace(db.outbox, k, Delete, Some(1), DeleteRecord, true, id))
  }

  // ----- Server copies -----

  function ReleaseCode(l: Local): Local {
    l.(copy := l.copy.(code := None))
  }

  /** Store a server copy; another row of the table holding its code gives the code up. */
  function PutCopy(local: Locals, k: Key, copy: Copy): Locals {
    (map j | j in local ::
      if j != k && j.kind == k.kind && copy.code.Some? && local[j].copy.code == copy.code
      then ReleaseCode(local[j]) else local[j])[k := Local(copy, false)]
  }

  function Remember(outbox: Outbox, k: Key, copy: Copy): Outbox {
    map id | id in outbox ::
      if outbox[id].key == k && IsConflict(outbox[id])
      then outbox[id].(status := Blocked(Conflicting, Some(copy)))
      else outbox[id]
  }

  /** A pulled copy is stored, unless a local change is open; then only a conflict notes it. */
  function ApplyPulled(db: Db, k: Key, copy: Copy): Db {
    if HasOpen(db.outbox, k) then db.(outbox := Remember(db.outbox, k, copy))
    else db.(local := PutCopy(db.local, k, copy))
  }

  function ApplyAllPulled(db: Db, items: seq<KeyCopy>): Db {
    if items == [] then db
    else
      var n := |items| - 1;
      ApplyPulled(ApplyAllPulled(db, items[..n]), items[n].key, items[n].copy)
  }

  // ----- Status changes -----

  function MarkAttempted(outbox: Outbox, ids: set<ChangeId>): Outbox {
    map id | id in outbox :: if id in ids then outbox[id].(attempted := true) else outbox[id]
  }

  function Defer(outbox: Outbox, id: ChangeId): Outbox {
    if id in outbox then outbox[id := outbox[id].(status := Retry, attempted := true)] else outbox
  }

  function Block(outbox: Outbox, id: ChangeId, kind: FailureKind, saved: Option<Copy>): Outbox {
    if id in outbox then outbox[id := outbox[id].(status := Blocked(kind, saved), attempted := true)] else outbox
  }

  function ReleaseAuthenticationBlocks(outbox: Outbox): Outbox {
    map id | id in outbox ::
      if outbox[id].status.Blocked? && outbox[id].status.kind.Authentication?
      then outbox[id].(status := Pending) else outbox[id]
  }

  // ----- Acknowledgements -----

  predicate HasServerState(r: Result) {
    r.record.Some? || r.version.Some?
  }

  /** Rows whose code an acknowledgement batch clears before any row is applied. */
  predicate CodeReleased(results: seq<Result>, j: Key, code: Option<string>) {
    Scored(j.kind) &&
    exists r :: r in results && r.outcome.Accepted? && r.record.Some? && r.key.kind == j.kind
      && (r.key == j || (code.Some? && r.record.value.code == code))
  }

  function ReleaseCodes(local: Locals, results: seq<Result>): Locals {
    map j | j in local ::
      if CodeReleased(results, j, local[j].copy.code) then ReleaseCode(local[j]) else local[j]
  }

  /** The acknowledged change is still queued: drop it and take the server's row. */
  function AcknowledgeSent(db: Db, r: Result): Option<Db>
    requires r.id in db.outbox
  {
    var k, outbox := db.outbox[r.id].key, db.outbox - {r.id};
    if r.key != k then None
    else if r.record.Some? then
      if r.version.Some? && r.version.value != r.record.value.version then None
      else Some(ApplyPulled(db.(outbox := outbox), k, r.record.value))
    else if r.version.Some? && k in db.local then
      var row := db.local[k];
      Some(db.(outbox := outbox, local := db.local[k := Local(row.copy.(version := r.version.value), false)]))
    else Some(db.(outbox := outbox))
  }

  function Max(a: int, b: int): int {
    if a >= b then a else b
  }

  function AdvancedBase(base: Option<int>, version: Option<nat>): Option<int> {
    NoVersionBelowOne(Max(if base.Some? then base.value else 0, if version.Some? then version.value else 0))
  }

  /** Server-owned metadata moves forward; the newer local field values stay. */
  function AdvancedLocal(l: Local, kind: Kind, version: Option<nat>, code: CodeField): Local {
    var c := if version.Some? then l.copy.(version := Max(l.copy.version, version.value)) else l.copy;
    l.(copy := if Scored(kind) && code.Given? then c.(code := code.code) else c)
  }

  function SentCode(r: Result): CodeField {
    if r.record.Some? then Given(r.record.value.code) else Absent
  }

  predicate HasReplacement(outbox: Outbox, k: Key) {
    exists id :: id in outbox && outbox[id].key == k && Sendable(outbox[id])
  }

  /** The acknowledged change was replaced by a newer edit: rebase that edit. */
  ghost function AdvanceReplacement(db: Db, r: Result): Option<Db>
  {
    if !HasReplacement(db.outbox, r.key) then Some(db)
    else
      var id := OpenId(db.outbox, r.key);
      var e := db.outbox[id];
      var version := AcknowledgedVersion(r);
      var code := if Scored(r.key.kind) then SentCode(r) else Absent;
      var record := if code.Given? then e.record.(code := code) else e.record;
      var outbox := db.outbox[id := e.(base := AdvancedBase(e.base, version), record := record)];
      // A replay's current row may hold later edits; only its identity is kept.
      var identityOnly := r.replayed && version != r.version && r.record.Some?;
      var recordVersion := if r.record.Some? && !identityOnly then Some(r.record.value.version) else None;
      if version.Some? && recordVersion.Some? && version != recordVersion then None
      else
        var known := if version.Some? then version else recordVersion;
        var local := if r.key in db.local
                     then db.local[r.key := AdvancedLocal(db.local[r.key], r.key.kind, known, code)]
                     else db.local;
        Some(db.(outbox := outbox, local := local))
  }

  ghost function AcknowledgeOne(db: Db, r: Result): Option<Db>
  {
    if !r.outcome.Accepted? then Some(db)
    else if r.id in db.outbox then AcknowledgeSent(db, r)
    else AdvanceReplacement(db, r)
  }

  /** One transaction: clear the affected codes, then acknowledge each result in turn. */
  ghost function AcknowledgeFirst(db: Db, results: seq<Result>, n: nat): Option<Db>
    requires n <= |results|
  {
    if n == 0 then Some(db.(local := ReleaseCodes(db.local, results)))
    else
      var before := AcknowledgeFirst(db, results, n - 1);
      if before.None? then None else AcknowledgeOne(before.value, results[n - 1])
  }

  ghost function AcknowledgeAll(db: Db, results: seq<Result>): Option<Db>
  {
    AcknowledgeFirst(db, results, |results|)
  }

  // ----- A whole reply -----

  predicate Acknowledges(r: Result) {
    r.outcome.Accepted? && HasServerState(r)
  }

  function WithState(reply: seq<Result>): (some: seq<Result>)
    ensures forall r :: r in some <==> r in reply && Acknowledges(r)
  {
    if reply == [] then []
    else
      var n := |reply| - 1;
      WithState(reply[..n]) + if Acknowledges(reply[n]) then [reply[n]] else []
  }

  /** What any other result does to its entry, if that is still queued. */
  function SettledOutbox(outbox: Outbox, r: Result): Outbox {
    match r.outcome
    case Accepted => outbox - {r.id}
    case Conflict => Block(outbox, r.id, Conflicting, r.record)
    case Error(kind, retryable) =>
      if retryable || kind.Transient? then Defer(outbox, r.id) else Block(outbox, r.id, kind, None)
  }

  // ----- Conflict resolution -----

  predicate OpenConflict(db: Db, id: ChangeId) {
    id in db.outbox && IsConflict(db.outbox[id])
  }

  /** Requeue mine on the newest version either side has seen. */
  ghost function KeepMine(db: Db, id: ChangeId, newId: ChangeId): Option<Db>
    requires OpenConflict(db, id)
  {
    var e := db.outbox[id];
    if e.status.saved.None? || e.status.saved.value.version < 1 || e.key !in db.local then None
    else
      var target := Max(e.status.saved.value.version, db.local[e.key].copy.version);
      Some(db.(outbox := Replace(db.outbox, e.key, e.op, Some(target), e.record, true, newId)))
  }

  function TakeServerCopy(db: Db, id: ChangeId, copy: Copy): Db
    requires id in db.outbox
  {
    ApplyPulled(db.(outbox := db.outbox - {id}), db.outbox[id].key, copy)
  }

  function UseServer(db: Db, id: ChangeId): Option<Db>
    requires OpenConflict(db, id)
  {
    var saved := db.outbox[id].status.saved;
    if saved.None? then None
    else Some(TakeServerCopy(db, id, saved.value).(watermark := 0))
  }

  predicate CanMerge(db: Db, id: ChangeId)
    requires OpenConflict(db, id)
  {
    var e := db.outbox[id];
    && e.op.Upsert? && e.status.saved.Some?
    && !e.status.saved.value.deleted && e.status.saved.value.version >= 1
    && e.key in db.local && db.local[e.key].copy.version <= e.status.saved.value.version
  }

  /** Take the server copy, put the merged fields over it and queue them on its version. */
  ghost function Merge(db: Db, id: ChangeId, r: Record, newId: ChangeId): Option<Db>
    requires OpenConflict(db, id)
  {
    if !CanMerge(db, id) then None
    else
      var e := db.outbox[id];
      var k, saved := e.key, e.status.saved.value;
      var taken := TakeServerCopy(db, id, saved);
      if k !in taken.local then None
      else
        var row := taken.local[k];
        var code := if r.code.Given? then r.code.code else row.copy.code;
        var merged := Local(row.copy.(code := code, fields := row.copy.fields + r.fields), true);
        Some(Db(taken.local[k := merged],
                Replace(taken.outbox, k, Upsert, Some(saved.version), r, true, newId),
                0))
  }
}
