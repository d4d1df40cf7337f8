/** What the server decides for each pushed change, as functions on the project's tables. */
module PushRules {
  import opened Protocol
  import ItemCodes

  datatype Row = Row(copy: Copy, sequence: nat)

  /** History only: every version a row ever had and who wrote it. No rule reads it. */
  datatype Archived = Archived(copy: Copy, writer: Writer)

  /** `payload` stands for its digest; receipts older than digests have none. */
  datatype Receipt = Receipt(user: ClientId, payload: Option<Change>, result: Result)

  /** `audit` lists the change ids of applied changes, oldest first. */
  datatype Server = Server(
    rows: map<Key, Row>,
    last: nat,
    receipts: map<ChangeId, Receipt>,
    audit: seq<ChangeId>,
    archive: map<VersionOf, Archived>)

  datatype Role = Viewer | Member | Manager | Admin

  /** Whether processing succeeds, is refused (400 or a constraint), or crashes. */
  datatype Verdict = Fine | Refused | Crashed

  const FreshProject := Server(map[], 0, map[], [], map[])

  function Rank(role: Role): nat {
    match role
    case Viewer => 1
    case Member => 2
    case Manager => 3
    case Admin => 4
  }

  // ----- Row writes -----

  /** One stamped write: the counter, the row's sequence and the history move together. */
  function WriteRow(s: Server, k: Key, copy: Copy, writer: Writer): Server {
    s.(rows := s.rows[k := Row(copy, s.last + 1)],
       last := s.last + 1,
       archive := s.archive[VersionOf(k, copy.version) := Archived(copy, writer)])
  }

  function HeldCodes(rows: map<Key, Row>): set<string> {
    set k | k in rows && Scored(k.kind) && rows[k].copy.code.Some? :: rows[k].copy.code.value
  }

  predicate CodeTaken(rows: map<Key, Row>, k: Key, code: Option<string>) {
    code.Some? && Scored(k.kind) &&
    exists j :: j in rows && j != k && Scored(j.kind) && rows[j].copy.code == code
  }

  function NewCode(rows: map<Key, Row>, k: Key, code: CodeField): Option<string> {
    if Scored(k.kind) && code.Given? then ItemCodes.Canonical(k.kind, HeldCodes(rows), code.code)
    else None
  }

  function Created(rows: map<Key, Row>, k: Key, r: Record): Copy {
    Copy(1, r.deletes == Some(true), NewCode(rows, k, r.code), r.fields)
  }

  function WithDeletedStatus(kind: Kind, fields: Fields): Fields {
    if Scored(kind) then fields["status" := "deleted"] else fields
  }

  function SoftDeleted(kind: Kind, copy: Copy): Copy {
    copy.(version := copy.version + 1, deleted := true, fields := WithDeletedStatus(kind, copy.fields))
  }

  /** The client-settable fields overlaid on the stored ones, before the version moves. */
  function Overlaid(kind: Kind, copy: Copy, r: Record): Copy {
    copy.(code := if Scored(kind) && r.code.Given? then r.code.code else copy.code,
          fields := copy.fields + r.fields)
  }

  function Updated(kind: Kind, copy: Copy, r: Record): Copy {
    var c := Overlaid(kind, copy, r);
    match r.deletes
    case None => c.(version := c.version + 1)
    case Some(d) => if d then SoftDeleted(kind, c) else c.(version := c.version + 1, deleted := false)
  }

  // ----- Results -----

  function ErrorResult(ch: Change, kind: FailureKind, retryable: bool): Result {
    Result(ch.id, ch.key, Error(kind, retryable), false, None, None, None)
  }

  function ConflictResult(ch: Change, copy: Copy): Result {
    Result(ch.id, ch.key, Conflict, false, Some(copy.version), None, Some(copy))
  }

  function AcceptedResult(ch: Change, rows: map<Key, Row>): Result {
    if ch.key in rows
    then Result(ch.id, ch.key, Accepted, false, Some(rows[ch.key].copy.version), None, Some(rows[ch.key].copy))
    else Result(ch.id, ch.key, Accepted, false, None, None, None)
  }

  // ----- One change seen for the first time -----

  /** Deletes, and upserts that delete or undelete, of risks, opportunities and actions. */
  predicate RequiresManager(rows: map<Key, Row>, ch: Change) {
    (Scored(ch.key.kind) || ch.key.kind.Action?) &&
    (ch.op.Delete? || ch.record.deletes == Some(true)
     || (ch.record.deletes == Some(false) && ch.key in rows && rows[ch.key].copy.deleted))
  }

  predicate Allowed(role: Role, rows: map<Key, Row>, ch: Change) {
    Rank(role) >= if RequiresManager(rows, ch) then 3 else 2
  }

  predicate BaseMatches(copy: Copy, base: Option<int>) {
    base.Some? && base.value >= 1 && base.value == copy.version
  }

  datatype Decision = Decision(server: Server, result: Result, stored: bool)

  function Apply(s: Server, ch: Change, copy: Copy, user: ClientId): Decision {
    var written := WriteRow(s, ch.key, copy, Device(user));
    Decision(written.(audit := s.audit + [ch.id]), AcceptedResult(ch, written.rows), true)
  }

  function DecideUpsert(s: Server, user: ClientId, ch: Change, verdict: Verdict): Decision {
    if ch.key !in s.rows then
      if verdict.Refused? then Decision(s, ErrorResult(ch, Validation, false), true)
      else Apply(s, ch, Created(s.rows, ch.key, ch.record), user)
    else
      var current := s.rows[ch.key].copy;
      var updated := Updated(ch.key.kind, current, ch.record);
      if !BaseMatches(current, ch.base) then Decision(s, ConflictResult(ch, current), true)
      else if verdict.Refused? || CodeTaken(s.rows, ch.key, updated.code)
      then Decision(s, ErrorResult(ch, Validation, false), true)
      else Apply(s, ch, updated, user)
  }

  /** Deleting a row the server never had is accepted and changes nothing. */
  function DecideDelete(s: Server, user: ClientId, ch: Change, verdict: Verdict): Decision {
    if ch.key !in s.rows then Decision(s, AcceptedResult(ch, s.rows), true)
    else
      var current := s.rows[ch.key].copy;
      if !BaseMatches(current, ch.base) then Decision(s, ConflictResult(ch, current), true)
      else if verdict.Refused? then Decision(s, ErrorResult(ch, Validation, false), true)
      else Apply(s, ch, SoftDeleted(ch.key.kind, current), user)
  }

  function Decide(s: Server, user: ClientId, role: Role, ch: Change, verdict: Verdict): Decision {
    if !Allowed(role, s.rows, ch) then Decision(s, ErrorResult(ch, Permission, false), true)
    else if verdict.Crashed? then Decision(s, ErrorResult(ch, Transient, true), false)
    else if ch.op.Upsert? then DecideUpsert(s, user, ch, verdict)
    else DecideDelete(s, user, ch, verdict)
  }

  /** The decision with its receipt stored; a crash leaves neither writes nor a receipt. */
  function DecideAndStore(s: Server, user: ClientId, role: Role, ch: Change, verdict: Verdict): Decision {
    var d := Decide(s, user, role, ch, verdict);
    if d.stored
    then d.(server := d.server.(receipts := s.receipts[ch.id := Receipt(user, Some(ch), d.result)]))
    else d
  }

  // ----- A repeated change id -----

  datatype Mismatch = InUse | Unverifiable | PayloadMismatch

  function DuplicateReason(
    user: ClientId, ch: Change, receipt: Option<Receipt>, inBatch: Option<Change>): Option<Mismatch>
  {
    if receipt.None? then
      if inBatch == Some(ch) then None else Some(PayloadMismatch)
    else if receipt.value.user != user then Some(InUse)
    else if receipt.value.payload.None? then Some(Unverifiable)
    else if receipt.value.payload != Some(ch) then Some(PayloadMismatch)
    else None
  }

  /** An accepted replay reports the current row and keeps its own version beside it. */
  function Refreshed(rows: map<Key, Row>, r: Result): Result {
    if r.outcome.Accepted? && r.key in rows
    then r.(receiptVersion := if r.version.Some? then r.version else r.receiptVersion,
            version := Some(rows[r.key].copy.version),
            record := Some(rows[r.key].copy))
    else r
  }

  // ----- A batch -----

  /** `existing` is read once, before the batch; later ids are tracked per request. */
  datatype PushState = PushState(
    server: Server,
    existing: map<ChangeId, Receipt>,
    handled: map<ChangeId, Handled>,
    results: seq<Result>)

  datatype Handled = Handled(change: Change, result: Result)

  function Begin(s: Server): PushState {
    PushState(s, s.receipts, map[], [])
  }

  predicate Seen(p: PushState, id: ChangeId) {
    id in p.existing || id in p.handled
  }

  function Lookup<K, V>(m: map<K, V>, k: K): Option<V> {
    if k in m then Some(m[k]) else None
  }

  function Replay(p: PushState, user: ClientId, ch: Change): Result
    requires Seen(p, ch.id)
  {
    var inBatch := if ch.id in p.handled then Some(p.handled[ch.id].change) else None;
    if DuplicateReason(user, ch, Lookup(p.existing, ch.id), inBatch).Some?
    then ErrorResult(ch, Validation, false)
    else
      var first := if ch.id in p.existing then p.existing[ch.id].result else p.handled[ch.id].result;
      Refreshed(p.server.rows, first.(replayed := true))
  }

  function PushOne(p: PushState, user: ClientId, role: Role, ch: Change, verdict: Verdict): PushState {
    if Seen(p, ch.id) then p.(results := p.results + [Replay(p, user, ch)])
    else
      var d := DecideAndStore(p.server, user, role, ch, verdict);
      PushState(d.server, p.existing, p.handled[ch.id := Handled(ch, d.result)], p.results + [d.result])
  }

  /** The first `n` changes of one request, in order. */
  function PushFirst(
    s: Server, user: ClientId, role: Role, batch: seq<Change>, verdicts: seq<Verdict>, n: nat): PushState
    requires n <= |batch| == |verdicts|
  {
    if n == 0 then Begin(s)
    else PushOne(PushFirst(s, user, role, batch, verdicts, n - 1), user, role, batch[n - 1], verdicts[n - 1])
  }

  function Push(
    s: Server, user: ClientId, role: Role, batch: seq<Change>, verdicts: seq<Verdict>): PushState
    requires |batch| == |verdicts|
  {
    PushFirst(s, user, role, batch, verdicts, |batch|)
  }

  // ----- The REST interface -----

  /** A REST write: create at version one, update or delete with the next version. */
  datatype RestWrite =
    | RestCreate(key: Key, code: Option<string>, fields: Fields)
    | RestUpdate(key: Key, base: int, record: Record)
    | RestDelete(key: Key)

  /** Tickets are found only while they are live. */
  predicate RestFinds(rows: map<Key, Row>, k: Key) {
    k in rows && (k.kind.Ticket? ==> !rows[k].copy.deleted)
  }

  function RestCopy(rows: map<Key, Row>, w: RestWrite): Option<Copy> {
    match w
    case RestCreate(k, code, fields) =>
      if k in rows || CodeTaken(rows, k, code) then None
      else Some(Copy(1, false, if Scored(k.kind) then code else None, fields))
    case RestUpdate(k, base, r) =>
      if !RestFinds(rows, k) || !BaseMatches(rows[k].copy, Some(base)) then None
      else
        var c := Updated(k.kind, rows[k].copy, r);
        if CodeTaken(rows, k, c.code) then None else Some(c)
    case RestDelete(k) =>
      if !RestFinds(rows, k) then None else Some(SoftDeleted(k.kind, rows[k].copy))
  }

  function RestStep(s: Server, w: RestWrite): Server {
    var c := RestCopy(s.rows, w);
    if c.None? then s else WriteRow(s, w.key, c.value, Rest)
  }

  // ----- A delete that read its row earlier -----

  function FieldsSet(read: Fields, changed: Fields): Fields {
    map f | f in changed && (f !in read || read[f] != changed[f]) :: changed[f]
  }

  /** An UPDATE sets only the columns that changed in memory since the row was read. */
  function ColumnsSet(now: Copy, read: Copy, changed: Copy): Copy {
    Copy(
      if changed.version != read.version then changed.version else now.version,
      if changed.deleted != read.deleted then changed.deleted else now.deleted,
      if changed.code != read.code then changed.code else now.code,
      now.fields + FieldsSet(read.fields, changed.fields))
  }

  /** The REST delete takes no lock before its flush: it writes from the copy it read. */
  function LateDelete(s: Server, k: Key, read: Copy): Server {
    if k !in s.rows then s
    else WriteRow(s, k, ColumnsSet(s.rows[k].copy, read, SoftDeleted(k.kind, read)), Rest)
  }
}
