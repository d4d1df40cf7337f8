/** The server's push as it runs: loaded rows, claims, savepoints and one flush per change. */
module PushEngine {
  import opened Protocol
  import opened PushRules
  import ItemCodes

  /** A row loaded into the session; its fields change in memory until it is flushed. */
  class Loaded {
    const kind: Kind
    var version: nat
    var deleted: bool
    var code: Option<string>
    var fields: Fields

    ghost function Copied(): Copy
      reads this
    {
      Copy(version, deleted, code, fields)
    }

    constructor (kind: Kind, copy: Copy)
      ensures this.kind == kind && Copied() == copy
    {
      this.kind, version, deleted, code, fields := kind, copy.version, copy.deleted, copy.code, copy.fields;
    }

    method ChangeStatus(status: string)
      modifies `fields
      ensures fields == old(fields)["status" := status]
    {
      if "status" !in fields || fields["status"] != status {
        fields := fields["status" := status];
      }
    }

    method SoftDelete()
      modifies this
      ensures Copied() == SoftDeleted(kind, old(Copied()))
    {
      deleted := true;
      version := version + 1;
      if Scored(kind) {
        ChangeStatus("deleted");
      }
    }

    /** Set every client-settable field in turn. */
    method SetFields(given: Fields)
      modifies `fields
      ensures fields == old(fields) + given
    {
      var todo := given.Keys;
      while todo != {}
        invariant todo <= given.Keys
        invariant fields == old(fields) + (map f | f in given && f !in todo :: given[f])
        decreases |todo|
      {
        var f :| f in todo;
        if f == "status" {
          ChangeStatus(given[f]);
        } else {
          fields := fields[f := given[f]];
        }
        todo := todo - {f};
      }
      assert given == map f | f in given && f !in todo :: given[f];
    }

    method Overlay(r: Record)
      modifies this
      ensures Copied() == Overlaid(kind, old(Copied()), r)
    {
      if Scored(kind) && r.code.Given? {
        code := r.code.code;
      }
      SetFields(r.fields);
    }

    /** Overlay the record, soft-delete or undelete, and count one version in all. */
    method Update(r: Record)
      modifies this
      ensures Copied() == Updated(kind, old(Copied()), r)
    {
      Overlay(r);
      var softDeleted := false;
      if r.deletes.Some? {
        if r.deletes.value {
          SoftDelete();
          softDeleted := true;
        } else {
          deleted := false;
        }
      }
      if !softDeleted {
        version := version + 1;
      }
    }
  }

  datatype Failure = ConflictWith(copy: Copy) | HttpRefusal | ConstraintViolation | Unexpected

  class Database {
    var rows: map<Key, Row>
    var last: nat
    var receipts: map<ChangeId, Receipt>
    var audit: seq<ChangeId>
    ghost var archive: map<VersionOf, Archived>

    ghost function Contents(): Server
      reads this
    {
      Server(rows, last, receipts, audit, archive)
    }

    constructor ()
      ensures Contents() == FreshProject
    {
      rows, last, receipts, audit, archive := map[], 0, map[], [], map[];
    }

    method NextSequence() returns (sequence: nat)
      modifies `last
      ensures last == old(last) + 1 && sequence == last
    {
      last := last + 1;
      sequence := last;
    }

    /** Write a loaded row back; the listener stamps it from the project counter. */
    method Flush(k: Key, obj: Loaded, ghost writer: Writer)
      modifies `rows, `last, `archive
      ensures Contents() == WriteRow(old(Contents()), k, obj.Copied(), writer).(rows := rows)
      ensures rows == old(rows)[k := Row(obj.Copied(), last)]
    {
      var sequence := NextSequence();
      rows := rows[k := Row(Copy(obj.version, obj.deleted, obj.code, obj.fields), sequence)];
      archive := archive[VersionOf(k, obj.version) := Archived(obj.Copied(), writer)];
    }

    /** One conditional UPDATE: the stored version moves on, the loaded object does not. */
    method ClaimBaseVersion(k: Key, base: nat) returns (failure: Option<Failure>)
      requires k in rows
      modifies `rows
      ensures failure.None? <==> old(rows)[k].copy.version == base
      ensures failure.Some? ==> failure.value == ConflictWith(old(rows)[k].copy) && rows == old(rows)
      ensures failure.None? ==>
        rows == old(rows)[k := old(rows)[k].(copy := old(rows)[k].copy.(version := base + 1))]
    {
      if rows[k].copy.version != base {
        return Some(ConflictWith(rows[k].copy));
      }
      rows := rows[k := rows[k].(copy := rows[k].copy.(version := base + 1))];
      failure := None;
    }

    /** Check the base, then claim the next version. */
    method ClaimExisting(k: Key, base: Option<int>) returns (failure: Option<Failure>)
      requires k in rows
      modifies `rows
      ensures BaseMatches(old(rows)[k].copy, base) <==> failure.None?
      ensures failure.Some? ==> failure == Some(ConflictWith(old(rows)[k].copy)) && rows == old(rows)
      ensures failure.None? ==> rows.Keys == old(rows).Keys && forall j :: j in rows && j != k ==> rows[j] == old(rows)[j]
    {
      var copy := rows[k].copy;
      if base.None? || base.value < 1 || copy.version != base.value {
        return Some(ConflictWith(copy));
      }
      failure := ClaimBaseVersion(k, base.value);
    }

    /** Canonical code of a created item: keep a free one, or number from one upwards. */
    method CanonicalItemCode(k: Key, requested: Option<string>) returns (code: Option<string>)
      ensures code == ItemCodes.Canonical(k.kind, HeldCodes(rows), requested)
    {
      if requested.None? || requested.value == "" {
        return None;
      }
      if requested.value !in HeldCodes(rows) {
        return requested;
      }
      var number := ItemCodes.NextNumber(ItemCodes.UsedNumbers(k.kind, HeldCodes(rows)));
      code := Some(ItemCodes.NumberedCode(k.kind, number));
    }

    method CreateNew(user: ClientId, ch: Change)
      requires ch.key !in rows
      modifies `rows, `last, `archive
      ensures Contents() == WriteRow(old(Contents()), ch.key, Created(old(rows), ch.key, ch.record), Device(user))
    {
      var code: Option<string> := None;
      if Scored(ch.key.kind) && ch.record.code.Given? {
        code := CanonicalItemCode(ch.key, ch.record.code.code);
      }
      var obj := new Loaded(ch.key.kind, Copy(1, false, code, map[]));
      obj.SetFields(ch.record.fields);
      if ch.record.deletes.Some? {
        obj.deleted := ch.record.deletes.value;
      }
      assert obj.fields == ch.record.fields;
      Flush(ch.key, obj, Device(user));
    }

    /** An upsert or delete of an existing row, up to the flush that may break the code index. */
    method ChangeExisting(user: ClientId, ch: Change, verdict: Verdict) returns (failure: Option<Failure>)
      requires ch.key in rows
      modifies `rows, `last, `archive
      ensures var current := old(rows)[ch.key].copy;
        var next := if ch.op.Upsert? then Updated(ch.key.kind, current, ch.record) else SoftDeleted(ch.key.kind, current);
        && (failure == Some(ConflictWith(current)) <==> !BaseMatches(current, ch.base))
        && (BaseMatches(current, ch.base) && verdict.Refused? ==> failure == Some(HttpRefusal))
        && (BaseMatches(current, ch.base) && !verdict.Refused? && ch.op.Upsert? && CodeTaken(old(rows), ch.key, next.code) ==>
            failure == Some(ConstraintViolation))
        && (BaseMatches(current, ch.base) && !verdict.Refused? && !(ch.op.Upsert? && CodeTaken(old(rows), ch.key, next.code)) ==>
            failure.None? && Contents() == WriteRow(old(Contents()), ch.key, next, Device(user)))
    {
      var obj := new Loaded(ch.key.kind, rows[ch.key].copy);
      failure := ClaimExisting(ch.key, ch.base);
      if failure.Some? {
        return;
      }
      if verdict.Refused? {
        return Some(HttpRefusal);
      }
      if ch.op.Upsert? {
        obj.Update(ch.record);
      } else {
        obj.SoftDelete();
      }
      if ch.op.Upsert? && CodeTaken(rows, ch.key, obj.code) {
        assert CodeTaken(old(rows), ch.key, obj.code);
        return Some(ConstraintViolation);
      }
      assert ch.op.Upsert? ==> !CodeTaken(old(rows), ch.key, obj.code);
      Flush(ch.key, obj, Device(user));
      assert rows == old(rows)[ch.key := Row(obj.Copied(), last)];
    }

    // ----- The REST interface -----

    /** Claim first, then change the row as reloaded; its version has already moved. */
    method RestUpdateRow(k: Key, base: int, r: Record) returns (ok: bool)
      modifies `rows, `last, `archive
      ensures Contents() == RestStep(old(Contents()), RestUpdate(k, base, r))
      ensures ok == RestCopy(old(rows), RestUpdate(k, base, r)).Some?
    {
      var before := rows;
      if !RestFinds(rows, k) || base < 1 {
        return false;
      }
      var failure := ClaimBaseVersion(k, base);
      if failure.Some? {
        return false;
      }
      var obj := new Loaded(k.kind, rows[k].copy);
      obj.Overlay(r);
      if r.deletes.Some? {
        obj.deleted := r.deletes.value;
        if r.deletes.value && Scored(k.kind) {
          obj.ChangeStatus("deleted");
        }
      }
      assert obj.Copied() == Updated(k.kind, before[k].copy, r);
      if CodeTaken(rows, k, obj.code) {
        assert CodeTaken(before, k, obj.code);
        rows := before;
        return false;
      }
      assert !CodeTaken(before, k, obj.code);
      Flush(k, obj, Rest);
      assert rows == before[k := Row(obj.Copied(), last)];
      ok := true;
    }

    /** Write back the columns that changed since the row was read; the listener stamps the row. */
    method FlushChanged(k: Key, read: Copy, obj: Loaded)
      requires k in rows
      modifies `rows, `last, `archive
      ensures Contents() == WriteRow(old(Contents()), k, ColumnsSet(old(rows)[k].copy, read, obj.Copied()), Rest)
    {
      var row := rows[k].copy;
      if obj.version != read.version {
        row := row.(version := obj.version);
      }
      if obj.deleted != read.deleted {
        row := row.(deleted := obj.deleted);
      }
      if obj.code != read.code {
        row := row.(code := obj.code);
      }
      row := row.(fields := row.fields + FieldsSet(read.fields, obj.fields));
      var sequence := NextSequence();
      rows := rows[k := Row(row, sequence)];
      archive := archive[VersionOf(k, row.version) := Archived(row, Rest)];
    }
  }

  class PushContext {
    const db: Database
    const user: ClientId
    const role: Role
    const existing: map<ChangeId, Receipt>
    var results: seq<Result>
    var batchResults: map<ChangeId, Result>
    var batchHashes: map<ChangeId, Change>

    constructor (db: Database, user: ClientId, role: Role, existing: map<ChangeId, Receipt>)
      ensures this.db == db && this.user == user && this.role == role && this.existing == existing
      ensures results == [] && batchResults == map[] && batchHashes == map[]
    {
      this.db, this.user, this.role, this.existing := db, user, role, existing;
      results, batchResults, batchHashes := [], map[], map[];
    }

    /** The context and the database stand for this state of the push, for the ids of the request. */
    ghost predicate Represents(p: PushState, ids: set<ChangeId>)
      reads this, db
    {
      && db.Contents() == p.server && results == p.results
      && existing == (map id | id in p.existing && id in ids :: p.existing[id])
      && batchHashes.Keys == batchResults.Keys == p.handled.Keys
      && (forall id :: id in p.handled ==> p.handled[id] == Handled(batchHashes[id], batchResults[id]))
    }

    method StoreReceipt(ch: Change, r: Result)
      modifies db`receipts
      ensures db.receipts == old(db.receipts)[ch.id := Receipt(user, Some(ch), r)]
    {
      db.receipts := db.receipts[ch.id := Receipt(user, Some(ch), r)];
    }

    /** Inside a savepoint: change the row, audit it, read it back and store the receipt. */
    method ApplyPushChange(ch: Change, verdict: Verdict) returns (failure: Option<Failure>, result: Result)
      modifies db
      ensures var s := old(db.Contents()); var d := Decision(s, ErrorResult(ch, Transient, true), false);
        var u := if ch.op.Upsert? then DecideUpsert(s, user, ch, verdict) else DecideDelete(s, user, ch, verdict);
        && (failure.Some? ==> db.Contents() == s)
        && (verdict.Crashed? ==> failure == Some(Unexpected))
        && (!verdict.Crashed? ==> match failure
            case None => u.result == result
              && db.Contents() == u.server.(receipts := s.receipts[ch.id := Receipt(user, Some(ch), result)])
            case Some(ConflictWith(copy)) => u == Decision(s, ConflictResult(ch, copy), true)
            case Some(_) => failure != Some(Unexpected) && u == Decision(s, ErrorResult(ch, Validation, false), true))
    {
      var rows, last, receipts, audit := db.rows, db.last, db.receipts, db.audit;
      ghost var archive := db.archive;
      result := ErrorResult(ch, Transient, true);
      failure := None;
      if ch.key in db.rows {
        failure := db.ChangeExisting(user, ch, verdict);
      } else if ch.op.Upsert? {
        if verdict.Refused? {
          failure := Some(HttpRefusal);
        } else {
          db.CreateNew(user, ch);
        }
      }
      if verdict.Crashed? {
        failure := Some(Unexpected);
      }
      if failure.Some? {
        db.rows, db.last, db.receipts, db.audit, db.archive := rows, last, receipts, audit, archive;
        return;
      }
      if ch.op.Upsert? || ch.key in rows {
        db.audit := db.audit + [ch.id];
      }
      result := AcceptedResult(ch, db.rows);
      StoreReceipt(ch, result);
    }

    method Record(ch: Change, r: Result)
      modifies `results, `batchResults
      ensures results == old(results) + [r] && batchResults == old(batchResults)[ch.id := r]
    {
      results := results + [r];
      batchResults := batchResults[ch.id := r];
    }

    method Reject(ch: Change, kind: FailureKind, retryable: bool, store: bool)
      modifies `results, `batchResults, db`receipts
      ensures var r := ErrorResult(ch, kind, retryable);
        && results == old(results) + [r] && batchResults == old(batchResults)[ch.id := r]
        && db.receipts == if store then old(db.receipts)[ch.id := Receipt(user, Some(ch), r)] else old(db.receipts)
    {
      var r := ErrorResult(ch, kind, retryable);
      if store {
        StoreReceipt(ch, r);
      }
      Record(ch, r);
    }

    /** A change seen for the first time: authorize, apply in a savepoint, record the outcome. */
    method ProcessNew(ch: Change, verdict: Verdict)
      modifies `results, `batchResults, db
      ensures var d := DecideAndStore(old(db.Contents()), user, role, ch, verdict);
        && db.Contents() == d.server
        && results == old(results) + [d.result] && batchResults == old(batchResults)[ch.id := d.result]
    {
      if !Allowed(role, db.rows, ch) {
        Reject(ch, Permission, false, true);
        return;
      }
      var failure, result := ApplyPushChange(ch, verdict);
      match failure
      case None => Record(ch, result);
      case Some(ConflictWith(copy)) =>
        StoreReceipt(ch, ConflictResult(ch, copy));
        Record(ch, ConflictResult(ch, copy));
      case Some(Unexpected) => Reject(ch, Transient, true, false);
      case Some(_) => Reject(ch, Validation, false, true);
    }

    method RecordDuplicate(ch: Change, ghost p: PushState, ghost ids: set<ChangeId>)
      requires Represents(p, ids) && ch.id in ids && Seen(p, ch.id)
      modifies `results
      ensures results == old(results) + [Replay(p, user, ch)]
    {
      var receipt := Lookup(existing, ch.id);
      var reason := DuplicateReason(user, ch, receipt, Lookup(batchHashes, ch.id));
      if reason.Some? {
        results := results + [ErrorResult(ch, Validation, false)];
        return;
      }
      var first := if receipt.Some? then receipt.value.result else batchResults[ch.id];
      results := results + [Refreshed(db.rows, first.(replayed := true))];
    }

    /** A repeated id replays; a new one is tracked for the rest of the request and processed. */
    method ProcessOne(ch: Change, verdict: Verdict, ghost p: PushState, ghost ids: set<ChangeId>)
      requires Represents(p, ids) && ch.id in ids
      modifies this, db
      ensures Represents(PushOne(p, user, role, ch, verdict), ids)
    {
      hide DecideAndStore, Replay;
      if ch.id in existing || ch.id in batchHashes {
        assert Seen(p, ch.id);
        RecordDuplicate(ch, p, ids);
      } else {
        assert !Seen(p, ch.id);
        batchHashes := batchHashes[ch.id := ch];
        ProcessNew(ch, verdict);
      }
    }

    /** Every change of the request, in order. */
    method ProcessAll(batch: seq<Change>, verdicts: seq<Verdict>, ghost s: Server)
      requires |batch| == |verdicts|
      requires Represents(Begin(s), set ch | ch in batch :: ch.id)
      modifies this, db
      ensures db.Contents() == Push(s, user, role, batch, verdicts).server
      ensures results == Push(s, user, role, batch, verdicts).results
    {
      ghost var ids := set ch | ch in batch :: ch.id;
      var i := 0;
      while i < |batch|
        invariant 0 <= i <= |batch|
        invariant Represents(PushFirst(s, user, role, batch, verdicts, i), ids)
      {
        hide PushOne, Represents;
        assert batch[i].id in ids;
        ProcessOne(batch[i], verdicts[i], PushFirst(s, user, role, batch, verdicts, i), ids);
        i := i + 1;
      }
    }
  }

  /** One push request against the database. */
  method PushChanges(db: Database, user: ClientId, role: Role, batch: seq<Change>, verdicts: seq<Verdict>)
    returns (results: seq<Result>)
    requires |batch| == |verdicts|
    modifies db
    ensures db.Contents() == Push(old(db.Contents()), user, role, batch, verdicts).server
    ensures results == Push(old(db.Contents()), user, role, batch, verdicts).results
  {
    var ids := set ch | ch in batch :: ch.id;
    var existing := map id | id in db.receipts && id in ids :: db.receipts[id];
    var ctx := new PushContext(db, user, role, existing);
    ctx.ProcessAll(batch, verdicts, db.Contents());
    results := ctx.results;
  }

  datatype PushRequest = PushRequest(user: ClientId, role: Role, batch: seq<Change>, verdicts: seq<Verdict>)

  /** A REST delete reads its row without a lock. `meanwhile` is a push that commits before its flush. */
  method RestDeleteRow(db: Database, k: Key, meanwhile: Option<PushRequest>) returns (ok: bool)
    requires meanwhile.Some? ==> |meanwhile.value.batch| == |meanwhile.value.verdicts|
    modifies db
    ensures ok == RestFinds(old(db.rows), k)
    ensures !ok ==> db.Contents() == old(db.Contents())
    ensures ok && meanwhile.None? ==> db.Contents() == LateDelete(old(db.Contents()), k, old(db.rows)[k].copy)
    ensures ok && meanwhile.Some? ==>
      var p := meanwhile.value;
      db.Contents() == LateDelete(Push(old(db.Contents()), p.user, p.role, p.batch, p.verdicts).server, k, old(db.rows)[k].copy)
  {
    ok := RestFinds(db.rows, k);
    if !ok {
      return;
    }
    var read := db.rows[k].copy;
    var obj := new Loaded(k.kind, read);
    obj.SoftDelete();
    if meanwhile.Some? {
      var p := meanwhile.value;
      var _ := PushChanges(db, p.user, p.role, p.batch, p.verdicts);
    }
    if k in db.rows {
      db.FlushChanged(k, read, obj);
    }
  }
}
