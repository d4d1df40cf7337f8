/** The client's store as it is updated in place, statement by statement. */
module OutboxStore {
  import opened Protocol
  import opened LocalDb

  class Store {
    var local: Locals
    var outbox: Outbox
    var watermark: nat

    ghost function Contents(): Db
      reads this
    {
      Db(local, outbox, watermark)
    }

    /** At most one open change per row. */
    ghost predicate Valid()
      reads this
    {
      OnePerKey(outbox)
    }

    constructor ()
      ensures Valid() && Contents() == EmptyDb
    {
      local, outbox, watermark := map[], map[], 0;
    }

    method OldestOpenEntry(k: Key) returns (open: Option<ChangeId>)
      requires Valid()
      ensures open.Some? <==> HasOpen(outbox, k)
      ensures open.Some? ==> open.value == OpenId(outbox, k)
    {
      if id :| id in outbox && outbox[id].key == k {
        open := Some(id);
      } else {
        open := None;
      }
    }

    method DeleteOpenEntries(k: Key)
      requires Valid()
      modifies `outbox
      ensures Valid() && outbox == WithoutKey(old(outbox), k)
    {
      outbox := map id | id in outbox && outbox[id].key != k :: outbox[id];
    }

    // ----- Queueing -----

    /** Squash into the open conflict, or replace the open entry by one with a new id. */
    method ReplaceEntry(k: Key, op: Op, base: Option<int>, record: Record, forceRebase: bool, newId: ChangeId)
      returns (queued: ChangeId)
      requires Valid() && newId !in outbox
      modifies `outbox
      ensures Valid() && outbox == Replace(old(outbox), k, op, base, record, forceRebase, newId)
      ensures queued in outbox && outbox[queued].key == k && outbox[queued].record == record
    {
      var existing: Option<ChangeId> := None;
      if !forceRebase {
        existing := OldestOpenEntry(k);
      }
      if existing.Some? {
        var e := outbox[existing.value];
        if e.status.Blocked? && e.status.kind.Conflicting? {
          outbox := outbox[existing.value := e.(op := op, record := record)];
          return existing.value;
        }
      }
      var baseVersion := base;
      if existing.Some? {
        var e := outbox[existing.value];
        baseVersion := e.base;
        if baseVersion.None? && e.op.Upsert? && (e.base.Some? || e.attempted) {
          baseVersion := Some(1);
        }
      }
      DeleteOpenEntries(k);
      outbox := outbox[newId := Entry(k, op, baseVersion, record, Pending, false)];
      queued := newId;
    }

    method OverrideBaseVersion(k: Key, base: Option<int>)
      requires Valid()
      modifies `outbox
      ensures Valid() && outbox == OverrideBase(old(outbox), k, base)
    {
      if base.None? {
        return;
      }
      var value := if base.value >= 1 then base else None;
      outbox := map id | id in outbox ::
        if outbox[id].key == k && !outbox[id].status.Blocked?
        then outbox[id].(base := value) else outbox[id];
    }

    /** A create or an edit: the row and its queued upsert in one transaction. */
    method SaveEdit(k: Key, r: Record, editorBase: Option<int>, newId: ChangeId)
      requires Valid() && newId !in outbox
      modifies this
      ensures Valid() && Contents() == SaveRow(old(Contents()), k, r, editorBase, newId)
    {
      var version, code := 0, None;
      if k in local {
        version, code := local[k].copy.version, local[k].copy.code;
      }
      if r.code.Given? {
        code := r.code.code;
      }
      local := local[k := Local(Copy(version, false, code, r.fields), true)];
      var base := if version >= 1 then Some(version as int) else None;
      var _ := ReplaceEntry(k, Upsert, base, r, false, newId);
      OverrideBaseVersion(k, editorBase);
    }

    /** A delete: discard a create that never left, otherwise queue it on a version. */
    method DeleteEdit(k: Key, newId: ChangeId)
      requires Valid() && newId !in outbox && k in local
      modifies this
      ensures Valid() && Contents() == DeleteRow(old(Contents()), k, newId)
    {
      var version := local[k].copy.version;
      var open := OldestOpenEntry(k);
      var mayExist := false;
      if open.Some? {
        var e := outbox[open.value];
        mayExist := e.op.Upsert? && (e.base.Some? || e.attempted);
      }
      if k.kind.Ticket? && version < 1 && !mayExist {
        local := local - {k};
        DeleteOpenEntries(k);
        return;
      }
      local := local[k := Local(local[k].copy.(deleted := true), true)];
      if version >= 1 {
        var _ := ReplaceEntry(k, Delete, Some(version), DeleteRecord, false, newId);
      } else if mayExist {
        var _ := ReplaceEntry(k, Delete, Some(1), DeleteRecord, true, newId);
      } else {
        DeleteOpenEntries(k);
      }
    }

    // ----- Statuses -----

    /** The send boundary: from now on a create among these may exist remotely; nothing else moves. */
    method MarkIdsAttempted(ids: seq<ChangeId>)
      requires Valid()
      modifies `outbox
      ensures Valid() && outbox.Keys == old(outbox).Keys
      ensures forall id :: id in outbox && id !in ids ==> outbox[id] == old(outbox)[id]
      ensures forall id :: id in outbox && id in ids ==> outbox[id].attempted && (outbox[id].op.Upsert? ==> CreateMayExist(outbox[id]))
      ensures forall id :: id in outbox ==> outbox[id].(attempted := old(outbox)[id].attempted) == old(outbox)[id]
    {
      outbox := map id | id in outbox :: if id in ids then outbox[id].(attempted := true) else outbox[id];
    }

    method DeferId(id: ChangeId)
      requires Valid()
      modifies `outbox
      ensures Valid() && outbox == Defer(old(outbox), id)
    {
      if id in outbox {
        outbox := outbox[id := outbox[id].(status := Retry, attempted := true)];
      }
    }

    method BlockId(id: ChangeId, kind: FailureKind, saved: Option<Copy>)
      requires Valid()
      modifies `outbox
      ensures Valid() && outbox == Block(old(outbox), id, kind, saved)
    {
      if id in outbox {
        outbox := outbox[id := outbox[id].(status := Blocked(kind, saved), attempted := true)];
      }
    }

    method DeleteId(id: ChangeId)
      requires Valid()
      modifies `outbox
      ensures Valid() && outbox == old(outbox) - {id}
    {
      outbox := outbox - {id};
    }

    method DeleteIds(ids: set<ChangeId>)
      requires Valid()
      modifies `outbox
      ensures Valid() && outbox == old(outbox) - ids
    {
      outbox := outbox - ids;
    }

    // ----- Server copies -----

    method RememberConflict(k: Key, copy: Copy)
      requires Valid()
      modifies `outbox
      ensures Valid() && outbox == Remember(old(outbox), k, copy)
    {
      var open := OldestOpenEntry(k);
      if open.Some? {
        var e := outbox[open.value];
        if e.status.Blocked? && e.status.kind.Conflicting? {
          outbox := outbox[open.value := e.(status := Blocked(Conflicting, Some(copy)))];
        }
      }
      assert outbox == Remember(old(outbox), k, copy);
    }

    /** First release the copy's code wherever else it is held, then write the row. */
    method StoreCopy(k: Key, copy: Copy)
      modifies `local
      ensures local == PutCopy(old(local), k, copy)
    {
      if copy.code.Some? {
        local := map j | j in local ::
          if j.kind == k.kind && local[j].copy.code == copy.code && j != k
          then local[j].(copy := local[j].copy.(code := None)) else local[j];
      }
      local := local[k := Local(copy, false)];
    }

    method ApplyPulledCopy(k: Key, copy: Copy)
      requires Valid()
      modifies `local, `outbox
      ensures Valid() && Contents() == ApplyPulled(old(Contents()), k, copy)
    {
      var open := OldestOpenEntry(k);
      if open.Some? {
        RememberConflict(k, copy);
      } else {
        StoreCopy(k, copy);
      }
    }

    /** Every pulled row, then the watermark, in one transaction. */
    method ApplyPull(items: seq<KeyCopy>, serverSequence: nat)
      requires Valid()
      modifies this
      ensures Valid() && Contents() == ApplyAllPulled(old(Contents()), items).(watermark := serverSequence)
    {
      var i := 0;
      while i < |items|
        invariant 0 <= i <= |items| && Valid()
        invariant Contents() == ApplyAllPulled(old(Contents()), items[..i])
      {
        ApplyPulledCopy(items[i].key, items[i].copy);
        assert items[..i + 1][..i] == items[..i];
        i := i + 1;
      }
      assert items[..|items|] == items;
      watermark := serverSequence;
    }

    // ----- Acknowledgements -----

    /** Collect the rows and codes a batch speaks of, then clear them in one update. */
    method ReleaseCodesFor(results: seq<Result>)
      modifies `local
      ensures local == ReleaseCodes(old(local), results)
    {
      var keys: set<Key>, codes: set<(Kind, string)> := {}, {};
      var i := 0;
      while i < |results|
        invariant 0 <= i <= |results| && local == old(local)
        invariant forall j: Key :: j in keys <==>
          Scored(j.kind) && exists r :: r in results[..i] && r.outcome.Accepted? && r.record.Some? && r.key == j
        invariant forall kind, code :: (kind, code) in codes <==>
          Scored(kind) && exists r :: r in results[..i] && r.outcome.Accepted? && r.record.Some? && r.key.kind == kind
                                   && r.record.value.code == Some(code)
      {
        var r := results[i];
        assert results[..i + 1] == results[..i] + [r];
        if r.outcome.Accepted? && r.record.Some? && Scored(r.key.kind) {
          keys := keys + {r.key};
          if r.record.value.code.Some? {
            codes := codes + {(r.key.kind, r.record.value.code.value)};
          }
        }
        i := i + 1;
      }
      assert results[..i] == results;
      local := map j | j in local ::
        if j in keys || (local[j].copy.code.Some? && (j.kind, local[j].copy.code.value) in codes)
        then local[j].(copy := local[j].copy.(code := None)) else local[j];
      forall j | j in old(local) ensures local[j] == ReleaseCodes(old(local), results)[j] {
        ReleasedExactly(old(local)[j], j, results, keys, codes);
      }
    }

    /** The queued change was accepted: drop it and take the server's row. */
    method AcknowledgeQueued(r: Result) returns (ok: bool)
      requires Valid() && r.id in outbox
      modifies `local, `outbox
      ensures var after := AcknowledgeSent(old(Contents()), r);
        ok == after.Some? && (ok ==> Valid() && Contents() == after.value)
    {
      var k := outbox[r.id].key;
      if r.key != k {
        return false;
      }
      outbox := outbox - {r.id};
      if r.record.Some? {
        if r.version.Some? && r.record.value.version != r.version.value {
          return false;
        }
        ApplyPulledCopy(k, r.record.value);
      } else if r.version.Some? && k in local {
        local := local[k := Local(local[k].copy.(version := r.version.value), false)];
      }
      ok := true;
    }

    /** Version and code move on; the newer local field values stay. */
    method AdvanceRow(k: Key, version: Option<nat>, code: CodeField)
      modifies `local
      ensures local == if k in old(local)
                       then old(local)[k := AdvancedLocal(old(local)[k], k.kind, version, code)] else old(local)
    {
      if k !in local {
        return;
      }
      var copy := local[k].copy;
      if version.Some? && copy.version < version.value {
        copy := copy.(version := version.value);
      }
      if Scored(k.kind) && code.Given? {
        copy := copy.(code := code.code);
      }
      local := local[k := local[k].(copy := copy)];
    }

    method RebaseEntry(id: ChangeId, version: Option<nat>, code: CodeField)
      requires Valid() && id in outbox
      modifies `outbox
      ensures Valid()
      ensures var e := old(outbox)[id];
        outbox == old(outbox)[id := e.(base := AdvancedBase(e.base, version),
                                       record := if code.Given? then e.record.(code := code) else e.record)]
    {
      var e := outbox[id];
      var held, told := if e.base.Some? then e.base.value else 0, if version.Some? then version.value else 0;
      var highest := if held >= told then held else told;
      var record := e.record;
      if code.Given? {
        record := record.(code := code);
      }
      outbox := outbox[id := e.(base := if highest >= 1 then Some(highest) else None, record := record)];
    }

    /** A newer edit replaced the accepted change: move its base and the row's metadata on. */
    method AdvanceReplaced(r: Result) returns (ok: bool)
      requires Valid()
      modifies `local, `outbox
      ensures var after := AdvanceReplacement(old(Contents()), r);
        ok == after.Some? && (ok ==> Valid() && Contents() == after.value)
    {
      hide AdvancedLocal, AdvancedBase;
      var open := OldestOpenEntry(r.key);
      if open.None? || outbox[open.value].status.Blocked? {
        assert !HasReplacement(outbox, r.key);
        return true;
      }
      assert HasReplacement(outbox, r.key) && OpenId(outbox, r.key) == open.value;
      var version := if r.replayed && r.receiptVersion.Some? then r.receiptVersion else r.version;
      var code := if Scored(r.key.kind) && r.record.Some? then Given(r.record.value.code) else Absent;
      RebaseEntry(open.value, version, code);
      var keepsVersion := r.record.Some? && !(r.replayed && version != r.version);
      if version.Some? && keepsVersion && version.value != r.record.value.version {
        return false;
      }
      AdvanceRow(r.key, if version.Some? || !keepsVersion then version else Some(r.record.value.version), code);
      ok := true;
    }

    /** One transaction: any mismatch rolls the whole batch back. */
    method AcknowledgeAccepted(results: seq<Result>) returns (ok: bool)
      requires Valid()
      modifies `local, `outbox
      ensures Valid() && ok == AcknowledgeAll(old(Contents()), results).Some?
      ensures Contents() == if ok then AcknowledgeAll(old(Contents()), results).value else old(Contents())
    {
      var savedLocal, savedOutbox := local, outbox;
      ReleaseCodesFor(results);
      var i := 0;
      while i < |results|
        invariant 0 <= i <= |results| && Valid()
        invariant savedLocal == old(local) && savedOutbox == old(outbox) && watermark == old(watermark)
        invariant AcknowledgeFirst(old(Contents()), results, i) == Some(Contents())
      {
        var r := results[i];
        ok := true;
        if r.outcome.Accepted? {
          if r.id in outbox {
            ok := AcknowledgeQueued(r);
          } else {
            ok := AdvanceReplaced(r);
          }
        }
        if !ok {
          FailedStaysFailed(old(Contents()), results, i + 1, |results|);
          local, outbox := savedLocal, savedOutbox;
          return;
        }
        i := i + 1;
      }
      ok := true;
    }
  }

  /** The collected sets name exactly the rows whose code the batch releases. */
  lemma ReleasedExactly(l: Local, j: Key, results: seq<Result>, keys: set<Key>, codes: set<(Kind, string)>)
    requires j in keys <==>
      Scored(j.kind) && exists r :: r in results && r.outcome.Accepted? && r.record.Some? && r.key == j
    requires forall code :: (j.kind, code) in codes <==>
      Scored(j.kind) && exists r :: r in results && r.outcome.Accepted? && r.record.Some? && r.key.kind == j.kind
                                 && r.record.value.code == Some(code)
    ensures CodeReleased(results, j, l.copy.code) <==>
      j in keys || (l.copy.code.Some? && (j.kind, l.copy.code.value) in codes)
  {
  }

  lemma {:induction false} FailedStaysFailed(db: Db, results: seq<Result>, i: nat, n: nat)
    requires i <= n <= |results| && AcknowledgeFirst(db, results, i).None?
    ensures AcknowledgeFirst(db, results, n).None?
  {
    if i < n {
      FailedStaysFailed(db, results, i, n - 1);
    }
  }
}
