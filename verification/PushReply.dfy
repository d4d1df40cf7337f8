/** The client's check of a push reply, before any local work is acknowledged. */
module PushReply {
  import opened Protocol
  import opened PushRules
  import opened LocalDb
  import opened SyncModel
  import opened SyncInvariant
  import opened SyncPreservation
  import SyncServerSteps
  import SyncTheorems

  type ProjectId = nat

  datatype Status = IsAccepted | IsConflict | IsError | Unknown

  /** The ids a returned row may carry. */
  datatype RowIds = RowIds(id: Option<nat>, project: Option<ProjectId>)

  /** One element of the reply as parsed: any identity field may be missing. */
  datatype Raw =
    | NotAnObject
    | Raw(change: Option<ChangeId>, status: Status, entity: Option<Kind>, id: Option<nat>, record: Option<RowIds>)

  predicate Agrees<T(==)>(told: Option<T>, known: T) {
    told.None? || told.value == known
  }

  /** A result may leave identity fields out but must not contradict its change. */
  predicate Matches(raw: Raw, ch: Change, project: ProjectId)
    requires raw.Raw?
  {
    && !raw.status.Unknown?
    && Agrees(raw.entity, ch.key.kind)
    && Agrees(raw.id, ch.key.id)
    && (raw.record.Some? ==> Agrees(raw.record.value.id, ch.key.id) && Agrees(raw.record.value.project, project))
  }

  /** Change ids are primary keys of the outbox. */
  ghost predicate DistinctIds(changes: seq<Change>) {
    forall i, j :: 0 <= i < j < |changes| ==> changes[i].id != changes[j].id
  }

  ghost predicate AnswersOne(raw: Raw, changes: seq<Change>, project: ProjectId) {
    && raw.Raw? && raw.change.Some?
    && exists ch :: ch in changes && ch.id == raw.change.value && Matches(raw, ch, project)
  }

  ghost predicate AnswerOf(raw: Raw, ch: Change) {
    raw.Raw? && raw.change == Some(ch.id)
  }

  /** Every element answers a sent change, none twice, and every sent change is answered. */
  ghost predicate ExactReply(raws: seq<Raw>, changes: seq<Change>, project: ProjectId) {
    && raws != []
    && (forall i :: 0 <= i < |raws| ==> AnswersOne(raws[i], changes, project))
    && (forall i, j :: 0 <= i < j < |raws| ==> raws[i].change != raws[j].change)
    && (forall ch :: ch in changes ==> exists i :: 0 <= i < |raws| && AnswerOf(raws[i], ch))
  }

  /** Changes by their id. */
  method ById(changes: seq<Change>) returns (sent: map<ChangeId, Change>)
    requires DistinctIds(changes)
    ensures forall id :: id in sent ==> sent[id] in changes && sent[id].id == id
    ensures forall ch :: ch in changes ==> ch.id in sent && sent[ch.id] == ch
  {
    sent := map[];
    var n := 0;
    while n < |changes|
      invariant 0 <= n <= |changes|
      invariant forall id :: id in sent ==> sent[id] in changes && sent[id].id == id
      invariant forall j :: 0 <= j < n ==> changes[j].id in sent && sent[changes[j].id] == changes[j]
    {
      sent := sent[changes[n].id := changes[n]];
      n := n + 1;
    }
  }

  /** The validator accepts exactly the replies that give each sent id one matching result. */
  method ValidatedResults(project: ProjectId, changes: seq<Change>, response: Option<seq<Raw>>)
    returns (results: Option<seq<Raw>>)
    requires DistinctIds(changes)
    ensures results.Some? <==> response.Some? && ExactReply(response.value, changes, project)
    ensures results.Some? ==> results == response
  {
    hide Matches, DistinctIds;
    if response.None? || response.value == [] {
      return None;
    }
    var raws := response.value;
    var sent := ById(changes);
    var seen: set<ChangeId> := {};
    var i := 0;
    while i < |raws|
      invariant 0 <= i <= |raws| && seen <= sent.Keys
      invariant forall j :: 0 <= j < i ==> AnswersOne(raws[j], changes, project) && raws[j].change.value in seen
      invariant forall j, k :: 0 <= j < k < i ==> raws[j].change != raws[k].change
      invariant forall id :: id in seen ==> exists j :: 0 <= j < i && AnswerOf(raws[j], sent[id])
    {
      hide AnswersOne;
      var raw := raws[i];
      if raw.NotAnObject? || raw.change.None? || raw.change.value !in sent || raw.change.value in seen {
        NotAnAnswer(raws, changes, project, sent, seen, i);
        return None;
      }
      if !Matches(raw, sent[raw.change.value], project) {
        OnlyItsChange(raw, changes, sent[raw.change.value], project);
        return None;
      }
      ItsChange(raw, changes, sent[raw.change.value], project);
      assert AnswerOf(raws[i], sent[raw.change.value]);
      seen := seen + {raw.change.value};
      i := i + 1;
    }
    if seen != sent.Keys {
      var id :| id in sent && id !in seen;
      assert !exists j :: 0 <= j < |raws| && AnswerOf(raws[j], sent[id]);
      return None;
    }
    forall ch | ch in changes ensures exists j :: 0 <= j < |raws| && AnswerOf(raws[j], ch) {
      assert ch.id in seen;
    }
    results := response;
  }

  lemma ItsChange(raw: Raw, changes: seq<Change>, ch: Change, project: ProjectId)
    requires ch in changes && raw.Raw? && raw.change == Some(ch.id) && Matches(raw, ch, project)
    ensures AnswersOne(raw, changes, project)
  {
  }

  /** No object, no id, an id never sent, or one already answered. */
  lemma NotAnAnswer(
    raws: seq<Raw>, changes: seq<Change>, project: ProjectId, sent: map<ChangeId, Change>, seen: set<ChangeId>, i: nat)
    requires i < |raws| && forall ch :: ch in changes ==> ch.id in sent
    requires forall id :: id in seen ==> id in sent && sent[id].id == id && exists j :: 0 <= j < i && AnswerOf(raws[j], sent[id])
    requires raws[i].NotAnObject? || raws[i].change.None? || raws[i].change.value !in sent || raws[i].change.value in seen
    ensures !ExactReply(raws, changes, project)
  {
    hide Matches;
    if raws[i].Raw? && raws[i].change.Some? && raws[i].change.value in seen {
      var id := raws[i].change.value;
      var j :| 0 <= j < i && AnswerOf(raws[j], sent[id]);
      assert raws[j].change == raws[i].change;
    }
  }

  lemma OnlyItsChange(raw: Raw, changes: seq<Change>, ch: Change, project: ProjectId)
    requires DistinctIds(changes) && ch in changes && raw.Raw? && raw.change == Some(ch.id) && !Matches(raw, ch, project)
    ensures !AnswersOne(raw, changes, project)
  {
  }

  // ----- Honest replies -----

  function StatusOf(o: Outcome): Status {
    match o
    case Accepted => IsAccepted
    case Conflict => IsConflict
    case Error(_, _) => IsError
  }

  /** What the server sends for a result: every identity field filled in. */
  function Encoded(r: Result, project: ProjectId): Raw {
    Raw(Some(r.id), StatusOf(r.outcome), Some(r.key.kind), Some(r.key.id),
        if r.record.Some? then Some(RowIds(Some(r.key.id), Some(project))) else None)
  }

  function EncodedAll(results: seq<Result>, project: ProjectId): (raws: seq<Raw>)
    ensures |raws| == |results|
    ensures forall i :: 0 <= i < |results| ==> raws[i] == Encoded(results[i], project)
  {
    seq(|results|, i requires 0 <= i < |results| => Encoded(results[i], project))
  }

  lemma AnswersInOrderPass(batch: seq<Change>, results: seq<Result>, project: ProjectId)
    requires batch != [] && DistinctIds(batch) && |results| == |batch|
    requires forall i :: 0 <= i < |batch| ==> results[i].id == batch[i].id && results[i].key == batch[i].key
    ensures ExactReply(EncodedAll(results, project), batch, project)
  {
    var raws := EncodedAll(results, project);
    forall i | 0 <= i < |raws| ensures AnswersOne(raws[i], batch, project) {
      assert batch[i] in batch && Matches(raws[i], batch[i], project);
    }
    forall ch | ch in batch ensures exists i :: 0 <= i < |raws| && AnswerOf(raws[i], ch) {
      var i :| 0 <= i < |batch| && batch[i] == ch;
      assert AnswerOf(raws[i], ch);
    }
  }

  /** In every reachable state, whatever the server answers to distinct sent changes passes. */
  lemma HonestReplyPasses(
    s: Sys, c: ClientId, role: Role, batch: seq<Change>, verdicts: seq<Verdict>, project: ProjectId)
    requires SyncTheorems.Reachable(s) && c in s.nodes && CanProcess(s.nodes[c], batch, verdicts)
    requires batch != [] && DistinctIds(batch)
    ensures |Push(s.world.server, c, role, batch, verdicts).results| == |batch|
    ensures ExactReply(EncodedAll(Push(s.world.server, c, role, batch, verdicts).results, project), batch, project)
  {
    SyncTheorems.ReachableInv(s);
    hide SyncTheorems.Reachable, WorldOk, NodeOk, PushFirst, SyncServerSteps.Handling, BasesOk, PayloadsOk,
         BoundaryOk, PhaseOk, SyncServerSteps.AllCurrent, EncodedAll;
    NodeParts(s.world, c, s.nodes[c]);
    SyncServerSteps.PushFirstOk(s.world, c, s.nodes[c], role, batch, verdicts, |batch|);
    var p := Push(s.world.server, c, role, batch, verdicts);
    forall i | 0 <= i < |batch| ensures p.results[i].id == batch[i].id && p.results[i].key == batch[i].key {
      assert ResultOk(p.server, s.nodes[c].db.watermark, c, batch[i], p.results[i]);
    }
    AnswersInOrderPass(batch, p.results, project);
  }

  // ----- Where each sent change ends up -----

  ghost function SettleEach(outbox: Outbox, results: seq<Result>): Outbox {
    if results == [] then outbox
    else SettledOutbox(SettleEach(outbox, results[..|results| - 1]), results[|results| - 1])
  }

  /** Results with nothing to apply, in the order the client settles them. */
  ghost predicate Unacknowledged(results: seq<Result>, rest: seq<Result>) {
    && (forall r :: r in rest <==> r in results && !Acknowledges(r))
    && (forall i, j :: 0 <= i < j < |rest| ==> rest[i].id != rest[j].id)
  }

  /** Removed, blocked or due for a retry, as the result says. */
  ghost predicate Disposed(o: Outbox, q: Outbox, r: Result)
    requires r.id in o
  {
    match r.outcome
    case Accepted => r.id !in q
    case Conflict => r.id in q && q[r.id] == o[r.id].(status := Blocked(Conflicting, r.record), attempted := true)
    case Error(kind, retryable) =>
      r.id in q
      && q[r.id] == o[r.id].(status := if retryable || kind.Transient? then Retry else Blocked(kind, None), attempted := true)
  }

  lemma SettleOne(o: Outbox, r: Result)
    ensures var q := SettledOutbox(o, r);
      && q.Keys <= o.Keys
      && (forall id :: id in o && id != r.id ==> id in q && q[id] == o[id])
      && (r.id in o ==> Disposed(o, q, r))
  {
  }

  lemma DisposedLater(o: Outbox, mid: Outbox, q: Outbox, r: Result, last: Result)
    requires r.id in o && Disposed(o, mid, r) && r.id != last.id && q.Keys <= mid.Keys
    requires forall id :: id in mid && id != last.id ==> id in q && q[id] == mid[id]
    ensures Disposed(o, q, r)
  {
  }

  lemma {:induction false} SettleEachDisposes(o: Outbox, results: seq<Result>)
    requires forall i, j :: 0 <= i < j < |results| ==> results[i].id != results[j].id
    ensures SettleEach(o, results).Keys <= o.Keys
    ensures forall id :: id in o && (forall r :: r in results ==> r.id != id) ==>
      id in SettleEach(o, results) && SettleEach(o, results)[id] == o[id]
    ensures forall r :: r in results && r.id in o ==> Disposed(o, SettleEach(o, results), r)
  {
    hide SettledOutbox;
    if results != [] {
      var n := |results| - 1;
      var before, last := results[..n], results[n];
      SettleEachDisposes(o, before);
      assert forall r :: r in before ==> r.id != last.id;
      assert results == before + [last];
      var mid, q := SettleEach(o, before), SettleEach(o, results);
      SettleOne(mid, last);
      forall r | r in results && r.id in o ensures Disposed(o, q, r) {
        if r in before {
          DisposedLater(o, mid, q, r, last);
        } else {
          assert mid[r.id] == o[r.id];
        }
      }
    }
  }

  lemma {:induction false} AcknowledgedAreGone(db: Db, results: seq<Result>, n: nat)
    requires n <= |results| && AcknowledgeFirst(db, results, n).Some?
    ensures AcknowledgeFirst(db, results, n).value.outbox.Keys <= db.outbox.Keys
    ensures forall r :: r in results[..n] && r.outcome.Accepted? ==> r.id !in AcknowledgeFirst(db, results, n).value.outbox
  {
    if n > 0 {
      AcknowledgedAreGone(db, results, n - 1);
      assert results[..n] == results[..n - 1] + [results[n - 1]];
      OneIsGone(AcknowledgeFirst(db, results, n - 1).value, results[n - 1]);
    }
  }

  lemma OneIsGone(db: Db, r: Result)
    requires AcknowledgeOne(db, r).Some?
    ensures AcknowledgeOne(db, r).value.outbox.Keys <= db.outbox.Keys
    ensures r.outcome.Accepted? ==> r.id !in AcknowledgeOne(db, r).value.outbox
  {
  }

  /** An entry changes only if its id was answered or an accepted result names its row. */
  lemma {:induction false} OthersUntouched(db: Db, results: seq<Result>, n: nat, id: ChangeId)
    requires n <= |results| && AcknowledgeFirst(db, results, n).Some? && id in db.outbox
    requires forall r :: r in results ==> r.id != id && (r.outcome.Accepted? ==> r.key != db.outbox[id].key)
    requires forall r :: r in results && r.id in db.outbox ==> db.outbox[r.id].key == r.key
    ensures var q := AcknowledgeFirst(db, results, n).value.outbox;
      id in q && q[id] == db.outbox[id] && forall i :: i in q ==> i in db.outbox && q[i].key == db.outbox[i].key
  {
    if n > 0 {
      OthersUntouched(db, results, n - 1, id);
      OneLeavesOthers(AcknowledgeFirst(db, results, n - 1).value, results[n - 1], id);
    }
  }

  lemma OneLeavesOthers(db: Db, r: Result, id: ChangeId)
    requires AcknowledgeOne(db, r).Some? && id in db.outbox && r.id != id
    requires r.outcome.Accepted? ==> r.key != db.outbox[id].key
    ensures var q := AcknowledgeOne(db, r).value.outbox;
      id in q && q[id] == db.outbox[id] && forall i :: i in q ==> i in db.outbox && q[i].key == db.outbox[i].key
  {
  }

  /** After a whole reply each sent change still queued has met exactly its result, and no other
    * entry has changed except the replacement of an accepted one. */
  lemma ReplyDisposition(db: Db, results: seq<Result>, rest: seq<Result>, id: ChangeId)
    requires Unacknowledged(results, rest) && id in db.outbox
    requires forall i, j :: 0 <= i < j < |results| ==> results[i].id != results[j].id && results[i].key != results[j].key
    requires forall r :: r in results && r.id in db.outbox ==> db.outbox[r.id].key == r.key
    requires OnePerKey(db.outbox)
    requires AcknowledgeAll(db, WithState(results)).Some?
    ensures var q := SettleEach(AcknowledgeAll(db, WithState(results)).value.outbox, rest);
      && (forall r :: r in results && r.id == id ==> Disposed(db.outbox, q, r))
      && ((forall r :: r in results ==> r.id != id && (r.outcome.Accepted? ==> r.key != db.outbox[id].key)) ==>
          id in q && q[id] == db.outbox[id])
  {
    hide AcknowledgeOne, SettledOutbox, SettleEach;
    var acked := WithState(results);
    var mid := AcknowledgeAll(db, acked).value.outbox;
    AcknowledgedAreGone(db, acked, |acked|);
    assert acked[..|acked|] == acked;
    SettleEachDisposes(mid, rest);
    if r :| r in results && r.id == id {
      if !Acknowledges(r) {
        OthersApart(results, r);
        OthersUntouched(db, acked, |acked|, id);
        assert r in rest;
      }
    } else {
      if forall r :: r in results && r.outcome.Accepted? ==> r.key != db.outbox[id].key {
        OthersUntouched(db, acked, |acked|, id);
      }
    }
  }

  lemma OthersApart(results: seq<Result>, r: Result)
    requires forall i, j :: 0 <= i < j < |results| ==> results[i].id != results[j].id && results[i].key != results[j].key
    requires r in results
    ensures forall o :: o in results && o != r ==> o.id != r.id && o.key != r.key
  {
  }

  /** The user's edit in an entry and its row: everything but base, version and code. */
  ghost predicate SameEdit(before: Db, after: Db, id: ChangeId)
    requires id in before.outbox
  {
    var e := before.outbox[id];
    && id in after.outbox
    && after.outbox[id] == e.(base := after.outbox[id].base, record := e.record.(code := after.outbox[id].record.code))
    && (e.key in before.local ==>
        e.key in after.local && after.local[e.key].dirty == before.local[e.key].dirty
        && after.local[e.key].copy.deleted == before.local[e.key].copy.deleted
        && after.local[e.key].copy.fields == before.local[e.key].copy.fields)
  }

  ghost predicate KeysKept(before: Outbox, after: Outbox) {
    forall i :: i in after ==> i in before && after[i].key == before[i].key
  }

  lemma OneKeepsEdit(first: Db, db: Db, r: Result, id: ChangeId)
    requires id in first.outbox && SameEdit(first, db, id) && AcknowledgeOne(db, r).Some? && r.id != id
    requires OnePerKey(first.outbox) && KeysKept(first.outbox, db.outbox)
    requires r.id in db.outbox ==> db.outbox[r.id].key == r.key
    ensures SameEdit(first, AcknowledgeOne(db, r).value, id) && KeysKept(first.outbox, AcknowledgeOne(db, r).value.outbox)
  {
    hide AdvancedBase;
  }

  /** An edit made while its predecessor was in flight survives the whole acknowledgement: its
    * operation, fields and status stay, and so does its row; only base, version and code move. */
  lemma {:induction false} UnsentEditSurvives(db: Db, results: seq<Result>, n: nat, id: ChangeId)
    requires n <= |results| && AcknowledgeFirst(db, results, n).Some? && id in db.outbox && OnePerKey(db.outbox)
    requires forall r :: r in results ==> r.id != id && (r.id in db.outbox ==> db.outbox[r.id].key == r.key)
    ensures SameEdit(db, AcknowledgeFirst(db, results, n).value, id)
    ensures KeysKept(db.outbox, AcknowledgeFirst(db, results, n).value.outbox)
  {
    hide AcknowledgeOne, CodeReleased;
    if n > 0 {
      UnsentEditSurvives(db, results, n - 1, id);
      OneKeepsEdit(db, AcknowledgeFirst(db, results, n - 1).value, results[n - 1], id);
    }
  }
}
