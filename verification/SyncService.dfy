/** The sync service's writes: settling a push reply and resolving a conflict. */
module SyncService {
  import opened Protocol
  import opened LocalDb
  import opened PushRules
  import opened SyncModel
  import opened OutboxStore
  import opened PushReply

  predicate Stateless(r: Result) {
    r.outcome.Accepted? && !HasServerState(r)
  }

  function Chosen(results: seq<Result>, p: Result -> bool): (some: seq<Result>)
    ensures forall r :: r in some <==> r in results && p(r)
  {
    if results == [] then []
    else
      var n := |results| - 1;
      Chosen(results[..n], p) + if p(results[n]) then [results[n]] else []
  }

  /** Accepted results without server state, then conflicts, then errors. */
  function RestOf(results: seq<Result>): seq<Result> {
    Chosen(results, Stateless) + Chosen(results, (r: Result) => r.outcome.Conflict?)
    + Chosen(results, (r: Result) => r.outcome.Error?)
  }

  ghost predicate IdsApart(results: seq<Result>) {
    forall i, j :: 0 <= i < j < |results| ==> results[i].id != results[j].id
  }

  lemma {:induction false} ChosenApart(results: seq<Result>, p: Result -> bool)
    requires IdsApart(results)
    ensures IdsApart(Chosen(results, p))
  {
    if results != [] {
      var n := |results| - 1;
      ChosenApart(results[..n], p);
      var some := Chosen(results[..n], p);
      forall i | 0 <= i < |some| ensures some[i].id != results[n].id {
        assert some[i] in results[..n];
      }
    }
  }

  lemma AppendApart(results: seq<Result>, a: seq<Result>, b: seq<Result>)
    requires IdsApart(results) && IdsApart(a) && IdsApart(b)
    requires forall r :: r in a ==> r in results && r !in b
    requires forall r :: r in b ==> r in results
    ensures IdsApart(a + b)
  {
    forall i, j | 0 <= i < |a| && 0 <= j < |b| ensures a[i].id != b[j].id {
      assert a[i] in a && b[j] in b;
    }
  }

  /** The three groups together are what acknowledging leaves, each result once. */
  lemma RestOfIsRest(results: seq<Result>)
    requires IdsApart(results)
    ensures Unacknowledged(results, RestOf(results))
  {
    var conflict, error := (r: Result) => r.outcome.Conflict?, (r: Result) => r.outcome.Error?;
    var a, b, c := Chosen(results, Stateless), Chosen(results, conflict), Chosen(results, error);
    ChosenApart(results, Stateless);
    ChosenApart(results, conflict);
    ChosenApart(results, error);
    AppendApart(results, a, b);
    AppendApart(results, a + b, c);
  }

  lemma {:induction false} SettleAppend(o: Outbox, a: seq<Result>, b: seq<Result>)
    ensures SettleEach(o, a + b) == SettleEach(SettleEach(o, a), b)
  {
    if b == [] {
      assert a + b == a;
    } else {
      var n := |b| - 1;
      assert (a + b)[..|a + b| - 1] == a + b[..n];
      SettleAppend(o, a, b[..n]);
    }
  }

  lemma {:induction false} SettleStateless(o: Outbox, results: seq<Result>)
    requires forall r :: r in results ==> r.outcome.Accepted?
    ensures SettleEach(o, results) == o - (set r | r in results :: r.id)
  {
    if results != [] {
      var n := |results| - 1;
      SettleStateless(o, results[..n]);
      assert results == results[..n] + [results[n]];
      assert (set r | r in results :: r.id) == (set r | r in results[..n] :: r.id) + {results[n].id};
    }
  }

  /** What a request brings back: nothing usable, or results with every identity field filled in. */
  datatype Response = NoReply(kind: FailureKind) | Heard(results: seq<Result>)

  datatype PushOutcome = Settled | FailedAs(kind: FailureKind) | Raised

  ghost function MarkedDb(db: Db, ids: seq<ChangeId>): Db {
    db.(outbox := MarkAttempted(db.outbox, set id | id in ids))
  }

  ghost function SettledDb(db: Db, results: seq<Result>): Db
    requires AcknowledgeAll(db, WithState(results)).Some?
  {
    var acked := AcknowledgeAll(db, WithState(results)).value;
    acked.(outbox := SettleEach(acked.outbox, RestOf(results)))
  }

  ghost function FailedOutbox(outbox: Outbox, ids: seq<ChangeId>, kind: FailureKind): Outbox {
    map id | id in outbox ::
      if id !in ids then outbox[id]
      else outbox[id].(status := if kind.Transient? then Retry else Blocked(kind, None), attempted := true)
  }

  lemma MarkedIs(before: Db, after: Db, ids: seq<ChangeId>)
    requires after == before.(outbox := after.outbox) && after.outbox.Keys == before.outbox.Keys
    requires forall id :: id in before.outbox && id !in ids ==> after.outbox[id] == before.outbox[id]
    requires forall id :: id in before.outbox && id in ids ==> after.outbox[id].attempted
    requires forall id :: id in before.outbox ==> after.outbox[id].(attempted := before.outbox[id].attempted) == before.outbox[id]
    ensures after == MarkedDb(before, ids)
  {
    assert after.outbox == MarkAttempted(before.outbox, set id | id in ids);
  }

  lemma SentIdsApart(outbox: Outbox, ids: seq<ChangeId>)
    requires forall i, j :: 0 <= i < j < |ids| ==> ids[i] != ids[j]
    requires forall i :: 0 <= i < |ids| ==> ids[i] in outbox
    ensures DistinctIds(Batch(outbox, ids))
  {
  }

  // ----- The same push as steps of the protocol -----

  /** Every remaining result settled, first to last. */
  ghost function SettleRest(n: Node): (m: Node)
    requires n.phase.Settling?
    ensures m.phase.Settling? && m.phase.todo == []
    decreases |n.phase.todo|
  {
    if n.phase.todo == [] then n else SettleRest(Settle(n, 0))
  }

  ghost function ResultsOf(answers: seq<Answer>): (results: seq<Result>)
    ensures |results| == |answers| && forall i :: 0 <= i < |answers| ==> results[i] == answers[i].result
  {
    seq(|answers|, i requires 0 <= i < |answers| => answers[i].result)
  }

  lemma SettleOneEach(o: Outbox, r: Result)
    ensures SettleEach(o, [r]) == SettledOutbox(o, r)
  {
    hide SettledOutbox;
    assert [r][..0] == [];
  }

  lemma SettleHead(n: Node)
    requires n.phase.Settling? && n.phase.todo != []
    ensures Settle(n, 0).phase == Settling(n.phase.todo[1..])
    ensures Settle(n, 0).db == n.db.(outbox := SettledOutbox(n.db.outbox, n.phase.todo[0].result))
  {
    hide SettledOutbox;
    assert n.phase.todo[..0] + n.phase.todo[1..] == n.phase.todo[1..];
  }

  lemma {:induction false} SettleRestIs(n: Node)
    requires n.phase.Settling?
    ensures SettleRest(n).db == n.db.(outbox := SettleEach(n.db.outbox, ResultsOf(n.phase.todo)))
    decreases |n.phase.todo|
  {
    hide SettledOutbox, Settle;
    var todo := n.phase.todo;
    if todo == [] {
      assert ResultsOf(todo) == [];
    } else {
      hide SettleEach;
      SettleHead(n);
      SettleRestIs(Settle(n, 0));
      assert ResultsOf(todo) == [todo[0].result] + ResultsOf(todo[1..]);
      SettleAppend(n.db.outbox, [todo[0].result], ResultsOf(todo[1..]));
      SettleOneEach(n.db.outbox, todo[0].result);
    }
  }

  lemma DisposedSame(o: Outbox, a: Outbox, b: Outbox, r: Result)
    requires r.id in o && Disposed(o, a, r) && Disposed(o, b, r)
    ensures (r.id in a <==> r.id in b) && (r.id in a ==> a[r.id] == b[r.id])
  {
  }

  /** Results with distinct ids may be settled in any order. */
  lemma SettleInAnyOrder(o: Outbox, a: seq<Result>, b: seq<Result>)
    requires IdsApart(a) && IdsApart(b) && forall r :: r in a <==> r in b
    ensures SettleEach(o, a) == SettleEach(o, b)
  {
    hide SettledOutbox, SettleEach, Disposed;
    SettleEachDisposes(o, a);
    SettleEachDisposes(o, b);
    var p, q := SettleEach(o, a), SettleEach(o, b);
    forall id | id in o ensures (id in p <==> id in q) && (id in p ==> p[id] == q[id]) {
      if r :| r in a && r.id == id {
        DisposedSame(o, p, q, r);
      }
    }
  }

  /** The ids and rows of a reply are those of the batch, in its order. */
  ghost predicate InOrder(batch: seq<Change>, reply: seq<Result>) {
    |reply| == |batch| && forall i :: 0 <= i < |batch| ==> reply[i].id == batch[i].id
  }

  lemma RestOfReply(batch: seq<Change>, reply: seq<Result>)
    requires InOrder(batch, reply) && IdsApart(reply)
    ensures var rest := ResultsOf(Unsettled(Answers(batch, reply)));
      IdsApart(rest) && forall r :: r in rest <==> r in reply && !Acknowledges(r)
  {
    var answers := Answers(batch, reply);
    UnsettledIdsApart(answers);
    var rest := Unsettled(answers);
    forall r ensures r in ResultsOf(rest) <==> r in reply && !Acknowledges(r) {
      if r in ResultsOf(rest) {
        var i :| 0 <= i < |rest| && ResultsOf(rest)[i] == r;
        assert rest[i] in answers;
      }
      if r in reply && !Acknowledges(r) {
        var i :| 0 <= i < |reply| && reply[i] == r;
        assert answers[i] in answers && answers[i] in rest;
        var j :| 0 <= j < |rest| && rest[j] == answers[i];
        assert ResultsOf(rest)[j] == r;
      }
    }
  }

  lemma {:induction false} UnsettledIdsApart(answers: seq<Answer>)
    requires IdsApart(ResultsOf(answers))
    ensures IdsApart(ResultsOf(Unsettled(answers)))
  {
    if answers != [] {
      var n := |answers| - 1;
      var before := answers[..n];
      assert ResultsOf(before) == ResultsOf(answers)[..n];
      UnsettledIdsApart(before);
      var rest := Unsettled(before);
      forall i | 0 <= i < |rest| ensures rest[i].result.id != answers[n].result.id {
        assert rest[i] in before;
        var j :| 0 <= j < n && answers[j] == rest[i];
        assert ResultsOf(answers)[j].id != ResultsOf(answers)[n].id;
      }
      assert ResultsOf(rest + [answers[n]]) == ResultsOf(rest) + [answers[n].result];
    }
  }

  /** The batch is sent and this reply to it has arrived. */
  ghost function Replied(n: Node, ids: seq<ChangeId>, reply: seq<Result>): Node
    requires CanSend(n, ids)
  {
    Send(n, ids).(phase := Pushing(Send(n, ids).phase.batch, {reply}))
  }

  /** A settled push ends where sending, delivering and settling end in the protocol. */
  lemma SettledPushIsSteps(n: Node, ids: seq<ChangeId>, reply: seq<Result>)
    requires CanSend(n, ids) && InOrder(Replied(n, ids, reply).phase.batch, reply) && CanDeliver(Replied(n, ids, reply), reply)
    ensures SettleRest(Deliver(Replied(n, ids, reply), reply)).db == SettledDb(MarkedDb(n.db, ids), reply)
  {
    hide AcknowledgeAll, SettledOutbox, SettleEach;
    var heard := Replied(n, ids, reply);
    var after := Deliver(heard, reply);
    assert IdsApart(reply);
    SettleRestIs(after);
    RestOfReply(heard.phase.batch, reply);
    RestOfIsRest(reply);
    SettleInAnyOrder(after.db.outbox, ResultsOf(after.phase.todo), RestOf(reply));
  }

  /** A failed push ends where losing the reply and settling end in the protocol. */
  lemma FailedPushIsSteps(n: Node, ids: seq<ChangeId>, kind: FailureKind)
    requires CanSend(n, ids) && !kind.Conflicting?
    ensures SettleRest(Lose(Send(n, ids), kind)).db ==
      MarkedDb(n.db, ids).(outbox := FailedOutbox(MarkedDb(n.db, ids).outbox, ids, kind))
  {
    hide Lose, SettleEach, FailedOutbox, MarkedDb, MarkAttempted, Batch;
    var after := Lose(Send(n, ids), kind);
    LostAnswers(n, ids, kind);
    SettleRestIs(after);
    FailuresSettle(after.db.outbox, ids, ResultsOf(after.phase.todo), kind);
  }

  /** Each change of the batch answered by the request's own failure. */
  ghost predicate AllFail(ids: seq<ChangeId>, results: seq<Result>, kind: FailureKind) {
    && |results| == |ids| && IdsApart(results)
    && forall i :: 0 <= i < |ids| ==> results[i].id == ids[i] && results[i].outcome == Error(kind, kind.Transient?)
  }

  lemma LostAnswers(n: Node, ids: seq<ChangeId>, kind: FailureKind)
    requires CanSend(n, ids) && !kind.Conflicting?
    ensures var after := Lose(Send(n, ids), kind);
      after.phase.Settling? && after.db == MarkedDb(n.db, ids) && AllFail(ids, ResultsOf(after.phase.todo), kind)
  {
    hide MarkAttempted;
  }

  lemma FailuresSettle(o: Outbox, ids: seq<ChangeId>, results: seq<Result>, kind: FailureKind)
    requires AllFail(ids, results, kind)
    ensures SettleEach(o, results) == FailedOutbox(o, ids, kind)
  {
    hide SettleEach, Disposed;
    SettleEachDisposes(o, results);
    var q := SettleEach(o, results);
    forall id | id in o ensures id in q && q[id] == FailedOutbox(o, ids, kind)[id] {
      if id in ids {
        var i :| 0 <= i < |ids| && ids[i] == id;
        assert results[i] in results && results[i].id == id;
        FailureDisposed(o, q, results[i], kind);
      } else {
        forall r | r in results ensures r.id != id {
          var i :| 0 <= i < |results| && results[i] == r;
          assert r.id == ids[i];
        }
      }
    }
  }

  lemma FailureDisposed(o: Outbox, q: Outbox, r: Result, kind: FailureKind)
    requires r.id in o && Disposed(o, q, r) && r.outcome == Error(kind, kind.Transient?)
    ensures r.id in q
      && q[r.id] == o[r.id].(status := if kind.Transient? then Retry else Blocked(kind, None), attempted := true)
  {
  }

  class Service {
    const store: Store

    constructor (store: Store)
      ensures this.store == store
    {
      this.store := store;
    }

    method ParkFailure(r: Result)
      requires store.Valid() && r.outcome.Error?
      modifies store`outbox
      ensures store.Valid() && store.outbox == SettledOutbox(old(store.outbox), r)
    {
      if r.outcome.retryable || r.outcome.kind.Transient? {
        store.DeferId(r.id);
      } else {
        store.BlockId(r.id, r.outcome.kind, None);
      }
    }

    method BlockConflicts(conflicts: seq<Result>)
      requires store.Valid() && forall r :: r in conflicts ==> r.outcome.Conflict?
      modifies store`outbox
      ensures store.Valid() && store.outbox == SettleEach(old(store.outbox), conflicts)
    {
      var i := 0;
      while i < |conflicts|
        invariant 0 <= i <= |conflicts| && store.Valid()
        invariant store.outbox == SettleEach(old(store.outbox), conflicts[..i])
      {
        store.BlockId(conflicts[i].id, Conflicting, conflicts[i].record);
        assert conflicts[..i + 1][..i] == conflicts[..i];
        i := i + 1;
      }
      assert conflicts[..i] == conflicts;
    }

    method ParkFailures(errors: seq<Result>)
      requires store.Valid() && forall r :: r in errors ==> r.outcome.Error?
      modifies store`outbox
      ensures store.Valid() && store.outbox == SettleEach(old(store.outbox), errors)
    {
      var i := 0;
      while i < |errors|
        invariant 0 <= i <= |errors| && store.Valid()
        invariant store.outbox == SettleEach(old(store.outbox), errors[..i])
      {
        ParkFailure(errors[i]);
        assert errors[..i + 1][..i] == errors[..i];
        i := i + 1;
      }
      assert errors[..i] == errors;
    }

    /** Acknowledge, drop, block and park; an acknowledgement that does not fit stops it all. */
    method SettleReply(results: seq<Result>) returns (ok: bool)
      requires store.Valid()
      modifies store`local, store`outbox
      ensures store.Valid() && ok == AcknowledgeAll(old(store.Contents()), WithState(results)).Some?
      ensures !ok ==> store.Contents() == old(store.Contents())
      ensures ok ==>
        var db := AcknowledgeAll(old(store.Contents()), WithState(results)).value;
        store.Contents() == db.(outbox := SettleEach(db.outbox, RestOf(results)))
    {
      hide AcknowledgeAll, SettledOutbox;
      ok := store.AcknowledgeAccepted(WithState(results));
      if !ok {
        return;
      }
      ghost var acked := store.outbox;
      var stateless := Chosen(results, Stateless);
      var conflicts := Chosen(results, (r: Result) => r.outcome.Conflict?);
      var errors := Chosen(results, (r: Result) => r.outcome.Error?);
      SettleStateless(acked, stateless);
      store.DeleteIds(set r | r in stateless :: r.id);
      BlockConflicts(conflicts);
      SettleAppend(acked, stateless, conflicts);
      ParkFailures(errors);
      SettleAppend(acked, stateless + conflicts, errors);
      assert RestOf(results) == stateless + conflicts + errors;
    }

    /** No usable response: every change of the batch fails like the request did. */
    method FailBatch(ids: seq<ChangeId>, kind: FailureKind)
      requires store.Valid()
      modifies store`outbox
      ensures store.Valid() && store.outbox.Keys == old(store.outbox).Keys
      ensures store.outbox == FailedOutbox(old(store.outbox), ids, kind)
      ensures forall id :: id in old(store.outbox) ==>
        store.outbox[id] == if id !in ids then old(store.outbox)[id]
          else old(store.outbox)[id].(status := if kind.Transient? then Retry else Blocked(kind, None), attempted := true)
    {
      var i := 0;
      while i < |ids|
        invariant 0 <= i <= |ids| && store.Valid() && store.outbox.Keys == old(store.outbox).Keys
        invariant forall id :: id in old(store.outbox) ==>
          store.outbox[id] == if id !in ids[..i] then old(store.outbox)[id]
            else old(store.outbox)[id].(status := if kind.Transient? then Retry else Blocked(kind, None), attempted := true)
      {
        if kind.Transient? {
          store.DeferId(ids[i]);
        } else {
          store.BlockId(ids[i], kind, None);
        }
        assert ids[..i + 1] == ids[..i] + [ids[i]];
        i := i + 1;
      }
      assert ids[..i] == ids;
    }

    /** One push request: mark the selected changes as sent, then settle what comes back. A reply that
      * is not exact fails like a lost one. */
    method ProcessPush(project: ProjectId, ids: seq<ChangeId>, response: Response) returns (outcome: PushOutcome)
      requires store.Valid() && forall i, j :: 0 <= i < j < |ids| ==> ids[i] != ids[j]
      requires forall i :: 0 <= i < |ids| ==> ids[i] in store.outbox
      modifies store`local, store`outbox
      ensures store.Valid()
      ensures var marked := MarkedDb(old(store.Contents()), ids); var batch := Batch(old(store.outbox), ids);
        match outcome
        case Settled =>
          response.Heard? && ExactReply(EncodedAll(response.results, project), batch, project)
          && AcknowledgeAll(marked, WithState(response.results)).Some?
          && store.Contents() == SettledDb(marked, response.results)
        case FailedAs(kind) =>
          response == (if response.NoReply? then NoReply(kind) else response)
          && (response.Heard? ==> kind.Transient? && !ExactReply(EncodedAll(response.results, project), batch, project))
          && store.Contents() == marked.(outbox := FailedOutbox(marked.outbox, ids, kind))
        case Raised =>
          response.Heard? && ExactReply(EncodedAll(response.results, project), batch, project)
          && AcknowledgeAll(marked, WithState(response.results)).None? && store.Contents() == marked
    {
      hide AcknowledgeAll, ExactReply, EncodedAll, FailedOutbox, MarkedDb, SettleEach, RestOf, WithState, OnePerKey;
      ghost var before := store.Contents();
      var changes := Batch(store.outbox, ids);
      SentIdsApart(store.outbox, ids);
      store.MarkIdsAttempted(ids);
      MarkedIs(before, store.Contents(), ids);
      if response.NoReply? {
        FailBatch(ids, response.kind);
        return FailedAs(response.kind);
      }
      var results := ValidatedResults(project, changes, Some(EncodedAll(response.results, project)));
      if results.None? {
        FailBatch(ids, Transient);
        return FailedAs(Transient);
      }
      var ok := SettleReply(response.results);
      outcome := if ok then Settled else Raised;
    }

    // ----- Conflict resolution -----

    ghost predicate Resolvable(id: ChangeId, expected: Option<int>)
      reads store
    {
      && OpenConflict(store.Contents(), id)
      && (expected.Some? ==>
          var saved := store.outbox[id].status.saved; saved.Some? && saved.value.version == expected.value)
    }

    method RequireConflict(id: ChangeId, expected: Option<int>) returns (ok: bool)
      ensures ok == Resolvable(id, expected)
    {
      if id !in store.outbox || !store.outbox[id].status.Blocked? || !store.outbox[id].status.kind.Conflicting? {
        return false;
      }
      var saved := store.outbox[id].status.saved;
      ok := expected.None? || (saved.Some? && saved.value.version == expected.value);
    }

    method ResolveKeepMine(id: ChangeId, expected: Option<int>, newId: ChangeId) returns (ok: bool)
      requires store.Valid() && newId !in store.outbox
      modifies store`outbox
      ensures store.Valid()
      ensures ok == (old(Resolvable(id, expected)) && KeepMine(old(store.Contents()), id, newId).Some?)
      ensures store.Contents() == if ok then KeepMine(old(store.Contents()), id, newId).value else old(store.Contents())
    {
      ok := RequireConflict(id, expected);
      if !ok {
        return;
      }
      var e := store.outbox[id];
      var saved := e.status.saved;
      if saved.None? || saved.value.version < 1 || e.key !in store.local {
        return false;
      }
      var mine := store.local[e.key].copy.version;
      var target := if saved.value.version >= mine then saved.value.version else mine;
      var _ := store.ReplaceEntry(e.key, e.op, Some(target), e.record, true, newId);
    }

    method TakeCopy(id: ChangeId, copy: Copy)
      requires store.Valid() && id in store.outbox
      modifies store`local, store`outbox
      ensures store.Valid() && store.Contents() == TakeServerCopy(old(store.Contents()), id, copy)
    {
      var k := store.outbox[id].key;
      store.DeleteId(id);
      store.ApplyPulledCopy(k, copy);
    }

    method ResolveUseServer(id: ChangeId, expected: Option<int>) returns (ok: bool)
      requires store.Valid()
      modifies store
      ensures store.Valid()
      ensures ok == (old(Resolvable(id, expected)) && UseServer(old(store.Contents()), id).Some?)
      ensures store.Contents() == if ok then UseServer(old(store.Contents()), id).value else old(store.Contents())
    {
      ok := RequireConflict(id, expected);
      if !ok || store.outbox[id].status.saved.None? {
        return false;
      }
      TakeCopy(id, store.outbox[id].status.saved.value);
      store.watermark := 0;
    }

    /** Write the chosen fields over the row just taken and mark it as edited. */
    method ApplyMergedFields(k: Key, r: Record) returns (ok: bool)
      modifies store`local
      ensures ok == (k in old(store.local))
      ensures !ok ==> store.local == old(store.local)
      ensures ok ==>
        var copy := old(store.local)[k].copy;
        store.local == old(store.local)[k :=
          Local(copy.(code := if r.code.Given? then r.code.code else copy.code, fields := copy.fields + r.fields), true)]
    {
      ok := k in store.local;
      if ok {
        var copy := store.local[k].copy;
        copy := copy.(fields := copy.fields + r.fields);
        if r.code.Given? {
          copy := copy.(code := r.code.code);
        }
        store.local := store.local[k := Local(copy, true)];
      }
    }

    /** Take the server's row, put the chosen fields over it and queue them on its version. */
    method ResolveMerge(id: ChangeId, expected: Option<int>, r: Record, newId: ChangeId) returns (ok: bool)
      requires store.Valid() && newId !in store.outbox
      modifies store
      ensures store.Valid()
      ensures ok == (old(Resolvable(id, expected)) && Merge(old(store.Contents()), id, r, newId).Some?)
      ensures store.Contents() == if ok then Merge(old(store.Contents()), id, r, newId).value else old(store.Contents())
    {
      ok := RequireConflict(id, expected);
      if !ok {
        return;
      }
      var e := store.outbox[id];
      if !e.op.Upsert? || e.status.saved.None? || e.status.saved.value.deleted || e.status.saved.value.version < 1
         || e.key !in store.local || store.local[e.key].copy.version > e.status.saved.value.version
      {
        return false;
      }
      TakeCopy(id, e.status.saved.value);
      ok := ApplyMergedFields(e.key, r);
      var _ := store.ReplaceEntry(e.key, Upsert, Some(e.status.saved.value.version), r, true, newId);
      store.watermark := 0;
    }
  }
}
