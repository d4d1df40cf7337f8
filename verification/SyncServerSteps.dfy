/** A push keeps the invariant after every single change, whatever batch reaches the server. */
module SyncServerSteps {
  import opened Protocol
  import opened PushRules
  import opened LocalDb
  import opened SyncModel
  import opened SyncInvariant
  import opened SyncGrowth
  import ServerHistory

  function At(w: World, s: Server): World {
    w.(server := s)
  }

  // ----- One change decided for the first time -----

  lemma DecideShape(s: Server, user: ClientId, role: Role, ch: Change, verdict: Verdict)
    ensures var r := DecideAndStore(s, user, role, ch, verdict).result;
      && r.id == ch.id && r.key == ch.key && !r.replayed && r.receiptVersion.None? && ErrorOk(r)
      && (r.outcome.Conflict? ==>
          ch.key in s.rows && r.record == Some(s.rows[ch.key].copy) && r.version == Some(s.rows[ch.key].copy.version))
      && (r.outcome.Accepted? && r.version.None? ==> r.record.None? && ch.op.Delete? && ch.key !in s.rows)
      && (r.outcome.Accepted? && r.version.Some? ==>
          r.record.Some? && r.version == Some(r.record.value.version))
  {
    hide Updated, SoftDeleted, Created, CodeTaken, Allowed, BaseMatches;
  }

  lemma StoredGrows(w: World, v: World)
    requires Grows(w, v)
    ensures forall user, ch, r :: StoredOk(w.server, user, ch, r) ==> StoredOk(v.server, user, ch, r)
  {
    KnowledgeGrows(w, v);
  }

  /** The sender of a change accepted on an existing row knows the version it replaces. */
  lemma AcceptedBaseKnown(w: World, c: ClientId, seen: set<KeyCopy>, k: Key, base: Option<int>)
    requires ServerHistory.ArchiveCurrent(w.server) && OwnersOk(w) && k in w.server.rows
    requires BaseOk(w, c, seen, k, base) && BaseMatches(w.server.rows[k].copy, base)
    ensures Knows(w.server, c, seen, k, w.server.rows[k].copy.version)
  {
  }

  lemma CurrentInArchive(s: Server, k: Key)
    requires ServerHistory.ArchiveCurrent(s) && k in s.rows
    ensures InArchive(s, k, s.rows[k].copy)
  {
  }

  lemma WriteIsStored(s: Server, t: Server, c: ClientId, k: Key, copy: Copy)
    requires ServerHistory.OneWrite(s, t, k, copy, Device(c))
    ensures InArchive(t, k, copy) && Wrote(t, c, k, copy.version)
  {
  }

  lemma FreshStored(w: World, c: ClientId, role: Role, ch: Change, verdict: Verdict)
    requires WorldOk(w) && ch.id !in w.server.receipts
    ensures var d := DecideAndStore(w.server, c, role, ch, verdict);
      ServerHistory.Good(d.server) && Grows(w, At(w, d.server)) && StoredOk(d.server, c, ch, d.result)
  {
    hide DecideAndStore, OwnersOk, ReceiptsOk, ServerHistory.RowsStamped, ServerHistory.CodesUnique,
         ServerHistory.ArchiveCurrent, ServerHistory.ArchiveFull, ServerHistory.ArchiveWithin, ServerHistory.AuditOk,
         ServerHistory.VersionSum;
    var d := DecideAndStore(w.server, c, role, ch, verdict);
    ServerHistory.FreshChangeKeeps(w.server, c, role, ch, verdict);
    ServerHistory.DecideEffect(w.server, c, role, ch, verdict);
    DecideShape(w.server, c, role, ch, verdict);
    if d.result.outcome.Conflict? {
      CurrentInArchive(w.server, ch.key);
      KnowledgeGrows(w, At(w, d.server));
    } else if d.result.outcome.Accepted? && d.result.version.Some? {
      WriteIsStored(w.server, d.server, c, ch.key, d.server.rows[ch.key].copy);
    }
  }

  /** What a fresh change does to the row owners and, if it overwrites, what its sender knew. */
  ghost predicate FreshRows(w: World, t: Server, c: ClientId, seen: set<KeyCopy>, ch: Change) {
    && (forall k :: k in t.rows && k !in w.server.rows ==> k == ch.key && Owned(w, k, c))
    && (forall k :: k in w.server.rows && k != ch.key ==> k in t.rows && t.rows[k] == w.server.rows[k])
    && (ch.key in w.server.rows && t.rows != w.server.rows ==>
        ch.base == Some(w.server.rows[ch.key].copy.version)
        && Knows(w.server, c, seen, ch.key, w.server.rows[ch.key].copy.version))
  }

  lemma AbsentKeyIsOwned(w: World, c: ClientId, seen: set<KeyCopy>, k: Key, base: Option<int>)
    requires ServerHistory.ArchiveWithin(w.server) && k !in w.server.rows && BaseOk(w, c, seen, k, base)
    ensures Owned(w, k, c)
  {
  }

  lemma WriteKeepsOwners(w: World, t: Server, c: ClientId, k: Key, copy: Copy)
    requires OwnersOk(w) && ServerHistory.OneWrite(w.server, t, k, copy, Device(c))
    requires k !in w.server.rows ==> Owned(w, k, c)
    requires k in w.server.rows ==> w.server.rows[k].copy.version >= 1
    ensures OwnersOk(At(w, t))
  {
  }

  lemma FreshOwners(w: World, c: ClientId, role: Role, ch: Change, verdict: Verdict, seen: set<KeyCopy>)
    requires WorldOk(w) && BaseOk(w, c, seen, ch.key, ch.base)
    ensures FreshRows(w, DecideAndStore(w.server, c, role, ch, verdict).server, c, seen, ch)
    ensures OwnersOk(At(w, DecideAndStore(w.server, c, role, ch, verdict).server))
  {
    hide DecideAndStore, ReceiptsOk, Knows, Owned, OwnersOk, ServerHistory.RowsStamped, ServerHistory.CodesUnique,
         ServerHistory.ArchiveCurrent, ServerHistory.ArchiveFull, ServerHistory.ArchiveWithin, ServerHistory.AuditOk,
         ServerHistory.VersionSum;
    var d := DecideAndStore(w.server, c, role, ch, verdict);
    ServerHistory.DecideEffect(w.server, c, role, ch, verdict);
    if d.result.outcome.Accepted? && d.result.version.Some? {
      if ch.key in w.server.rows {
        AcceptedBaseKnown(w, c, seen, ch.key, ch.base);
      } else {
        AbsentKeyIsOwned(w, c, seen, ch.key, ch.base);
      }
      WriteKeepsOwners(w, d.server, c, ch.key, d.server.rows[ch.key].copy);
    } else {
      SameKeepsOwners(w, d.server);
    }
  }

  lemma SameKeepsOwners(w: World, t: Server)
    requires OwnersOk(w) && ServerHistory.SameTables(w.server, t)
    ensures OwnersOk(At(w, t))
  {
  }

  ghost predicate OneReceipt(s: Server, t: Server, ch: Change) {
    forall id :: id in t.receipts && id !in s.receipts ==> id == ch.id && t.receipts[id].payload == Some(ch)
  }

  lemma ReceiptAppended(w: World, v: World, c: ClientId, ch: Change, r: Result)
    requires ReceiptsOk(w) && Grows(w, v) && StoredOk(v.server, c, ch, r)
    requires ch.id in w.minted && w.minted[ch.id] == c
    requires v.server.receipts == w.server.receipts || v.server.receipts == w.server.receipts[ch.id := Receipt(c, Some(ch), r)]
    ensures ReceiptsOk(v) && OneReceipt(w.server, v.server, ch)
  {
    StoredGrows(w, v);
    hide StoredOk, ServerHistory.Evolves;
    forall id | id in v.server.receipts ensures ReceiptOk(v, id) {
      if v.server.receipts != w.server.receipts && id == ch.id {
      } else {
        assert ReceiptOk(w, id);
      }
    }
  }

  lemma FreshReceipts(w: World, c: ClientId, role: Role, ch: Change, verdict: Verdict)
    requires WorldOk(w) && ch.id !in w.server.receipts && ch.id in w.minted && w.minted[ch.id] == c
    ensures var t := DecideAndStore(w.server, c, role, ch, verdict).server;
      ReceiptsOk(At(w, t)) && OneReceipt(w.server, t, ch)
  {
    hide DecideAndStore, OwnersOk, ReceiptsOk, StoredOk, Grows, ServerHistory.RowsStamped, ServerHistory.CodesUnique,
         ServerHistory.ArchiveCurrent, ServerHistory.ArchiveFull, ServerHistory.ArchiveWithin, ServerHistory.AuditOk,
         ServerHistory.VersionSum;
    var d := DecideAndStore(w.server, c, role, ch, verdict);
    FreshStored(w, c, role, ch, verdict);
    ServerHistory.DecideEffect(w.server, c, role, ch, verdict);
    ReceiptAppended(w, At(w, d.server), c, ch, d.result);
  }

  /** A result of this push and the row it speaks of. */
  ghost predicate AnsweredNow(s: Server, watermark: nat, c: ClientId, ch: Change, r: Result) {
    && ResultOk(s, watermark, c, ch, r)
    && (Acknowledges(r) ==> ch.key in s.rows && r.record == Some(s.rows[ch.key].copy))
  }

  lemma StoredIsCurrent(s: Server, watermark: nat, c: ClientId, ch: Change, r: Result)
    requires ServerHistory.CodesUnique(s.rows) && StoredOk(s, c, ch, r) && (!r.outcome.Error? ==> Answered(s, r))
    requires r.outcome.Accepted? ==> (r.record.Some? <==> ch.key in s.rows)
    requires r.outcome.Accepted? && r.record.Some? ==> r.record == Some(s.rows[ch.key].copy)
    ensures ResultOk(s, watermark, c, ch, r)
  {
  }

  // ----- A change id met again -----

  lemma ReplayIsOk(s: Server, watermark: nat, c: ClientId, ch: Change, r: Result)
    requires ServerHistory.TablesGood(s) && StoredOk(s, c, ch, r) && (!r.outcome.Error? ==> Answered(s, r))
    ensures AnsweredNow(s, watermark, c, ch, Refreshed(s.rows, r.(replayed := true)))
  {
    hide ServerHistory.VersionSum, ServerHistory.RowsStamped, ServerHistory.ArchiveFull;
    if r.outcome.Accepted? && r.record.Some? {
      assert VersionOf(ch.key, r.record.value.version) in s.archive;
    }
  }

  // ----- Every change of a batch -----

  /** Rows and receipts that are new belong to the pushing client. */
  ghost predicate NewFrom(w: World, s: Server, c: ClientId) {
    && (forall k :: k in s.rows && k !in w.server.rows ==> Owned(w, k, c))
    && (forall id :: id in s.receipts && id !in w.server.receipts ==> id in w.minted && w.minted[id] == c)
  }

  ghost predicate Handling(w: World, c: ClientId, n: Node, p: PushState) {
    && ServerHistory.PushOk(p)
    && WorldOk(At(w, p.server))
    && Grows(w, At(w, p.server))
    && FromSent(At(w, p.server), c, n)
    && NewFrom(w, p.server, c)
    && (forall id :: id in p.handled ==>
        p.handled[id].change in n.sent && p.handled[id].change.id == id
        && StoredOk(p.server, c, p.handled[id].change, p.handled[id].result)
        && (!p.handled[id].result.outcome.Error? ==> Answered(p.server, p.handled[id].result)))
  }

  /** Honest resends always match their first payload. */
  lemma HonestDuplicate(w: World, c: ClientId, n: Node, p: PushState, ch: Change)
    requires Handling(w, c, n, p) && PayloadsOk(w, c, n) && ch in n.sent && Seen(p, ch.id)
    ensures DuplicateReason(c, ch, Lookup(p.existing, ch.id),
              if ch.id in p.handled then Some(p.handled[ch.id].change) else None).None?
    ensures ch.id in p.existing ==> StoredOk(p.server, c, ch, p.existing[ch.id].result)
    ensures ch.id in p.handled ==> p.handled[ch.id].change == ch
    ensures ch.id in p.existing ==> Answered(p.server, p.existing[ch.id].result)
  {
    hide ServerHistory.Good, Grows, OwnersOk, StoredOk, Owned;
    assert SentPayloadOk(w, c, n, ch);
    if ch.id in p.existing {
      assert ReceiptOk(At(w, p.server), ch.id);
      var first := p.server.receipts[ch.id].payload.value;
      assert first in n.sent && first.id == ch.id;
      FirstKey(p.server, c, ch, p.existing[ch.id].result);
    } else {
      assert p.handled[ch.id].change in n.sent;
    }
  }

  lemma DuplicateStep(w: World, c: ClientId, n: Node, p: PushState, role: Role, ch: Change, verdict: Verdict)
    requires Handling(w, c, n, p) && PayloadsOk(w, c, n) && ch in n.sent && Seen(p, ch.id)
    ensures PushOne(p, c, role, ch, verdict) == p.(results := p.results + [Replay(p, c, ch)])
    ensures AnsweredNow(p.server, n.db.watermark, c, ch, Replay(p, c, ch))
  {
    hide AnsweredNow, StoredOk, WorldOk, Grows, FromSent, NewFrom, PayloadsOk, ServerHistory.RowsStamped,
         ServerHistory.CodesUnique, ServerHistory.ArchiveCurrent, ServerHistory.ArchiveFull,
         ServerHistory.ArchiveWithin, ServerHistory.AuditOk, ServerHistory.VersionSum;
    HonestDuplicate(w, c, n, p, ch);
    var first := if ch.id in p.existing then p.existing[ch.id].result else p.handled[ch.id].result;
    ReplayIsOk(p.server, n.db.watermark, c, ch, first);
    assert first.key == ch.key by { FirstKey(p.server, c, ch, first); }
  }

  lemma FirstKey(s: Server, c: ClientId, ch: Change, r: Result)
    requires StoredOk(s, c, ch, r)
    ensures r.key == ch.key && r.id == ch.id
  {
  }

  lemma SentGrows(w: World, v: World, c: ClientId, n: Node, ch: Change, seen: set<KeyCopy>)
    requires FromSent(w, c, n) && FreshRows(w, v.server, c, seen, ch) && OneReceipt(w.server, v.server, ch)
    requires ServerHistory.Evolves(w.server, v.server) && v == At(w, v.server) && ch in n.sent
    ensures FromSent(v, c, n)
  {
    hide ServerHistory.Evolves;
    forall id | id in v.server.receipts && id in v.minted && v.minted[id] == c
      ensures v.server.receipts[id].payload.Some? && v.server.receipts[id].payload.value in n.sent
    {
      if id in w.server.receipts {
        ReceiptSame(w.server, v.server, id);
      }
    }
    forall k | k in v.server.rows && Owned(v, k, c) ensures SentKey(n.sent, k) {
      assert k in w.server.rows || k == ch.key;
    }
  }

  lemma NewGrows(w: World, s: Server, t: Server, c: ClientId, ch: Change, seen: set<KeyCopy>)
    requires NewFrom(w, s, c) && FreshRows(At(w, s), t, c, seen, ch) && OneReceipt(s, t, ch)
    requires ch.id in w.minted && w.minted[ch.id] == c
    ensures NewFrom(w, t, c)
  {
  }

  lemma ReceiptSame(s: Server, t: Server, id: ChangeId)
    requires ServerHistory.Evolves(s, t) && id in s.receipts
    ensures id in t.receipts && t.receipts[id] == s.receipts[id]
  {
  }

  lemma FreshAnswered(s: Server, role: Role, c: ClientId, ch: Change, verdict: Verdict, watermark: nat)
    requires ServerHistory.Good(s) && StoredOk(DecideAndStore(s, c, role, ch, verdict).server, c, ch,
                                                DecideAndStore(s, c, role, ch, verdict).result)
    requires ch.id !in s.receipts
    ensures var d := DecideAndStore(s, c, role, ch, verdict); AnsweredNow(d.server, watermark, c, ch, d.result)
    ensures var d := DecideAndStore(s, c, role, ch, verdict); !d.result.outcome.Error? ==> Answered(d.server, d.result)
  {
    hide DecideAndStore, StoredOk, ResultOk, ServerHistory.RowsStamped, ServerHistory.CodesUnique,
         ServerHistory.ArchiveCurrent, ServerHistory.ArchiveFull, ServerHistory.ArchiveWithin, ServerHistory.AuditOk,
         ServerHistory.VersionSum;
    var d := DecideAndStore(s, c, role, ch, verdict);
    ServerHistory.FreshChangeKeeps(s, c, role, ch, verdict);
    ServerHistory.DecideEffect(s, c, role, ch, verdict);
    DecideShape(s, c, role, ch, verdict);
    StoredIsCurrent(d.server, watermark, c, ch, d.result);
  }

  lemma AnsweredGrows(s: Server, t: Server, r: Result)
    requires ServerHistory.Evolves(s, t) && Answered(s, r)
    ensures Answered(t, r)
  {
  }

  lemma FreshStep(w: World, c: ClientId, n: Node, p: PushState, role: Role, ch: Change, verdict: Verdict)
    requires Handling(w, c, n, p) && BasesOk(w, c, n) && PayloadsOk(w, c, n) && ch in n.sent && !Seen(p, ch.id)
    ensures var q := PushOne(p, c, role, ch, verdict); var d := DecideAndStore(p.server, c, role, ch, verdict);
      && q.server == d.server && q.results == p.results + [d.result]
      && Handling(w, c, n, q) && ServerHistory.Evolves(p.server, q.server)
      && FreshRows(At(w, p.server), q.server, c, n.seen, ch)
      && AnsweredNow(q.server, n.db.watermark, c, ch, d.result)
  {
    hide DecideAndStore, ResultOk, StoredOk, OwnersOk, ReceiptsOk, FreshRows, FromSent, NewFrom, BaseOk, OneReceipt,
         AnsweredNow, SavedOk, ServerHistory.Evolves, ServerHistory.RowsStamped, ServerHistory.CodesUnique,
         ServerHistory.ArchiveCurrent, ServerHistory.ArchiveFull, ServerHistory.ArchiveWithin, ServerHistory.AuditOk,
         ServerHistory.VersionSum;
    var v := At(w, p.server);
    var d := DecideAndStore(p.server, c, role, ch, verdict);
    var q := PushOne(p, c, role, ch, verdict);
    assert q.handled == p.handled[ch.id := Handled(ch, d.result)];
    assert At(w, q.server) == At(v, d.server);
    assert SentPayloadOk(w, c, n, ch);
    KnowledgeGrows(w, v);
    FreshStored(v, c, role, ch, verdict);
    FreshOwners(v, c, role, ch, verdict, n.seen);
    FreshReceipts(v, c, role, ch, verdict);
    ServerHistory.PushOneKeeps(p, c, role, ch, verdict);
    FreshAnswered(p.server, role, c, ch, verdict, n.db.watermark);
    StoredGrows(v, At(w, q.server));
    ServerHistory.EvolvesTransitive(w.server, p.server, q.server);
    SentGrows(v, At(w, q.server), c, n, ch, n.seen);
    forall id | id in p.handled && !p.handled[id].result.outcome.Error? ensures Answered(q.server, p.handled[id].result) {
      AnsweredGrows(p.server, q.server, p.handled[id].result);
    }
    NewGrows(w, p.server, q.server, c, ch, n.seen);
  }

  ghost predicate AllAnswered(s: Server, watermark: nat, c: ClientId, batch: seq<Change>, results: seq<Result>) {
    |results| <= |batch| &&
    forall i :: 0 <= i < |results| ==> ResultOk(s, watermark, c, batch[i], results[i])
  }

  /** With one change per row, each acknowledged record still is the current row. */
  ghost predicate AllCurrent(s: Server, batch: seq<Change>, results: seq<Result>) {
    |results| <= |batch| &&
    forall i :: 0 <= i < |results| && Acknowledges(results[i]) ==>
      batch[i].key in s.rows && results[i].record == Some(s.rows[batch[i].key].copy)
  }

  lemma AnswersGrow(
    s: Server, t: Server, watermark: nat, c: ClientId, batch: seq<Change>, results: seq<Result>, r: Result)
    requires ServerHistory.Evolves(s, t) && watermark <= s.last && |results| < |batch|
    requires AllAnswered(s, watermark, c, batch, results)
    requires ResultOk(t, watermark, c, batch[|results|], r)
    ensures AllAnswered(t, watermark, c, batch, results + [r])
  {
    hide ResultOk, ServerHistory.Evolves;
    forall i | 0 <= i < |results| ensures ResultOk(t, watermark, c, batch[i], results[i]) {
      ResultGrows(s, t, watermark, c, batch[i], results[i]);
    }
  }

  lemma CurrentGrows(s: Server, t: Server, batch: seq<Change>, results: seq<Result>, r: Result)
    requires AllCurrent(s, batch, results) && |results| < |batch| && DistinctKeys(batch)
    requires forall k :: k in s.rows && k != batch[|results|].key ==> k in t.rows && t.rows[k] == s.rows[k]
    requires Acknowledges(r) ==>
      batch[|results|].key in t.rows && r.record == Some(t.rows[batch[|results|].key].copy)
    ensures AllCurrent(t, batch, results + [r])
  {
  }

  lemma {:induction false} PushFirstOk(
    w: World, c: ClientId, n: Node, role: Role, batch: seq<Change>, verdicts: seq<Verdict>, i: nat)
    requires WorldOk(w) && BasesOk(w, c, n) && PayloadsOk(w, c, n) && BoundaryOk(w, c, n)
    requires n.db.watermark <= w.server.last && CanProcess(n, batch, verdicts) && i <= |batch|
    ensures var p := PushFirst(w.server, c, role, batch, verdicts, i);
      && |p.results| == i && Handling(w, c, n, p)
      && AllAnswered(p.server, n.db.watermark, c, batch, p.results)
      && (DistinctKeys(batch) ==> AllCurrent(p.server, batch, p.results))
  {
    hide PushOne, WorldOk, Handling, BasesOk, BoundaryOk, ResultOk, AllAnswered, AllCurrent;
    if i == 0 {
      PushBeginOk(w, c, n, batch);
    } else {
      PushFirstOk(w, c, n, role, batch, verdicts, i - 1);
      var p := PushFirst(w.server, c, role, batch, verdicts, i - 1);
      PushNext(w, c, n, p, role, batch, verdicts[i - 1]);
    }
  }

  lemma PushBeginOk(w: World, c: ClientId, n: Node, batch: seq<Change>)
    requires WorldOk(w) && PayloadsOk(w, c, n) && BoundaryOk(w, c, n)
    ensures var p := Begin(w.server);
      Handling(w, c, n, p) && AllAnswered(p.server, n.db.watermark, c, batch, []) && AllCurrent(p.server, batch, [])
  {
    hide ServerHistory.Good, OwnersOk, ReceiptsOk, Owned, SentPayloadOk;
  }

  lemma PushNext(
    w: World, c: ClientId, n: Node, p: PushState, role: Role, batch: seq<Change>, verdict: Verdict)
    requires Handling(w, c, n, p) && BasesOk(w, c, n) && PayloadsOk(w, c, n)
    requires n.db.watermark <= w.server.last && |p.results| < |batch| && batch[|p.results|] in n.sent
    requires AllAnswered(p.server, n.db.watermark, c, batch, p.results)
    requires DistinctKeys(batch) ==> AllCurrent(p.server, batch, p.results)
    ensures var q := PushOne(p, c, role, batch[|p.results|], verdict);
      && |q.results| == |p.results| + 1 && Handling(w, c, n, q)
      && AllAnswered(q.server, n.db.watermark, c, batch, q.results)
      && (DistinctKeys(batch) ==> AllCurrent(q.server, batch, q.results))
  {
    hide DecideAndStore, Handling, BasesOk, PayloadsOk, ResultOk, AllAnswered, AllCurrent, DistinctKeys;
    var i := |p.results|;
    var ch := batch[i];
    LastGrew(w, c, n, p);
    if Seen(p, ch.id) {
      DuplicateStep(w, c, n, p, role, ch, verdict);
      HandlingResults(w, c, n, p, Replay(p, c, ch));
      ServerHistory.EvolvesRefl(p.server);
      AnswersGrow(p.server, p.server, n.db.watermark, c, batch, p.results, Replay(p, c, ch));
      if DistinctKeys(batch) {
        CurrentGrows(p.server, p.server, batch, p.results, Replay(p, c, ch));
      }
    } else {
      FreshStep(w, c, n, p, role, ch, verdict);
      var q := PushOne(p, c, role, ch, verdict);
      AnswersGrow(p.server, q.server, n.db.watermark, c, batch, p.results, q.results[i]);
      if DistinctKeys(batch) {
        CurrentGrows(p.server, q.server, batch, p.results, q.results[i]);
      }
    }
  }

  lemma LastGrew(w: World, c: ClientId, n: Node, p: PushState)
    requires Handling(w, c, n, p)
    ensures w.server.last <= p.server.last
  {
  }

  lemma HandlingResults(w: World, c: ClientId, n: Node, p: PushState, r: Result)
    requires Handling(w, c, n, p)
    ensures Handling(w, c, n, p.(results := p.results + [r]))
  {
  }

  lemma RepliesApart(s: Server, watermark: nat, c: ClientId, batch: seq<Change>, reply: seq<Result>)
    requires ServerHistory.CodesUnique(s.rows) && DistinctKeys(batch) && |reply| == |batch|
    requires AllAnswered(s, watermark, c, batch, reply) && AllCurrent(s, batch, reply)
    ensures ReplyOk(s, watermark, c, batch, reply)
  {
    forall i | 0 <= i < |reply| ensures reply[i].key == batch[i].key {
      assert ResultOk(s, watermark, c, batch[i], reply[i]);
    }
    forall i | 0 <= i < |reply| && CarriesCode(reply[i])
      ensures batch[i].key in s.rows && reply[i].record.value == s.rows[batch[i].key].copy && Scored(batch[i].key.kind)
    {
      assert Acknowledges(reply[i]);
    }
    hide ResultOk;
  }
}
