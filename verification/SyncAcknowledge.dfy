/** Applying a push reply keeps the invariant, result by result, and never fails. */
module SyncAcknowledge {
  import opened Protocol
  import opened PushRules
  import opened LocalDb
  import opened SyncModel
  import opened SyncInvariant
  import opened SyncStores
  import ServerHistory

  // ----- The acknowledged results of a reply -----

  ghost predicate Apart(a: Result, b: Result) {
    && a.key != b.key && a.id != b.id
    && (CarriesCode(a) && CarriesCode(b) && a.key.kind == b.key.kind ==>
        a.record.value.code != b.record.value.code)
  }

  ghost predicate PairwiseApart(results: seq<Result>) {
    forall i, j :: 0 <= i < j < |results| ==> Apart(results[i], results[j])
  }

  lemma {:induction false} WithStateApart(reply: seq<Result>)
    requires PairwiseApart(reply)
    ensures PairwiseApart(WithState(reply))
  {
    if reply != [] {
      var n := |reply| - 1;
      WithStateApart(reply[..n]);
      var some := WithState(reply[..n]);
      forall i | 0 <= i < |some| ensures Apart(some[i], reply[n]) {
        assert some[i] in reply[..n];
      }
    }
  }

  /** A result that still has to be acknowledged, with the change it answers. */
  ghost predicate Ackable(w: World, c: ClientId, n: Node, r: Result) {
    exists ch :: ch in n.sent && AckableFor(w, c, n, ch, r)
  }

  ghost predicate AckableFor(w: World, c: ClientId, n: Node, ch: Change, r: Result) {
    Acknowledges(r) && ResultOk(w.server, n.db.watermark, c, ch, r) && Carried(n.db.outbox, ch)
  }

  lemma AckableSeen(w: World, c: ClientId, n: Node, m: Node, r: Result)
    requires Ackable(w, c, n, r) && m == n.(seen := m.seen)
    ensures Ackable(w, c, m, r)
  {
    hide ResultOk, Carried;
    var ch :| ch in n.sent && AckableFor(w, c, n, ch, r);
    assert AckableFor(w, c, m, ch, r);
  }

  lemma ReplyAckable(w: World, c: ClientId, n: Node, batch: seq<Change>, reply: seq<Result>)
    requires BatchOk(n, batch) && ReplyOk(w.server, n.db.watermark, c, batch, reply)
    ensures PairwiseApart(WithState(reply))
    ensures forall r :: r in WithState(reply) ==> Ackable(w, c, n, r)
  {
    forall i, j | 0 <= i < j < |reply| ensures Apart(reply[i], reply[j]) {
      assert ResultOk(w.server, n.db.watermark, c, batch[i], reply[i]);
      assert ResultOk(w.server, n.db.watermark, c, batch[j], reply[j]);
      assert CarriesCode(reply[i]) ==> Acknowledges(reply[i]);
      assert CarriesCode(reply[j]) ==> Acknowledges(reply[j]);
    }
    WithStateApart(reply);
    hide ResultOk, Carried, CodesApart;
    forall r | r in WithState(reply) ensures Ackable(w, c, n, r) {
      var i :| 0 <= i < |reply| && reply[i] == r;
      assert batch[i] in n.sent && AckableFor(w, c, n, batch[i], r);
    }
  }

  // ----- One acknowledgement -----

  /** Entries of other rows are untouched. */
  ghost predicate OthersKept(o: Outbox, q: Outbox, done: set<Key>) {
    && (forall i :: i in o && o[i].key !in done ==> i in q && q[i] == o[i])
    && (forall i :: i in q && q[i].key !in done ==> i in o && q[i] == o[i])
    && (forall i :: i in q ==> i in o && o[i].key == q[i].key)
  }

  ghost predicate CodesKept(local: Locals, after: Locals, r: Result) {
    forall j :: j in after ==>
      (j in local && after[j].copy.code == local[j].copy.code) || after[j].copy.code.None?
      || (j == r.key && r.record.Some? && after[j].copy.code == r.record.value.code)
  }

  ghost predicate Acked(w: World, c: ClientId, n: Node, db: Db, r: Result) {
    && CoreOk(w, c, n.(db := db)) && CoverageOk(w.server.rows, db)
    && db.watermark == n.db.watermark
    && OthersKept(n.db.outbox, db.outbox, {r.key})
    && CodesKept(n.db.local, db.local, r)
  }

  /** What an acknowledgeable result guarantees about the copy it carries. */
  ghost predicate CarriesCopy(s: Server, watermark: nat, r: Result) {
    && r.outcome.Accepted? && r.record.Some? && r.version == Some(r.record.value.version)
    && r.record.value.version >= 1 && InArchive(s, r.key, r.record.value)
    && FreshCopy(s.rows, watermark, r.key, r.record.value)
    && (!Scored(r.key.kind) ==> r.record.value.code.None?)
  }

  lemma AckableFacts(w: World, c: ClientId, n: Node, ch: Change, r: Result)
    requires AckableFor(w, c, n, ch, r) && ServerHistory.ArchiveWithin(w.server)
    ensures CarriesCopy(w.server, n.db.watermark, r) && r.id == ch.id && r.key == ch.key
    ensures ch.op.Upsert? ==> AcknowledgedVersion(r).Some? && Wrote(w.server, c, r.key, AcknowledgedVersion(r).value)
  {
    hide Carried, Wrote;
    assert VersionOf(ch.key, r.record.value.version) in w.server.archive;
  }

  lemma AckSentComputes(n: Node, r: Result)
    requires OnePerKey(n.db.outbox) && r.id in n.db.outbox && n.db.outbox[r.id].key == r.key
    requires r.outcome.Accepted? && r.record.Some? && r.version == Some(r.record.value.version)
    ensures AcknowledgeOne(n.db, r) == Some(Took(n, r.key, r.record.value).db)
  {
    assert n.db.outbox - {r.id} == WithoutKey(n.db.outbox, r.key);
    hide PutCopy;
  }

  lemma TookIsAcked(w: World, c: ClientId, n: Node, r: Result)
    requires CoreOk(w, c, n) && CoverageOk(w.server.rows, n.db) && CarriesCopy(w.server, n.db.watermark, r)
    requires KeyCopy(r.key, r.record.value) in n.seen
    ensures Acked(w, c, n, Took(n, r.key, r.record.value).db, r)
  {
    hide CoreOk, CoverageOk, InArchive, FreshCopy, PutCopy;
    var k, copy := r.key, r.record.value;
    TookKeepsCore(w, c, n, k, copy);
    FreshCopyCovers(w.server.rows, n, k, copy);
    PutCopyEffect(n.db.local, k, copy);
    assert n.(db := Took(n, k, copy).db) == Took(n, k, copy);
  }

  lemma AckSentRow(w: World, c: ClientId, n: Node, ch: Change, r: Result)
    requires CoreOk(w, c, n) && CoverageOk(w.server.rows, n.db) && ServerHistory.ArchiveWithin(w.server)
    requires ch in n.sent && AckableFor(w, c, n, ch, r) && r.id in n.db.outbox
    requires r.record.Some? ==> KeyCopy(r.key, r.record.value) in n.seen
    ensures AcknowledgeOne(n.db, r).Some? && Acked(w, c, n, AcknowledgeOne(n.db, r).value, r)
  {
    hide LocalOk, BasesOk, BoundaryOk, LocalCodesUnique, CoverageOk, AckableFor, AcknowledgeOne, Took, Acked;
    AckableFacts(w, c, n, ch, r);
    assert SentPayloadOk(w, c, n, ch);
    AckSentComputes(n, r);
    TookIsAcked(w, c, n, r);
  }

  ghost function RebasedLocal(n: Node, r: Result): Local
    requires r.key in n.db.local
  {
    AdvancedLocal(n.db.local[r.key], r.key.kind, AcknowledgedVersion(r), if Scored(r.key.kind) then SentCode(r) else Absent)
  }

  ghost function RebasedRecord(e: Entry, r: Result): Record {
    var code := if Scored(r.key.kind) then SentCode(r) else Absent;
    if code.Given? then e.record.(code := code) else e.record
  }

  lemma AckReplacedComputes(n: Node, r: Result, id: ChangeId)
    requires OnePerKey(n.db.outbox) && r.id !in n.db.outbox && r.key in n.db.local
    requires id in n.db.outbox && n.db.outbox[id].key == r.key && Sendable(n.db.outbox[id])
    requires r.outcome.Accepted? && r.record.Some? && r.version == Some(r.record.value.version)
    requires AcknowledgedVersion(r).Some?
    ensures AcknowledgeOne(n.db, r) ==
      Some(Advanced(n, r.key, id, AdvancedBase(n.db.outbox[id].base, AcknowledgedVersion(r)),
                    RebasedRecord(n.db.outbox[id], r), RebasedLocal(n, r)).db)
  {
    assert HasReplacement(n.db.outbox, r.key) && OpenId(n.db.outbox, r.key) == id;
  }

  lemma RebaseAdvances(w: World, c: ClientId, n: Node, r: Result, id: ChangeId)
    requires CoreOk(w, c, n) && id in n.db.outbox && n.db.outbox[id].key == r.key && !n.db.outbox[id].attempted
    requires AcknowledgedVersion(r).Some? && Wrote(w.server, c, r.key, AcknowledgedVersion(r).value)
    requires r.record.Some? && (!Scored(r.key.kind) ==> r.record.value.code.None?)
    requires forall j :: CarriesCode(r) && j in n.db.local && j.kind == r.key.kind ==>
      n.db.local[j].copy.code != r.record.value.code
    requires r.outcome.Accepted?
    ensures r.key in n.db.local
    ensures Advances(w, c, n, r.key, id, AdvancedBase(n.db.outbox[id].base, AcknowledgedVersion(r)), RebasedLocal(n, r))
  {
    hide BoundaryOk, PayloadsOk, Owned;
    var e := n.db.outbox[id];
    assert EntryRowOk(n.db.local, e);
    assert LocalRowOk(w, c, n.seen, r.key, n.db.local[r.key]);
    assert BaseOk(w, c, n.seen, r.key, e.base);
    hide OutboxOk, LocalOk, BasesOk;
  }

  lemma AckReplaced(w: World, c: ClientId, n: Node, ch: Change, r: Result)
    requires CoreOk(w, c, n) && CoverageOk(w.server.rows, n.db) && ServerHistory.ArchiveWithin(w.server)
    requires ch in n.sent && AckableFor(w, c, n, ch, r) && r.id !in n.db.outbox
    requires forall j :: CarriesCode(r) && j in n.db.local && j.kind == r.key.kind ==>
      n.db.local[j].copy.code != r.record.value.code
    ensures AcknowledgeOne(n.db, r).Some? && Acked(w, c, n, AcknowledgeOne(n.db, r).value, r)
  {
    hide LocalOk, BasesOk, BoundaryOk, PayloadsOk, LocalCodesUnique, CoverageOk, AcknowledgeOne, Acked, ResultOk,
         Wrote, FreshCopy, InArchive;
    AckableFacts(w, c, n, ch, r);
    assert Replaced(n.db.outbox, r.key);
    var id :| id in n.db.outbox && n.db.outbox[id].key == r.key && Sendable(n.db.outbox[id]) && !n.db.outbox[id].attempted;
    RebaseAdvances(w, c, n, r, id);
    hide AckableFor, OutboxOk;
    AckReplacedComputes(n, r, id) by { OutboxOneKey(n.db, w, c, n); }
    AdvancedIsAcked(w, c, n, r, id);
  }

  lemma OutboxOneKey(db: Db, w: World, c: ClientId, n: Node)
    requires CoreOk(w, c, n) && n.db == db
    ensures OnePerKey(db.outbox)
  {
  }

  lemma AdvancedIsAcked(w: World, c: ClientId, n: Node, r: Result, id: ChangeId)
    requires CoreOk(w, c, n) && CoverageOk(w.server.rows, n.db)
    requires id in n.db.outbox && r.key in n.db.local && r.record.Some?
    requires Advances(w, c, n, r.key, id, AdvancedBase(n.db.outbox[id].base, AcknowledgedVersion(r)), RebasedLocal(n, r))
    ensures var m := Advanced(n, r.key, id, AdvancedBase(n.db.outbox[id].base, AcknowledgedVersion(r)),
                              RebasedRecord(n.db.outbox[id], r), RebasedLocal(n, r));
      Acked(w, c, n, m.db, r)
  {
    hide CoreOk, CoverageOk, RebasedRecord, AdvancedBase;
    var base, record := AdvancedBase(n.db.outbox[id].base, AcknowledgedVersion(r)), RebasedRecord(n.db.outbox[id], r);
    var m := Advanced(n, r.key, id, base, record, RebasedLocal(n, r));
    AdvancedKeeps(w, c, n, r.key, id, base, record, RebasedLocal(n, r));
    assert n.(db := m.db) == m;
  }

  // ----- The whole transaction -----

  lemma SeenGrows(w: World, c: ClientId, n: Node, seen: set<KeyCopy>)
    requires CoreOk(w, c, n) && n.seen <= seen
    ensures CoreOk(w, c, n.(seen := seen))
  {
    hide SentKey, Owned, LocalCodesUnique, OutboxOk;
    var m := n.(seen := seen);
    forall ch | ch in m.sent ensures SentPayloadOk(w, c, m, ch) {
      assert SentPayloadOk(w, c, n, ch);
    }
    forall k | k in m.db.local ensures LocalRowOk(w, c, m.seen, k, m.db.local[k]) {
      assert LocalRowOk(w, c, n.seen, k, n.db.local[k]);
    }
  }

  ghost function Done(results: seq<Result>, i: nat): set<Key>
    requires i <= |results|
  {
    set r | r in results[..i] :: r.key
  }

  ghost predicate CodesFree(local: Locals, results: seq<Result>, i: nat) {
    forall m, j :: i <= m < |results| && CarriesCode(results[m]) && j in local && j.kind == results[m].key.kind ==>
      local[j].copy.code != results[m].record.value.code
  }

  ghost predicate AckState(w: World, c: ClientId, n: Node, db: Db, results: seq<Result>, i: nat)
    requires i <= |results|
  {
    && CoreOk(w, c, n.(db := db)) && CoverageOk(w.server.rows, db)
    && db.watermark == n.db.watermark
    && OthersKept(n.db.outbox, db.outbox, Done(results, i))
    && CodesFree(db.local, results, i)
  }

  lemma CarriedKept(o: Outbox, q: Outbox, done: set<Key>, ch: Change)
    requires OthersKept(o, q, done) && Carried(o, ch) && ch.key !in done
    requires ch.id in o ==> o[ch.id].key == ch.key
    ensures Carried(q, ch)
  {
    if ch.id !in o {
      var i :| i in o && o[i].key == ch.key && Sendable(o[i]) && !o[i].attempted;
      assert i in q && q[i] == o[i];
    }
  }

  lemma OthersKeptTwice(o: Outbox, q: Outbox, r: Outbox, done: set<Key>, k: Key)
    requires OthersKept(o, q, done) && OthersKept(q, r, {k})
    ensures OthersKept(o, r, done + {k})
  {
  }

  lemma CodesStayFree(local: Locals, after: Locals, results: seq<Result>, i: nat)
    requires i < |results| && CodesFree(local, results, i) && CodesKept(local, after, results[i])
    requires PairwiseApart(results) && results[i].outcome.Accepted?
    ensures CodesFree(after, results, i + 1)
  {
    forall m, j | i + 1 <= m < |results| && CarriesCode(results[m]) && j in after && j.kind == results[m].key.kind
      ensures after[j].copy.code != results[m].record.value.code
    {
      assert Apart(results[i], results[m]);
    }
  }

  lemma AckNext(w: World, c: ClientId, n: Node, db: Db, results: seq<Result>, i: nat)
    requires ServerHistory.ArchiveWithin(w.server) && PayloadsOk(w, c, n)
    requires i < |results| && PairwiseApart(results) && Ackable(w, c, n, results[i])
    requires AckState(w, c, n, db, results, i)
    requires results[i].id in n.db.outbox && results[i].record.Some? ==>
      KeyCopy(results[i].key, results[i].record.value) in n.seen
    ensures AcknowledgeOne(db, results[i]).Some?
      && AckState(w, c, n, AcknowledgeOne(db, results[i]).value, results, i + 1)
  {
    hide AcknowledgeOne, ResultOk, CoreOk, CoverageOk, Carried, OthersKept, CodesKept, Apart, CodesFree;
    var r, m := results[i], n.(db := db);
    var ch :| ch in n.sent && AckableFor(w, c, n, ch, r);
    assert ServerHistory.ArchiveWithin(w.server);
    AckableFacts(w, c, n, ch, r);
    assert ch.key !in Done(results, i) by { NotDone(results, i); }
    assert SentPayloadOk(w, c, n, ch);
    CarriedKept(n.db.outbox, db.outbox, Done(results, i), ch);
    assert AckableFor(w, c, m, ch, r);
    if r.id in db.outbox {
      assert r.id in n.db.outbox by { WasQueued(n.db.outbox, db.outbox, Done(results, i), r.id); }
      AckSentRow(w, c, m, ch, r);
    } else {
      CodesFreeAt(db.local, results, i);
      AckReplaced(w, c, m, ch, r);
    }
    var after := AcknowledgeOne(db, r).value;
    assert m.(db := after) == n.(db := after);
    OthersKeptTwice(n.db.outbox, db.outbox, after.outbox, Done(results, i), r.key);
    assert Done(results, i) + {r.key} == Done(results, i + 1) by { DoneNext(results, i); }
    CodesStayFree(db.local, after.local, results, i);
  }

  lemma WasQueued(o: Outbox, q: Outbox, done: set<Key>, id: ChangeId)
    requires OthersKept(o, q, done) && id in q
    ensures id in o
  {
  }

  lemma CodesFreeAt(local: Locals, results: seq<Result>, i: nat)
    requires i < |results| && CodesFree(local, results, i)
    ensures forall j :: CarriesCode(results[i]) && j in local && j.kind == results[i].key.kind ==>
      local[j].copy.code != results[i].record.value.code
  {
  }

  lemma DoneNext(results: seq<Result>, i: nat)
    requires i < |results|
    ensures Done(results, i) + {results[i].key} == Done(results, i + 1)
  {
    assert results[..i + 1] == results[..i] + [results[i]];
  }

  lemma NotDone(results: seq<Result>, i: nat)
    requires i < |results| && PairwiseApart(results)
    ensures results[i].key !in Done(results, i)
  {
    forall m | 0 <= m < i ensures results[m].key != results[i].key {
      assert Apart(results[m], results[i]);
    }
  }

  lemma {:induction false} AckPrefix(w: World, c: ClientId, n: Node, results: seq<Result>, i: nat)
    requires ServerHistory.ArchiveWithin(w.server) && CoreOk(w, c, n) && CoverageOk(w.server.rows, n.db)
    requires i <= |results| && PairwiseApart(results)
    requires forall r :: r in results ==> Ackable(w, c, n, r)
    requires forall r :: r in results && r.id in n.db.outbox && r.record.Some? ==> KeyCopy(r.key, r.record.value) in n.seen
    ensures AcknowledgeFirst(n.db, results, i).Some?
      && AckState(w, c, n, AcknowledgeFirst(n.db, results, i).value, results, i)
  {
    hide AcknowledgeOne, Ackable, AckState, CoreOk, CoverageOk, PairwiseApart;
    if i == 0 {
      AckStart(w, c, n, results);
    } else {
      AckPrefix(w, c, n, results, i - 1);
      assert PayloadsOk(w, c, n) by { CorePayloads(w, c, n); }
      AckNext(w, c, n, AcknowledgeFirst(n.db, results, i - 1).value, results, i - 1);
    }
  }

  lemma CorePayloads(w: World, c: ClientId, n: Node)
    requires CoreOk(w, c, n)
    ensures PayloadsOk(w, c, n) && OnePerKey(n.db.outbox)
  {
  }

  lemma AckStart(w: World, c: ClientId, n: Node, results: seq<Result>)
    requires ServerHistory.ArchiveWithin(w.server) && CoreOk(w, c, n) && CoverageOk(w.server.rows, n.db)
    requires forall r :: r in results ==> Ackable(w, c, n, r)
    ensures AcknowledgeFirst(n.db, results, 0).Some?
      && AckState(w, c, n, AcknowledgeFirst(n.db, results, 0).value, results, 0)
  {
    hide CoreOk, CoverageOk, ReleaseCodes, CodeSafe, InArchive, Wrote;
    forall r | r in results
      ensures HasOpen(n.db.outbox, r.key) && (CarriesCode(r) ==> Scored(r.key.kind))
      ensures r.record.Some? && CodeSafe(w.server.rows, n.db.watermark, r.key, r.record.value.code)
    {
      assert Ackable(w, c, n, r);
      var ch :| ch in n.sent && AckableFor(w, c, n, ch, r);
      AckableFacts(w, c, n, ch, r);
      assert PayloadsOk(w, c, n) by { CorePayloads(w, c, n); }
      assert SentPayloadOk(w, c, n, ch);
      if ch.id in n.db.outbox {
        assert n.db.outbox[ch.id].key == r.key;
      }
    }
    hide Ackable;
    ReleasedKeepsCore(w, c, n, results);
    ReleasedKeepsCoverage(w.server.rows, n, results);
    ReleasedFreesCodes(n, results);
    var m := Released(n, results);
    assert n.(db := m.db) == m;
    assert CodesFree(m.db.local, results, 0);
  }

  // ----- The step -----

  lemma {:induction false} UnsettledApart(answers: seq<Answer>)
    requires AnswersApart(answers)
    ensures AnswersApart(Unsettled(answers))
  {
    if answers != [] {
      var n := |answers| - 1;
      UnsettledApart(answers[..n]);
      var rest := Unsettled(answers[..n]);
      forall i | 0 <= i < |rest|
        ensures rest[i].change.key != answers[n].change.key && rest[i].change.id != answers[n].change.id
      {
        assert rest[i] in answers[..n];
      }
      assert AnswersApart(rest + [answers[n]]);
    }
  }

  ghost predicate RestOk(s: Server, c: ClientId, n: Node, a: Answer) {
    && a.change in n.sent && Carried(n.db.outbox, a.change)
    && ResultOk(s, n.db.watermark, c, a.change, a.result) && !Acknowledges(a.result)
  }

  lemma RestCarried(w: World, c: ClientId, n: Node, batch: seq<Change>, reply: seq<Result>, db: Db, a: Answer)
    requires BatchOk(n, batch) && ReplyOk(w.server, n.db.watermark, c, batch, reply) && PayloadsOk(w, c, n)
    requires AckState(w, c, n, db, WithState(reply), |WithState(reply)|)
    requires a in Unsettled(Answers(batch, reply))
    ensures RestOk(w.server, c, n.(db := db), a)
  {
    hide ResultOk, CoreOk, CoverageOk, OthersKept, CodesFree, CodesApart, Carried;
    var acked := WithState(reply);
    var i :| 0 <= i < |batch| && a == Answer(batch[i], reply[i]);
    assert ResultOk(w.server, n.db.watermark, c, batch[i], reply[i]);
    assert acked[..|acked|] == acked;
    forall r | r in acked ensures r.key != a.change.key {
      var j :| 0 <= j < |reply| && reply[j] == r;
      assert ResultOk(w.server, n.db.watermark, c, batch[j], reply[j]);
      ResultKey(w.server, n.db.watermark, c, batch[j], reply[j]);
      assert i != j;
    }
    assert SentPayloadOk(w, c, n, a.change);
    CarriedKept(n.db.outbox, db.outbox, Done(acked, |acked|), a.change);
  }

  lemma ResultKey(s: Server, watermark: nat, c: ClientId, ch: Change, r: Result)
    requires ResultOk(s, watermark, c, ch, r)
    ensures r.id == ch.id && r.key == ch.key
  {
  }

  ghost function SeenCopies(n: Node, reply: seq<Result>): set<KeyCopy> {
    n.seen + (set r | r in reply && Acknowledges(r) && r.record.Some? && r.id in n.db.outbox
              :: KeyCopy(r.key, r.record.value))
  }

  /** The accepted part of a reply applies in full. */
  lemma ReplyApplies(w: World, c: ClientId, n: Node, reply: seq<Result>)
    requires ServerHistory.ArchiveWithin(w.server) && CoreOk(w, c, n) && CoverageOk(w.server.rows, n.db)
    requires n.phase.Pushing? && BatchOk(n, n.phase.batch)
    requires ReplyOk(w.server, n.db.watermark, c, n.phase.batch, reply)
    ensures AcknowledgeAll(n.db, WithState(reply)).Some?
    ensures AckState(w, c, n.(seen := SeenCopies(n, reply)), AcknowledgeAll(n.db, WithState(reply)).value,
                     WithState(reply), |WithState(reply)|)
  {
    hide AcknowledgeAll, Ackable, CoreOk, CoverageOk, ReplyOk, BatchOk, ServerHistory.ArchiveWithin, WithState,
         AckState, AcknowledgeFirst, PairwiseApart;
    var acked := WithState(reply);
    ReplyAckable(w, c, n, n.phase.batch, reply);
    var m := n.(seen := SeenCopies(n, reply));
    SeenGrows(w, c, n, m.seen);
    forall r | r in acked ensures Ackable(w, c, m, r) {
      AckableSeen(w, c, n, m, r);
    }
    AckPrefix(w, c, m, acked, |acked|);
    AckAllIs(n.db, acked);
  }

  /** A reply to the current request is always applied in full, and keeps the invariant. */
  lemma DeliverKeeps(w: World, c: ClientId, n: Node, reply: seq<Result>)
    requires WorldOk(w) && NodeOk(w, c, n) && n.phase.Pushing? && reply in n.phase.replies
    ensures CanDeliver(n, reply) && NodeOk(w, c, Deliver(n, reply))
  {
    DeliveryFacts(w, c, n, reply);
    hide WorldOk, NodeOk, CoreOk, CoverageOk, ReplyOk, BatchOk, AcknowledgeAll, WithState, AckState, Unsettled,
         ServerHistory.ArchiveWithin;
    ReplyApplies(w, c, n, reply);
    var db := AcknowledgeAll(n.db, WithState(reply)).value;
    DeliveredNode(w, c, n, reply, db);
    SameLength(w.server, n.db.watermark, c, n.phase.batch, reply);
    assert Deliver(n, reply) == Node(db, Settling(Unsettled(Answers(n.phase.batch, reply))), n.sent, SeenCopies(n, reply));
  }

  lemma SameLength(s: Server, watermark: nat, c: ClientId, batch: seq<Change>, reply: seq<Result>)
    requires ReplyOk(s, watermark, c, batch, reply)
    ensures |reply| == |batch|
  {
  }

  lemma DeliveryFacts(w: World, c: ClientId, n: Node, reply: seq<Result>)
    requires WorldOk(w) && NodeOk(w, c, n) && n.phase.Pushing? && reply in n.phase.replies
    ensures ServerHistory.ArchiveWithin(w.server) && CoreOk(w, c, n) && CoverageOk(w.server.rows, n.db)
    ensures BatchOk(n, n.phase.batch) && PayloadsOk(w, c, n)
    ensures ReplyOk(w.server, n.db.watermark, c, n.phase.batch, reply) && |reply| == |n.phase.batch|
  {
    hide OutboxOk, LocalOk, BasesOk, BoundaryOk, PayloadsOk, LocalCodesUnique, CoverageOk, OwnersOk, ReceiptsOk,
         BatchOk, ResultOk, CodesApart, ServerHistory.RowsStamped, ServerHistory.CodesUnique,
         ServerHistory.ArchiveCurrent, ServerHistory.ArchiveFull, ServerHistory.ArchiveWithin, ServerHistory.AuditOk,
         ServerHistory.VersionSum;
  }

  lemma DeliveredNode(w: World, c: ClientId, n: Node, reply: seq<Result>, db: Db)
    requires n.phase.Pushing? && BatchOk(n, n.phase.batch) && PayloadsOk(w, c, n)
    requires ReplyOk(w.server, n.db.watermark, c, n.phase.batch, reply) && |reply| == |n.phase.batch|
    requires AckState(w, c, n.(seen := SeenCopies(n, reply)), db, WithState(reply), |WithState(reply)|)
    ensures NodeOk(w, c, Node(db, Settling(Unsettled(Answers(n.phase.batch, reply))), n.sent, SeenCopies(n, reply)))
  {
    hide CoreOk, CoverageOk, ReplyOk, Carried, ResultOk, OthersKept, CodesFree, WithState, Unsettled, DistinctKeys,
         SentPayloadOk, SeenCopies;
    var batch := n.phase.batch;
    var m := n.(seen := SeenCopies(n, reply));
    var answers := Answers(batch, reply);
    BatchApart(batch, reply);
    UnsettledApart(answers);
    assert BatchOk(m, batch) && PayloadsOk(w, c, m) by { SeenIsFree(w, c, n, m, batch); }
    forall a | a in Unsettled(answers) ensures RestOk(w.server, c, m.(db := db), a) {
      RestCarried(w, c, m, batch, reply, db, a);
    }
    CorePhaseFree(w, c, m.(db := db), Node(db, Settling(Unsettled(answers)), n.sent, m.seen));
  }

  lemma SeenIsFree(w: World, c: ClientId, n: Node, m: Node, batch: seq<Change>)
    requires m == n.(seen := m.seen) && BatchOk(n, batch) && PayloadsOk(w, c, n)
    ensures BatchOk(m, batch) && PayloadsOk(w, c, m)
  {
    hide Carried, DistinctKeys;
    forall ch | ch in m.sent ensures SentPayloadOk(w, c, m, ch) {
      assert SentPayloadOk(w, c, n, ch);
    }
  }

  lemma AckAllIs(db: Db, results: seq<Result>)
    ensures AcknowledgeAll(db, results) == AcknowledgeFirst(db, results, |results|)
  {
  }

  lemma BatchApart(batch: seq<Change>, reply: seq<Result>)
    requires DistinctKeys(batch) && |reply| == |batch|
    ensures AnswersApart(Answers(batch, reply))
  {
  }

  lemma CorePhaseFree(w: World, c: ClientId, n: Node, m: Node)
    requires CoreOk(w, c, n) && m == n.(phase := m.phase)
    ensures CoreOk(w, c, m)
  {
    hide LocalRowOk, BaseOk, SavedOk, SentKey, OutboxOk, LocalCodesUnique;
    forall ch | ch in m.sent ensures SentPayloadOk(w, c, m, ch) {
      assert SentPayloadOk(w, c, n, ch);
    }
  }
}
