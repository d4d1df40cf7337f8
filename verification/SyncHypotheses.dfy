/** Where the source does not enforce what the protocol needs, and exactly when it still holds. */
module SyncHypotheses {
  import opened Protocol
  import opened PushRules
  import opened LocalDb
  import opened SyncModel
  import opened SyncInvariant
  import opened SyncQueueing
  import opened SyncPulling
  import ServerHistory
  import SyncPreservation
  import PullFeed

  // ----- An editor's base version -----

  /** An edit over a create that may have left keeps that knowledge iff its own base is not below one. */
  lemma EditorBaseBelowOne(o: Outbox, k: Key, r: Record, version: nat, editorBase: Option<int>, id: ChangeId)
    requires OnePerKey(o) && id !in o && RemoteCreateMayExist(o, k) && !KeepsConflict(o, k, false)
    ensures var q := OverrideBase(Replace(o, k, Upsert, VersionBase(version), r, false, id), k, editorBase);
      RemoteCreateMayExist(q, k) <==> (editorBase.None? || editorBase.value >= 1)
  {
    var squashed := Replace(o, k, Upsert, VersionBase(version), r, false, id);
    var q := OverrideBase(squashed, k, editorBase);
    ReplaceEffect(o, k, Upsert, VersionBase(version), r, false, id);
    assert squashed[id].base.Some?;
    hide Replace;
    assert id in q && q[id].key == k;
    assert HasOpen(q, k) && OpenId(q, k) == id;
  }

  /** An editor's base of zero over a sent create: the new entry looks as if nothing had left. */
  lemma EditorBaseZero(k: Key, r: Record)
    ensures var o: Outbox := map[1 := Entry(k, Upsert, None, r, Retry, true)];
      var q := OverrideBase(Replace(o, k, Upsert, None, r, false, 2), k, Some(0));
      RemoteCreateMayExist(o, k) && !RemoteCreateMayExist(q, k)
  {
    var o: Outbox := map[1 := Entry(k, Upsert, None, r, Retry, true)];
    assert o[1].key == k;
    EditorBaseBelowOne(o, k, r, 0, Some(0), 2);
  }

  // ----- A REST delete with an outdated read -----

  lemma CurrentDeleteIsRest(w: World, k: Key)
    requires k in w.server.rows && RestFinds(w.server.rows, k)
    ensures DoRestWrite(w, RestDelete(k)) == w.(server := LateDelete(w.server, k, w.server.rows[k].copy))
  {
    ServerHistory.CurrentRead(k.kind, w.server.rows[k].copy);
    hide ColumnsSet, SoftDeleted;
  }

  lemma InvIsGood(s: Sys)
    requires Inv(s)
    ensures ServerHistory.Good(s.world.server)
  {
    hide ServerHistory.Good, NodeOk;
  }

  /** The invariant of the whole system survives the flush iff the version read is still current. */
  lemma LateDeleteKeepsInvariant(s: Sys, k: Key, read: Copy)
    requires Inv(s) && k in s.world.server.rows && ServerHistory.WasCopy(s.world.server, k, read)
    requires k.kind.Ticket? ==> !read.deleted
    ensures Inv(s.(world := s.world.(server := LateDelete(s.world.server, k, read))))
            <==> read.version == s.world.server.rows[k].copy.version
  {
    hide Inv, ServerHistory.Good, LateDelete, ServerHistory.WasCopy;
    var server, t := s.world.server, s.(world := s.world.(server := LateDelete(s.world.server, k, read)));
    InvIsGood(s);
    ServerHistory.LateDeleteKeeps(server, k, read);
    if read.version == server.rows[k].copy.version {
      CurrentCopy(server, k, read);
      CurrentDeleteIsRest(s.world, k);
      SyncPreservation.RestKeepsInv(s, RestDelete(k));
    }
    if Inv(t) {
      InvIsGood(t);
    }
  }

  lemma CurrentCopy(s: Server, k: Key, read: Copy)
    requires ServerHistory.Good(s) && k in s.rows && ServerHistory.WasCopy(s, k, read)
    requires read.version == s.rows[k].copy.version
    ensures read == s.rows[k].copy
  {
    hide ServerHistory.VersionSum, ServerHistory.AuditOk, ServerHistory.RowsStamped, ServerHistory.CodesUnique;
  }

  function Ticketed(k: Key, version: nat): Row {
    Row(Copy(version, false, None, map[]), version)
  }

  lemma Accepts(s: Server, ch: Change, k: Key, version: nat)
    requires k.kind.Ticket? && ch.key == k && ch.op.Upsert? && ch.record == DeleteRecord && s.last == version
    requires if version == 0 then s.rows == map[] else s.rows == map[k := Ticketed(k, version)] && ch.base == Some(version)
    ensures var d := DecideAndStore(s, 0, Member, ch, Fine);
      d.result.outcome.Accepted? && d.server.rows == map[k := Ticketed(k, version + 1)] && d.server.last == version + 1
  {
    if version >= 1 {
      assert map[] + DeleteRecord.fields == map[];
    }
  }

  /** A push between the read and the flush of a REST delete: version two is written twice, the counter
    * passes the sum of versions, and the pusher's next change overwrites a deletion it never saw. */
  lemma LateDeleteLosesUpdate(k: Key) returns (first: Server, second: Server, after: Server)
    requires k.kind.Ticket?
    ensures ServerHistory.Good(first) && ServerHistory.Good(second) && k in first.rows && k in second.rows
    ensures after == LateDelete(second, k, first.rows[k].copy) && !ServerHistory.Good(after)
    ensures k in after.rows && after.rows[k].copy.deleted && after.rows[k].copy.version == second.rows[k].copy.version
    ensures !second.rows[k].copy.deleted && after.last > after.rows[k].copy.version && after.rows.Keys == {k}
    ensures DecideAndStore(after, 0, Member, Change(3, k, Upsert, Some(2), DeleteRecord), Fine).result.outcome.Accepted?
  {
    hide ServerHistory.Good, ServerHistory.VersionSum, DecideAndStore;
    var create, edit := Change(1, k, Upsert, None, DeleteRecord), Change(2, k, Upsert, Some(1), DeleteRecord);
    ServerHistory.FreshIsGood();
    Accepts(FreshProject, create, k, 0);
    ServerHistory.FreshChangeKeeps(FreshProject, 0, Member, create, Fine);
    first := DecideAndStore(FreshProject, 0, Member, create, Fine).server;
    Accepts(first, edit, k, 1);
    ServerHistory.FreshChangeKeeps(first, 0, Member, edit, Fine);
    second := DecideAndStore(first, 0, Member, edit, Fine).server;
    var read := first.rows[k].copy;
    after := LateDelete(second, k, read);
    FirstCopyStays(first, second, k);
    ServerHistory.LateDeleteKeeps(second, k, read);
    OverwritesDeletion(after, k);
  }

  lemma FirstCopyStays(s: Server, t: Server, k: Key)
    requires ServerHistory.Good(s) && ServerHistory.Evolves(s, t) && k in s.rows
    ensures ServerHistory.WasCopy(t, k, s.rows[k].copy)
  {
    hide ServerHistory.VersionSum, ServerHistory.AuditOk, ServerHistory.RowsStamped, ServerHistory.CodesUnique;
  }

  lemma OverwritesDeletion(s: Server, k: Key)
    requires k.kind.Ticket? && k in s.rows && s.rows[k].copy.version == 2 && s.rows[k].copy.code.None?
    ensures DecideAndStore(s, 0, Member, Change(3, k, Upsert, Some(2), DeleteRecord), Fine).result.outcome.Accepted?
  {
  }

  // ----- A conflict resolved while a pull is under way -----

  /** Whatever moved the watermark meanwhile, a finished pull keeps coverage from `since` at or below it. */
  lemma PullFromBelowKeepsCoverage(w: World, c: ClientId, n: Node, p: PullFeed.Pull)
    requires WorldOk(w) && CoreOk(w, c, n) && CoverageOk(w.server.rows, n.db) && PullFeed.Finished(p)
    requires PullingOk(w.server, p.since, p) && p.since <= n.db.watermark <= p.snapshot
    requires forall it :: it in Copies(PulledItems(p)) && Stored(n.db.outbox, it.key) ==> it in n.seen
    ensures CoverageOk(w.server.rows, ApplyAllPulled(n.db, Copies(PulledItems(p))).(watermark := p.snapshot))
  {
    hide CoreOk, CoverageOk, OwnersOk, ReceiptsOk, PulledItems, ApplyAllPulled, Delivers, Applied, PullFeed.PullOk,
         Stored, PullFeed.Finished, ServerHistory.RowsStamped, ServerHistory.CodesUnique,
         ServerHistory.ArchiveCurrent, ServerHistory.ArchiveFull, ServerHistory.ArchiveWithin, ServerHistory.AuditOk,
         ServerHistory.VersionSum, InArchive;
    var items := Copies(PulledItems(p));
    FinishedDelivers(w.server, p.since, p);
    DeliversFrom(w.server, p.since, n.db.watermark, p.at, p.snapshot, items);
    ApplyPrefix(w, c, n, p.at, p.snapshot, items, |items|);
    assert items[..|items|] == items;
    ApplyEnds(w, c, n, ApplyAllPulled(n.db, items), p.at, p.snapshot, items);
    NodeCovered(w, c, Node(ApplyAllPulled(n.db, items).(watermark := p.snapshot), Idle, n.sent, n.seen));
  }

  lemma DeliversFrom(s: Server, low: nat, high: nat, at: map<Key, Row>, snapshot: nat, items: seq<KeyCopy>)
    requires Delivers(s, low, at, snapshot, items) && low <= high
    ensures Delivers(s, high, at, snapshot, items)
  {
  }

  lemma NodeCovered(w: World, c: ClientId, n: Node)
    requires NodeOk(w, c, n)
    ensures CoverageOk(w.server.rows, n.db)
  {
  }

  /** A project whose one row was created and updated by REST writers, `n` versions in all. */
  ghost function RestWorld(k: Key, n: nat): World
    requires n >= 1
  {
    if n == 1 then DoRestWrite(World(FreshProject, map[], map[]), RestCreate(k, None, map[]))
    else DoRestWrite(RestWorld(k, n - 1), RestUpdate(k, n - 1, DeleteRecord))
  }

  lemma {:induction false} RestWorldOk(k: Key, n: nat)
    requires n >= 1 && k.kind.Ticket?
    ensures Inv(Sys(RestWorld(k, n), map[])) && RestWorld(k, n).server.last == n
    ensures RestWorld(k, n).server.rows == map[k := Ticketed(k, n)]
    ensures RestWorld(k, n).owner == map[k := Rest] && RestWorld(k, n).server.receipts == map[]
  {
    hide Inv;
    if n == 1 {
      var s := Sys(World(FreshProject, map[], map[]), map[]);
      SyncPreservation.InitHolds(s);
      SyncPreservation.RestKeepsInv(s, RestCreate(k, None, map[]));
    } else {
      RestWorldOk(k, n - 1);
      SyncPreservation.RestKeepsInv(Sys(RestWorld(k, n - 1), map[]), RestUpdate(k, n - 1, DeleteRecord));
      assert map[] + DeleteRecord.fields == map[];
    }
  }

  ghost function NothingNew(rows: map<Key, Row>, last: nat): PullFeed.Pull {
    PullFeed.Pull(last, last, map kind | kind in PullFeed.Kinds() :: PullFeed.Progress(last, [], false), rows)
  }

  lemma NothingNewIsOk(rows: map<Key, Row>, last: nat)
    requires forall k :: k in rows ==> rows[k].sequence <= last
    ensures PullFeed.PullOk(NothingNew(rows, last), rows) && PullFeed.Finished(NothingNew(rows, last))
    ensures PulledItems(NothingNew(rows, last)) == []
    ensures var p := NothingNew(rows, last); p.since == last && p.snapshot == last && p.at == rows
  {
  }

  /** For every start above the watermark there is a state within the invariant that it spoils. */
  lemma PullFromAboveLosesCoverage(since: nat, watermark: nat) returns (w: World, n: Node, p: PullFeed.Pull)
    requires watermark < since
    ensures WorldOk(w) && CoreOk(w, 0, n) && CoverageOk(w.server.rows, n.db) && n.db.watermark == watermark
    ensures PullingOk(w.server, since, p) && PullFeed.Finished(p)
    ensures !CoverageOk(w.server.rows, ApplyAllPulled(n.db, Copies(PulledItems(p))).(watermark := p.snapshot))
  {
    hide RestWorld, WorldOk, CoreOk, PullFeed.PullOk, PullFeed.Finished, PulledItems, ServerHistory.CodesUnique, InArchive,
         NothingNew, NodeOk;
    var k := Key(Ticket, 0);
    RestWorldOk(k, since);
    w := RestWorld(k, since);
    n := Node(Db(map[], map[], watermark), Idle, {}, {});
    p := NothingNew(w.server.rows, since);
    NothingNewIsOk(w.server.rows, since);
    EmptyCore(w, 0, n);
    RestRowArchived(w, k);
    assert ApplyAllPulled(n.db, Copies([])) == n.db;
    assert !Covered(w.server.rows, n.db, k);
  }

  lemma EmptyCore(w: World, c: ClientId, n: Node)
    requires WorldOk(w) && n.db.local == map[] && n.db.outbox == map[] && n.sent == {} && n.db.watermark <= w.server.last
    requires forall k :: !Owned(w, k, c)
    requires w.server.receipts == map[]
    ensures CoreOk(w, c, n)
  {
    hide WorldOk, Owned;
  }

  lemma RestRowArchived(w: World, k: Key)
    requires WorldOk(w) && k in w.server.rows
    ensures InArchive(w.server, k, w.server.rows[k].copy) && ServerHistory.CodesUnique(w.server.rows)
  {
    hide OwnersOk, ReceiptsOk, ServerHistory.VersionSum, ServerHistory.AuditOk, ServerHistory.RowsStamped;
  }
}
