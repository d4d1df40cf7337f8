/** Pulling pages, applying them, and taking the server's side of a conflict keep the invariant. */
module SyncPulling {
  import opened Protocol
  import opened PushRules
  import opened LocalDb
  import opened SyncModel
  import opened SyncInvariant
  import opened SyncStores
  import opened SyncAcknowledge
  import opened SyncSettling
  import ServerHistory
  import PullFeed

  // ----- Fetching -----

  lemma StartPullKeeps(w: World, c: ClientId, n: Node)
    requires WorldOk(w) && NodeOk(w, c, n) && CanPull(w, n)
    ensures NodeOk(w, c, StartPull(w, n))
  {
    assert PullingOk(w.server, n.db.watermark, StartPull(w, n).phase.pull) by {
      hide NodeOk, OwnersOk, ReceiptsOk;
      OpensOk(w.server, n.db.watermark);
    }
    hide WorldOk, CoreOk, CoverageOk, PullingOk;
    CorePhaseFree(w, c, n, StartPull(w, n));
  }

  lemma OpensOk(s: Server, watermark: nat)
    requires ServerHistory.Good(s) && watermark <= s.last
    ensures PullingOk(s, watermark, PullFeed.Opened(s.rows, s.last, watermark))
  {
    hide ServerHistory.ArchiveFull, ServerHistory.ArchiveWithin, ServerHistory.AuditOk, ServerHistory.VersionSum,
         ServerHistory.CodesUnique, PullFeed.PullOk;
    PullFeed.OpenedOk(s.rows, s.last, watermark);
  }

  lemma PullKindKeeps(w: World, c: ClientId, n: Node, kind: Kind, limit: Option<nat>)
    requires NodeOk(w, c, n) && CanPullKind(w, n, kind, limit)
    ensures NodeOk(w, c, PullKind(w, n, kind, limit))
  {
    hide CoreOk, CoverageOk, PullFeed.DistinctSequences, PullFeed.PullOk, ServerHistory.CodesUnique, InArchive,
         PullFeed.NextOf;
    PullFeed.KindPageKeeps(n.phase.pull, kind, w.server.rows, limit);
    CorePhaseFree(w, c, n, PullKind(w, n, kind, limit));
  }

  // ----- Applying a pull, row by row -----

  /** What the pages of a finished pull deliver. */
  ghost predicate Delivers(s: Server, watermark: nat, at: map<Key, Row>, snapshot: nat, items: seq<KeyCopy>) {
    && ServerHistory.CodesUnique(at)
    && PullFeed.Later(at, snapshot, s.rows)
    && (forall it :: it in items ==> it.key in at && at[it.key].copy == it.copy && InArchive(s, it.key, it.copy))
    && (forall k :: k in s.rows && watermark < s.rows[k].sequence <= snapshot ==> KeyCopy(k, s.rows[k].copy) in items)
  }

  lemma {:induction false} ItemsOfKind(p: PullFeed.Pull, it: PullFeed.Item)
    requires p.feeds.Keys == PullFeed.Kinds()
    ensures it in PulledItems(p) <==> exists kind :: kind in p.feeds && it in p.feeds[kind].items
  {
    assert Risk in p.feeds && Opportunity in p.feeds && Action in p.feeds && Assessment in p.feeds && Ticket in p.feeds;
    assert forall kind :: kind in p.feeds ==> FeedItems(p, kind) == p.feeds[kind].items;
  }

  lemma CopiesHold(items: seq<PullFeed.Item>, it: PullFeed.Item)
    requires it in items
    ensures KeyCopy(it.key, it.row.copy) in Copies(items)
  {
    var i :| 0 <= i < |items| && items[i] == it;
    assert Copies(items)[i] == KeyCopy(it.key, it.row.copy);
  }

  lemma FinishedDelivers(s: Server, watermark: nat, p: PullFeed.Pull)
    requires PullingOk(s, watermark, p) && PullFeed.Finished(p)
    ensures Delivers(s, watermark, p.at, p.snapshot, Copies(PulledItems(p)))
  {
    hide ServerHistory.CodesUnique, InArchive, PullFeed.Ordered, PulledItems, PullFeed.Later;
    var items := PulledItems(p);
    forall it | it in Copies(items) ensures it.key in p.at && p.at[it.key].copy == it.copy && InArchive(s, it.key, it.copy) {
      var i :| 0 <= i < |items| && Copies(items)[i] == it;
      ItemsOfKind(p, items[i]);
      var kind :| kind in p.feeds && items[i] in p.feeds[kind].items;
      assert PullFeed.FeedSound(p, kind);
      assert PullFeed.Holds(p.at, kind, p.since, p.feeds[kind].cursor, items[i]);
    }
    forall k | k in s.rows && watermark < s.rows[k].sequence <= p.snapshot
      ensures KeyCopy(k, s.rows[k].copy) in Copies(items)
    {
      DeliveredItem(p, s.rows, k);
      ItemsOfKind(p, PullFeed.Item(k, s.rows[k]));
      CopiesHold(items, PullFeed.Item(k, s.rows[k]));
    }
  }

  lemma DeliveredItem(p: PullFeed.Pull, now: map<Key, Row>, k: Key)
    requires PullFeed.PullOk(p, now) && PullFeed.Finished(p) && k in now && p.since < now[k].sequence <= p.snapshot
    ensures k.kind in p.feeds && PullFeed.Item(k, now[k]) in p.feeds[k.kind].items
  {
    hide PullFeed.Later, PullFeed.FeedSound;
    PullFeed.EveryKind(k.kind);
    assert PullFeed.FeedComplete(p, k.kind, now);
    assert !PullFeed.Within(now, k.kind, p.feeds[k.kind].cursor, p.snapshot, k);
    assert PullFeed.Within(now, k.kind, p.since, p.feeds[k.kind].cursor, k);
  }

  /** The rows due once the first items are applied: the old ones and the current ones among these. */
  ghost predicate IsDue(rows: map<Key, Row>, watermark: nat, snapshot: nat, items: seq<KeyCopy>, k: Key) {
    && k in rows && rows[k].sequence <= snapshot
    && (rows[k].sequence <= watermark || KeyCopy(k, rows[k].copy) in items)
  }

  ghost function DueAfter(rows: map<Key, Row>, watermark: nat, snapshot: nat, items: seq<KeyCopy>): set<Key> {
    set k | k in rows && IsDue(rows, watermark, snapshot, items, k)
  }

  /** Only saved copies differ; no entry becomes or stops being a conflict. */
  ghost predicate Noted(o: Outbox, q: Outbox) {
    Restated(o, q) && forall id :: id in o && IsConflict(q[id]) ==> IsConflict(o[id])
  }

  /** `db` is `n`'s database with some pulled rows applied. */
  ghost predicate Applied(w: World, c: ClientId, n: Node, db: Db, snapshot: nat, items: seq<KeyCopy>) {
    && CoreOk(w, c, n.(db := db)) && db.watermark == n.db.watermark
    && Noted(n.db.outbox, db.outbox)
    && CoveredOn(w.server.rows, db, DueAfter(w.server.rows, n.db.watermark, snapshot, items))
  }

  lemma WithoutAbsentKey(o: Outbox, k: Key)
    requires !HasOpen(o, k)
    ensures WithoutKey(o, k) == o
  {
  }

  lemma TakePulled(w: World, c: ClientId, n: Node, k: Key, copy: Copy, due: set<Key>)
    requires CoreOk(w, c, n) && CoveredOn(w.server.rows, n.db, due) && !HasOpen(n.db.outbox, k)
    requires copy.version >= 1 && InArchive(w.server, k, copy) && KeyCopy(k, copy) in n.seen
    requires !Scored(k.kind) ==> copy.code.None?
    requires k in due ==> w.server.rows[k].copy == copy
    requires forall j :: j in due && j != k && j.kind == k.kind && copy.code.Some? ==> w.server.rows[j].copy.code != copy.code
    ensures var db := ApplyPulled(n.db, k, copy);
      && CoreOk(w, c, n.(db := db)) && db.watermark == n.db.watermark && db.outbox == n.db.outbox
      && CoveredOn(w.server.rows, db, due)
      && (k in w.server.rows && w.server.rows[k].copy == copy ==> CoveredOn(w.server.rows, db, due + {k}))
  {
    hide CoreOk, CoveredOn, InArchive, PutCopy;
    WithoutAbsentKey(n.db.outbox, k);
    TookKeepsCore(w, c, n, k, copy);
    TookCovers(w.server.rows, n, due, k, copy);
    assert Took(n, k, copy).db == ApplyPulled(n.db, k, copy);
    assert n.(db := ApplyPulled(n.db, k, copy)) == Took(n, k, copy);
  }

  lemma RememberRestates(w: World, c: ClientId, n: Node, k: Key, copy: Copy)
    requires CoreOk(w, c, n) && InArchive(w.server, k, copy)
    requires Stored(n.db.outbox, k) ==> KeyCopy(k, copy) in n.seen
    ensures var q := Remember(n.db.outbox, k, copy);
      Noted(n.db.outbox, q) && forall id :: id in q ==> SavedOk(w, n.seen, q[id])
  {
    hide LocalOk, BoundaryOk, PayloadsOk, LocalCodesUnique, BaseOk;
    var q := Remember(n.db.outbox, k, copy);
    forall id | id in q ensures SavedOk(w, n.seen, q[id]) {
      assert SavedOk(w, n.seen, n.db.outbox[id]);
      if n.db.outbox[id].key == k && IsConflict(n.db.outbox[id]) {
        assert Stored(n.db.outbox, k);
      }
    }
  }

  lemma NotePulled(w: World, c: ClientId, n: Node, k: Key, copy: Copy, due: set<Key>)
    requires CoreOk(w, c, n) && CoveredOn(w.server.rows, n.db, due) && HasOpen(n.db.outbox, k)
    requires InArchive(w.server, k, copy) && (Stored(n.db.outbox, k) ==> KeyCopy(k, copy) in n.seen)
    ensures var db := ApplyPulled(n.db, k, copy);
      && CoreOk(w, c, n.(db := db)) && db.watermark == n.db.watermark && Noted(n.db.outbox, db.outbox)
      && (k in w.server.rows ==> CoveredOn(w.server.rows, db, due + {k}))
      && CoveredOn(w.server.rows, db, due)
  {
    hide CoreOk, InArchive, Remember, SavedOk, Stored;
    var q := Remember(n.db.outbox, k, copy);
    RememberRestates(w, c, n, k, copy);
    RestatedKeepsCore(w, c, n, q);
    RestatedKeepsOpen(n.db.outbox, q);
    assert n.(db := ApplyPulled(n.db, k, copy)) == WithOutbox(n, q);
  }

  lemma NotedTwice(o: Outbox, q: Outbox, r: Outbox)
    requires Noted(o, q) && Noted(q, r)
    ensures Noted(o, r)
  {
  }

  lemma NotedKeepsStored(o: Outbox, q: Outbox, k: Key)
    requires Noted(o, q)
    ensures Stored(q, k) <==> Stored(o, k)
    ensures HasOpen(q, k) <==> HasOpen(o, k)
  {
    RestatedKeepsOpen(o, q);
    if id :| id in o && o[id].key == k && !IsConflict(o[id]) {
      assert q[id].key == k && !IsConflict(q[id]);
    }
  }

  lemma DueNext(rows: map<Key, Row>, watermark: nat, snapshot: nat, items: seq<KeyCopy>, it: KeyCopy)
    ensures var due := DueAfter(rows, watermark, snapshot, items);
      var next := DueAfter(rows, watermark, snapshot, items + [it]);
      next == due || (next == due + {it.key} && it.key in rows && rows[it.key].copy == it.copy)
  {
    var due, next := DueAfter(rows, watermark, snapshot, items), DueAfter(rows, watermark, snapshot, items + [it]);
    forall k | k in next && k !in due ensures k == it.key && rows[k].copy == it.copy {
      assert KeyCopy(k, rows[k].copy) in items + [it];
    }
    assert forall k :: k in due ==> k in next;
  }

  /** A delivered copy is what the feed's rows held, so it fits every row already due. */
  lemma DeliveredFits(s: Server, watermark: nat, at: map<Key, Row>, snapshot: nat, items: seq<KeyCopy>, i: nat)
    requires Delivers(s, watermark, at, snapshot, items) && ServerHistory.ArchiveWithin(s) && i < |items|
    requires watermark <= snapshot
    ensures var k, copy := items[i].key, items[i].copy; var due := DueAfter(s.rows, watermark, snapshot, items[..i]);
      && copy.version >= 1 && InArchive(s, k, copy) && (!Scored(k.kind) ==> copy.code.None?) && k in s.rows
      && (k in due ==> s.rows[k].copy == copy)
      && (forall j :: j in due && j != k && j.kind == k.kind && copy.code.Some? ==> s.rows[j].copy.code != copy.code)
  {
    assert items[i] in items;
    assert VersionOf(items[i].key, items[i].copy.version) in s.archive;
  }

  lemma ApplyNext(w: World, c: ClientId, n: Node, db: Db, at: map<Key, Row>, snapshot: nat, items: seq<KeyCopy>, i: nat)
    requires Delivers(w.server, n.db.watermark, at, snapshot, items) && ServerHistory.ArchiveWithin(w.server)
    requires i < |items| && n.db.watermark <= snapshot
    requires Stored(n.db.outbox, items[i].key) ==> items[i] in n.seen
    requires Applied(w, c, n, db, snapshot, items[..i])
    ensures Applied(w, c, n, ApplyPulled(db, items[i].key, items[i].copy), snapshot, items[..i + 1])
  {
    hide Delivers, CoreOk, CoveredOn, InArchive, ServerHistory.ArchiveWithin, ApplyPulled, Stored, HasOpen, DueAfter,
         Noted;
    var k, copy := items[i].key, items[i].copy;
    var due := DueAfter(w.server.rows, n.db.watermark, snapshot, items[..i]);
    var m, next := n.(db := db), ApplyPulled(db, k, copy);
    assert items[i] == KeyCopy(k, copy) && items[..i + 1] == items[..i] + [items[i]];
    DeliveredFits(w.server, n.db.watermark, at, snapshot, items, i);
    DueNext(w.server.rows, n.db.watermark, snapshot, items[..i], items[i]);
    NotedKeepsStored(n.db.outbox, db.outbox, k);
    if HasOpen(db.outbox, k) {
      NotePulled(w, c, m, k, copy, due);
    } else {
      HasNoOpenStored(db.outbox, k);
      TakePulled(w, c, m, k, copy, due);
      NotedSelf(db.outbox);
    }
    NotedTwice(n.db.outbox, db.outbox, next.outbox);
    assert m.(db := next) == n.(db := next);
  }

  lemma HasNoOpenStored(o: Outbox, k: Key)
    requires !HasOpen(o, k)
    ensures Stored(o, k)
  {
  }

  lemma NotedSelf(o: Outbox)
    ensures Noted(o, o)
  {
  }

  lemma {:induction false} ApplyPrefix(
    w: World, c: ClientId, n: Node, at: map<Key, Row>, snapshot: nat, items: seq<KeyCopy>, i: nat)
    requires Delivers(w.server, n.db.watermark, at, snapshot, items) && ServerHistory.ArchiveWithin(w.server)
    requires i <= |items| && n.db.watermark <= snapshot
    requires CoreOk(w, c, n) && CoverageOk(w.server.rows, n.db)
    requires forall it :: it in items && Stored(n.db.outbox, it.key) ==> it in n.seen
    ensures Applied(w, c, n, ApplyAllPulled(n.db, items[..i]), snapshot, items[..i])
  {
    hide Delivers, CoreOk, ServerHistory.ArchiveWithin, Stored, ApplyPulled;
    if i == 0 {
      hide HasOpen, SameRow;
      assert n.(db := n.db) == n;
      assert Noted(n.db.outbox, n.db.outbox);
    } else {
      hide Applied, CoverageOk;
      ApplyPrefix(w, c, n, at, snapshot, items, i - 1);
      assert items[..i][..i - 1] == items[..i - 1];
      ApplyNext(w, c, n, ApplyAllPulled(n.db, items[..i - 1]), at, snapshot, items, i - 1);
    }
  }

  /** All pulled rows and the new watermark in one transaction. */
  lemma ApplyPullKeeps(w: World, c: ClientId, n: Node)
    requires WorldOk(w) && NodeOk(w, c, n) && CanApplyPull(n)
    ensures NodeOk(w, c, ApplyPull(n))
  {
    hide OutboxOk, LocalOk, BasesOk, BoundaryOk, PayloadsOk, LocalCodesUnique, CoverageOk, OwnersOk, ReceiptsOk,
         Delivers, ServerHistory.RowsStamped, ServerHistory.CodesUnique, ServerHistory.ArchiveCurrent,
         ServerHistory.ArchiveFull, ServerHistory.ArchiveWithin, ServerHistory.AuditOk, ServerHistory.VersionSum,
         ApplyAllPulled, Stored, PulledItems, Applied, PullFeed.Later, PullFeed.Finished, InArchive,
         PullFeed.FeedSound, PullFeed.FeedComplete;
    var p := n.phase.pull;
    var items := Copies(PulledItems(p));
    var m := n.(seen := n.seen + (set it | it in items && Stored(n.db.outbox, it.key)));
    FinishedDelivers(w.server, n.db.watermark, p);
    SeenGrows(w, c, n, m.seen);
    ApplyPrefix(w, c, m, p.at, p.snapshot, items, |items|);
    assert items[..|items|] == items;
    ApplyEnds(w, c, m, ApplyAllPulled(n.db, items), p.at, p.snapshot, items);
    assert ApplyPull(n) == Node(ApplyAllPulled(n.db, items).(watermark := p.snapshot), Idle, m.sent, m.seen);
  }

  /** An open conflict notes the pulled copy of its row. */
  lemma {:induction false} ConflictNotes(db: Db, items: seq<KeyCopy>, id: ChangeId, copy: Copy)
    requires id in db.outbox && IsConflict(db.outbox[id]) && KeyCopy(db.outbox[id].key, copy) in items
    requires forall it :: it in items && it.key == db.outbox[id].key ==> it.copy == copy
    ensures var q := ApplyAllPulled(db, items).outbox;
      id in q && q[id] == db.outbox[id].(status := Blocked(Conflicting, Some(copy)))
  {
    var n := |items| - 1;
    var k := db.outbox[id].key;
    if KeyCopy(k, copy) in items[..n] {
      ConflictNotes(db, items[..n], id, copy);
    } else {
      UntouchedConflict(db, items[..n], id);
      assert items == items[..n] + [items[n]];
    }
    var before := ApplyAllPulled(db, items[..n]);
    assert HasOpen(before.outbox, items[n].key) || items[n].key != k by {
      assert id in before.outbox && before.outbox[id].key == k;
    }
  }

  lemma {:induction false} UntouchedConflict(db: Db, items: seq<KeyCopy>, id: ChangeId)
    requires id in db.outbox && forall it :: it in items ==> it.key != db.outbox[id].key
    ensures id in ApplyAllPulled(db, items).outbox && ApplyAllPulled(db, items).outbox[id] == db.outbox[id]
  {
    if items != [] {
      UntouchedConflict(db, items[..|items| - 1], id);
    }
  }

  lemma {:induction false} NothingQueued(db: Db, items: seq<KeyCopy>)
    requires db.outbox == map[]
    ensures ApplyAllPulled(db, items).outbox == map[]
  {
    if items != [] {
      NothingQueued(db, items[..|items| - 1]);
    }
  }

  lemma ApplyEnds(w: World, c: ClientId, n: Node, db: Db, at: map<Key, Row>, snapshot: nat, items: seq<KeyCopy>)
    requires Applied(w, c, n, db, snapshot, items) && Delivers(w.server, n.db.watermark, at, snapshot, items)
    requires n.db.watermark <= snapshot <= w.server.last
    ensures NodeOk(w, c, Node(db.(watermark := snapshot), Idle, n.sent, n.seen))
  {
    hide InArchive, ServerHistory.CodesUnique, PullFeed.Later;
    var m := Node(db.(watermark := snapshot), Idle, n.sent, n.seen);
    assert CoreOk(w, c, m) by {
      hide CoveredOn, Delivers;
      CoreWatermark(w, c, n.(db := db), m);
    }
    hide CoreOk;
    forall k | k in w.server.rows && w.server.rows[k].sequence <= snapshot ensures Covered(w.server.rows, m.db, k) {
      assert k in DueAfter(w.server.rows, n.db.watermark, snapshot, items);
      assert Covered(w.server.rows, db, k);
    }
  }

  lemma CoreWatermark(w: World, c: ClientId, n: Node, m: Node)
    requires CoreOk(w, c, n) && m.db == n.db.(watermark := m.db.watermark) && m.sent == n.sent && m.seen == n.seen
    requires m.db.watermark <= w.server.last
    ensures CoreOk(w, c, m)
  {
    hide LocalRowOk, BaseOk, SavedOk, SentKey, LocalCodesUnique, Owned;
    WatermarkKeepsOutbox(n.db, m.db);
    hide OutboxOk;
    forall ch | ch in m.sent ensures SentPayloadOk(w, c, m, ch) {
      assert SentPayloadOk(w, c, n, ch);
    }
  }

  lemma WatermarkKeepsOutbox(db: Db, after: Db)
    requires OutboxOk(db) && after == db.(watermark := after.watermark)
    ensures OutboxOk(after)
  {
    forall k | Live(after, k) && (after.local[k].dirty || after.local[k].copy.version == 0) ensures HasOpen(after.outbox, k) {
      assert Live(db, k);
    }
  }

  // ----- Taking the server's side -----

  /** A smaller watermark asks less of a result that is still to be processed. */
  lemma ResultLower(s: Server, high: nat, low: nat, c: ClientId, ch: Change, r: Result)
    requires ResultOk(s, high, c, ch, r) && low <= high
    ensures ResultOk(s, low, c, ch, r)
  {
  }

  lemma ConflictGoneKeepsCarried(n: Node, m: Node, id: ChangeId, ch: Change)
    requires OnePerKey(n.db.outbox) && id in n.db.outbox && IsConflict(n.db.outbox[id])
    requires m.db.outbox == WithoutKey(n.db.outbox, n.db.outbox[id].key) && Carried(n.db.outbox, ch)
    ensures Carried(m.db.outbox, ch)
  {
    var o, q := n.db.outbox, m.db.outbox;
    if ch.id !in o {
      var i :| i in o && o[i].key == ch.key && Sendable(o[i]) && !o[i].attempted;
      assert i in q && q[i] == o[i];
    }
  }

  lemma UseServerKeepsPhase(w: World, c: ClientId, n: Node, m: Node, id: ChangeId)
    requires NodeOk(w, c, n) && CanResolve(n, id) && m.phase == n.phase && m.sent == n.sent && m.db.watermark == 0
    requires m.db.outbox == WithoutKey(n.db.outbox, n.db.outbox[id].key)
    ensures PhaseOk(w.server, c, m)
  {
    CorePayloads(w, c, n);
    hide CoreOk, CoverageOk, ResultOk, CodesApart, WithoutKey;
    forall ch | Carried(n.db.outbox, ch) ensures Carried(m.db.outbox, ch) {
      ConflictGoneKeepsCarried(n, m, id, ch);
    }
    hide Carried;
    forall ch, r | ResultOk(w.server, n.db.watermark, c, ch, r) ensures ResultOk(w.server, 0, c, ch, r) {
      ResultLower(w.server, n.db.watermark, 0, c, ch, r);
    }
  }

  lemma UseServerShape(db: Db, id: ChangeId)
    requires OnePerKey(db.outbox) && OpenConflict(db, id) && UseServer(db, id).Some?
    ensures var k, copy := db.outbox[id].key, db.outbox[id].status.saved.value;
      UseServer(db, id).value == Db(PutCopy(db.local, k, copy), WithoutKey(db.outbox, k), 0)
  {
    hide PutCopy;
    assert db.outbox - {id} == WithoutKey(db.outbox, db.outbox[id].key);
  }

  lemma SavedFacts(w: World, c: ClientId, n: Node, id: ChangeId)
    requires CoreOk(w, c, n) && ServerHistory.ArchiveWithin(w.server)
    requires OpenConflict(n.db, id) && n.db.outbox[id].status.saved.Some?
    ensures var k, copy := n.db.outbox[id].key, n.db.outbox[id].status.saved.value;
      && copy.version >= 1 && InArchive(w.server, k, copy) && KeyCopy(k, copy) in n.seen
      && (!Scored(k.kind) ==> copy.code.None?)
  {
    hide OutboxOk, LocalOk, BoundaryOk, PayloadsOk, LocalCodesUnique, BaseOk;
    assert SavedOk(w, n.seen, n.db.outbox[id]);
    assert VersionOf(n.db.outbox[id].key, n.db.outbox[id].status.saved.value.version) in w.server.archive;
  }

  lemma UseServerKeeps(w: World, c: ClientId, n: Node, id: ChangeId)
    requires WorldOk(w) && NodeOk(w, c, n) && CanResolve(n, id) && UseServer(n.db, id).Some?
    ensures NodeOk(w, c, n.(db := UseServer(n.db, id).value))
  {
    hide OwnersOk, ReceiptsOk, CoverageOk, PhaseOk, UseServer, PutCopy, WithoutKey, InArchive, CoreOk,
         ServerHistory.CodesUnique, ServerHistory.ArchiveCurrent, ServerHistory.ArchiveFull,
         ServerHistory.ArchiveWithin, ServerHistory.AuditOk, ServerHistory.VersionSum;
    CorePayloads(w, c, n);
    SavedNeeded(n.db, id);
    var k, copy := n.db.outbox[id].key, n.db.outbox[id].status.saved.value;
    var m := n.(db := UseServer(n.db, id).value);
    UseServerShape(n.db, id);
    SavedFacts(w, c, n, id);
    TookKeepsCore(w, c, n, k, copy);
    CoreWatermark(w, c, Took(n, k, copy), m);
    UseServerKeepsPhase(w, c, n, m, id);
    NothingDue(w.server, m.db);
  }

  lemma SavedNeeded(db: Db, id: ChangeId)
    requires OpenConflict(db, id) && UseServer(db, id).Some?
    ensures db.outbox[id].status.saved.Some?
  {
  }

  lemma NothingDue(s: Server, db: Db)
    requires ServerHistory.RowsStamped(s) && db.watermark == 0
    ensures CoverageOk(s.rows, db)
  {
  }
}
