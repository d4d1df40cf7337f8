/** The inductive invariant of the protocol, one named part per concern. */
module SyncInvariant {
  import opened Protocol
  import opened PushRules
  import opened LocalDb
  import opened SyncModel
  import ServerHistory
  import PullFeed

  ghost predicate InArchive(s: Server, k: Key, copy: Copy) {
    VersionOf(k, copy.version) in s.archive && s.archive[VersionOf(k, copy.version)].copy == copy
  }

  // ----- The server side -----

  /** A row's minter is the author of its version one. */
  ghost predicate OwnersOk(w: World) {
    forall k :: k in w.server.rows ==>
      k in w.owner && VersionOf(k, 1) in w.server.archive
      && w.server.archive[VersionOf(k, 1)].writer == w.owner[k]
  }

  ghost predicate ErrorOk(r: Result) {
    r.outcome.Error? ==>
      r.record.None? && r.version.None? && !r.outcome.kind.Conflicting?
      && r.outcome.retryable == r.outcome.kind.Transient?
  }

  ghost predicate StoredOk(s: Server, user: ClientId, ch: Change, r: Result) {
    && r.id == ch.id && r.key == ch.key && !r.replayed && r.receiptVersion.None?
    && (r.record.Some? <==> r.version.Some?)
    && (r.record.Some? ==> r.version == Some(r.record.value.version) && InArchive(s, ch.key, r.record.value))
    && (r.outcome.Accepted? && r.record.Some? ==> Wrote(s, user, ch.key, r.version.value))
    && (r.outcome.Accepted? && ch.op.Upsert? ==> r.record.Some?)
    && (r.outcome.Conflict? ==> r.record.Some?)
    && ErrorOk(r)
  }

  ghost predicate ReceiptOk(w: World, id: ChangeId)
    requires id in w.server.receipts
  {
    var receipt := w.server.receipts[id];
    && id in w.minted && receipt.user == w.minted[id]
    && receipt.payload.Some? && receipt.payload.value.id == id
    && StoredOk(w.server, receipt.user, receipt.payload.value, receipt.result)
  }

  ghost predicate ReceiptsOk(w: World) {
    forall id :: id in w.server.receipts ==> ReceiptOk(w, id)
  }

  ghost predicate WorldOk(w: World) {
    && ServerHistory.Good(w.server)
    && OwnersOk(w)
    && ReceiptsOk(w)
  }

  // ----- One client: rows and outbox -----

  /** An entry's row exists and is dirty, and is deleted exactly when the entry is a delete. */
  ghost predicate EntryRowOk(local: Locals, e: Entry) {
    e.key in local && local[e.key].dirty && (e.op.Delete? <==> local[e.key].copy.deleted)
  }

  ghost predicate OutboxOk(db: Db) {
    && OnePerKey(db.outbox)
    && (forall id :: id in db.outbox ==> EntryRowOk(db.local, db.outbox[id]))
    && (forall k :: Live(db, k) && (db.local[k].dirty || db.local[k].copy.version == 0) ==> HasOpen(db.outbox, k))
  }

  ghost predicate LocalRowOk(w: World, c: ClientId, seen: set<KeyCopy>, k: Key, l: Local) {
    && (l.copy.version == 0 ==> Owned(w, k, c) && l.dirty)
    && (l.copy.version >= 1 ==> Knows(w.server, c, seen, k, l.copy.version))
  }

  ghost predicate LocalOk(w: World, c: ClientId, n: Node) {
    forall k :: k in n.db.local ==> LocalRowOk(w, c, n.seen, k, n.db.local[k])
  }

  // ----- One client: base versions -----

  /** Known, or version one of a row this client minted; no base only for its own creates. */
  ghost predicate BaseOk(w: World, c: ClientId, seen: set<KeyCopy>, k: Key, base: Option<int>) {
    match base
    case None => Owned(w, k, c)
    case Some(b) => b >= 1 && (Knows(w.server, c, seen, k, b) || (b == 1 && Owned(w, k, c)))
  }

  ghost predicate SavedOk(w: World, seen: set<KeyCopy>, e: Entry) {
    && (e.status.Blocked? && e.status.saved.Some? ==>
        InArchive(w.server, e.key, e.status.saved.value) && KeyCopy(e.key, e.status.saved.value) in seen)
    && (IsConflict(e) ==> e.status.saved.Some?)
  }

  ghost predicate BasesOk(w: World, c: ClientId, n: Node) {
    && (forall id :: id in n.db.outbox ==>
        BaseOk(w, c, n.seen, n.db.outbox[id].key, n.db.outbox[id].base)
        && SavedOk(w, n.seen, n.db.outbox[id]))
    && (forall ch :: ch in n.sent ==> BaseOk(w, c, n.seen, ch.key, ch.base))
  }

  // ----- One client: the send boundary -----

  ghost predicate SentKey(sent: set<Change>, k: Key) {
    exists ch :: ch in sent && ch.key == k
  }

  ghost predicate BoundaryOk(w: World, c: ClientId, n: Node) {
    && (forall id :: id in n.db.outbox && n.db.outbox[id].base.None? && !n.db.outbox[id].attempted ==>
        !SentKey(n.sent, n.db.outbox[id].key))
    && (forall k :: k in w.server.rows && Owned(w, k, c) ==> SentKey(n.sent, k))
  }

  // ----- One client: payloads -----

  ghost predicate SentPayloadOk(w: World, c: ClientId, n: Node, ch: Change) {
    && ch.id in w.minted && w.minted[ch.id] == c
    && (ch.id in n.db.outbox ==>
        n.db.outbox[ch.id].attempted && n.db.outbox[ch.id].key == ch.key
        && (!IsConflict(n.db.outbox[ch.id]) ==> ChangeOf(ch.id, n.db.outbox[ch.id]) == ch))
  }

  ghost predicate PayloadsOk(w: World, c: ClientId, n: Node) {
    && (forall ch :: ch in n.sent ==> SentPayloadOk(w, c, n, ch))
    && (forall a, b :: a in n.sent && b in n.sent && a.id == b.id ==> a == b)
    && (forall id :: id in n.db.outbox ==> id in w.minted && w.minted[id] == c)
    && (forall id :: id in w.server.receipts && id in w.minted && w.minted[id] == c ==>
        w.server.receipts[id].payload.Some? && w.server.receipts[id].payload.value in n.sent)
  }

  // ----- One client: coverage -----

  predicate SameRow(local: Locals, k: Key, copy: Copy) {
    k in local && local[k].copy == copy
  }

  ghost predicate Covered(rows: map<Key, Row>, db: Db, k: Key)
    requires k in rows
  {
    HasOpen(db.outbox, k) || SameRow(db.local, k, rows[k].copy)
  }

  /** Every server row up to the watermark is locally equal or has an open local change. */
  ghost predicate CoverageOk(rows: map<Key, Row>, db: Db) {
    forall k :: k in rows && rows[k].sequence <= db.watermark ==> Covered(rows, db, k)
  }

  ghost predicate LocalCodesUnique(local: Locals) {
    && (forall k :: k in local && !Scored(k.kind) ==> local[k].copy.code.None?)
    && (forall j, k ::
        (j in local && k in local && j != k && j.kind == k.kind && local[j].copy.code.Some?)
        ==> local[j].copy.code != local[k].copy.code)
  }

  // ----- One client: the sync run -----

  /** A newer local edit of the row waits unsent. */
  ghost predicate Replaced(outbox: Outbox, k: Key) {
    exists id :: id in outbox && outbox[id].key == k && Sendable(outbox[id]) && !outbox[id].attempted
  }

  ghost predicate Carried(outbox: Outbox, ch: Change) {
    if ch.id in outbox then Sendable(outbox[ch.id]) else ch.op.Upsert? && Replaced(outbox, ch.key)
  }

  ghost predicate DistinctKeys(batch: seq<Change>) {
    forall i, j :: 0 <= i < j < |batch| ==> batch[i].key != batch[j].key && batch[i].id != batch[j].id
  }

  /** No other row of the feed up to the watermark holds this code. */
  ghost predicate CodeSafe(rows: map<Key, Row>, watermark: nat, k: Key, code: Option<string>) {
    code.Some? ==>
      && Scored(k.kind)
      && forall j :: j in rows && j != k && j.kind == k.kind && rows[j].sequence <= watermark ==>
           rows[j].copy.code != code
  }

  ghost predicate FreshCopy(rows: map<Key, Row>, watermark: nat, k: Key, copy: Copy) {
    k in rows && (rows[k].copy == copy || rows[k].sequence > watermark) && CodeSafe(rows, watermark, k, copy.code)
  }

  ghost predicate NoRowYet(rows: map<Key, Row>, watermark: nat, k: Key) {
    k in rows ==> rows[k].sequence > watermark
  }

  /** The receipt of this id says the same. */
  ghost predicate Answered(s: Server, r: Result) {
    r.id in s.receipts && s.receipts[r.id].result.outcome == r.outcome
  }

  /** What a client may rely on in a result it is still going to process. */
  ghost predicate ResultOk(s: Server, watermark: nat, c: ClientId, ch: Change, r: Result) {
    && r.id == ch.id && r.key == ch.key
    && (!r.outcome.Error? ==> Answered(s, r))
    && (r.record.Some? <==> r.version.Some?)
    && (r.record.Some? ==> r.version == Some(r.record.value.version) && InArchive(s, ch.key, r.record.value))
    && (r.outcome.Accepted? && ch.op.Upsert? ==>
        r.record.Some? && AcknowledgedVersion(r).Some? && Wrote(s, c, ch.key, AcknowledgedVersion(r).value))
    && (r.outcome.Accepted? && r.record.Some? ==> FreshCopy(s.rows, watermark, ch.key, r.record.value))
    && (r.outcome.Accepted? && r.record.None? ==> ch.op.Delete? && NoRowYet(s.rows, watermark, ch.key))
    && (r.outcome.Conflict? ==> r.record.Some?)
    && ErrorOk(r)
  }

  predicate CarriesCode(r: Result) {
    r.outcome.Accepted? && r.record.Some? && r.record.value.code.Some?
  }

  /** Records acknowledged together never carry the same code. */
  ghost predicate CodesApart(reply: seq<Result>) {
    forall i, j ::
      (0 <= i < j < |reply| && CarriesCode(reply[i]) && CarriesCode(reply[j])
       && reply[i].key.kind == reply[j].key.kind)
      ==> reply[i].record.value.code != reply[j].record.value.code
  }

  ghost predicate ReplyOk(s: Server, watermark: nat, c: ClientId, batch: seq<Change>, reply: seq<Result>) {
    && |reply| == |batch|
    && (forall i :: 0 <= i < |batch| ==> ResultOk(s, watermark, c, batch[i], reply[i]))
    && CodesApart(reply)
  }

  ghost predicate BatchOk(n: Node, batch: seq<Change>) {
    DistinctKeys(batch) && forall i :: 0 <= i < |batch| ==> batch[i] in n.sent && Carried(n.db.outbox, batch[i])
  }

  ghost predicate AnswersApart(todo: seq<Answer>) {
    forall i, j :: 0 <= i < j < |todo| ==>
      todo[i].change.key != todo[j].change.key && todo[i].change.id != todo[j].change.id
  }

  ghost predicate TodoOk(s: Server, c: ClientId, n: Node, todo: seq<Answer>) {
    && AnswersApart(todo)
    && (forall a :: a in todo ==>
        a.change in n.sent && Carried(n.db.outbox, a.change)
        && ResultOk(s, n.db.watermark, c, a.change, a.result) && !Acknowledges(a.result))
  }

  ghost predicate PullingOk(s: Server, watermark: nat, p: PullFeed.Pull) {
    && p.since == watermark && p.snapshot <= s.last
    && PullFeed.PullOk(p, s.rows)
    && ServerHistory.CodesUnique(p.at)
    && (forall k :: k in p.at ==> InArchive(s, k, p.at[k].copy))
  }

  ghost predicate PhaseOk(s: Server, c: ClientId, n: Node) {
    match n.phase
    case Idle => true
    case Pushing(batch, replies) =>
      BatchOk(n, batch) && forall reply :: reply in replies ==> ReplyOk(s, n.db.watermark, c, batch, reply)
    case Settling(todo) => TodoOk(s, c, n, todo)
    case Pulling(p) => PullingOk(s, n.db.watermark, p)
  }

  /** Everything about a client but its coverage and its running sync. */
  ghost predicate CoreOk(w: World, c: ClientId, n: Node) {
    && OutboxOk(n.db)
    && LocalOk(w, c, n)
    && BasesOk(w, c, n)
    && BoundaryOk(w, c, n)
    && PayloadsOk(w, c, n)
    && n.db.watermark <= w.server.last
    && LocalCodesUnique(n.db.local)
  }

  ghost predicate NodeOk(w: World, c: ClientId, n: Node) {
    CoreOk(w, c, n) && CoverageOk(w.server.rows, n.db) && PhaseOk(w.server, c, n)
  }

  ghost predicate Inv(s: Sys) {
    && WorldOk(s.world)
    && (forall c :: c in s.nodes ==> NodeOk(s.world, c, s.nodes[c]))
  }
}
