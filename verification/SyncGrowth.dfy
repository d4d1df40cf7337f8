/** The server moving on under a client keeps everything the client relies on. */
module SyncGrowth {
  import opened Protocol
  import opened PushRules
  import opened LocalDb
  import opened SyncModel
  import opened SyncInvariant
  import ServerHistory
  import PullFeed

  ghost predicate Grows(w: World, v: World) {
    && ServerHistory.Evolves(w.server, v.server)
    && (forall k :: k in w.owner ==> k in v.owner && v.owner[k] == w.owner[k])
    && (forall id :: id in w.minted ==> id in v.minted && v.minted[id] == w.minted[id])
  }

  lemma KnowledgeGrows(w: World, v: World)
    requires Grows(w, v)
    ensures forall c, k, b :: Wrote(w.server, c, k, b) ==> Wrote(v.server, c, k, b)
    ensures forall c, seen, k, b :: Knows(w.server, c, seen, k, b) ==> Knows(v.server, c, seen, k, b)
    ensures forall c, seen, k, base :: BaseOk(w, c, seen, k, base) ==> BaseOk(v, c, seen, k, base)
    ensures forall k, copy :: InArchive(w.server, k, copy) ==> InArchive(v.server, k, copy)
    ensures forall c, seen, k, l :: LocalRowOk(w, c, seen, k, l) ==> LocalRowOk(v, c, seen, k, l)
    ensures forall seen, e :: SavedOk(w, seen, e) ==> SavedOk(v, seen, e)
  {
  }

  lemma ResultGrows(s: Server, t: Server, watermark: nat, c: ClientId, ch: Change, r: Result)
    requires ServerHistory.Evolves(s, t) && watermark <= s.last
    requires ResultOk(s, watermark, c, ch, r)
    ensures ResultOk(t, watermark, c, ch, r)
  {
  }

  lemma PullGrows(s: Server, t: Server, watermark: nat, p: PullFeed.Pull)
    requires ServerHistory.Evolves(s, t) && ServerHistory.RowsStamped(s)
    requires PullingOk(s, watermark, p)
    ensures PullingOk(t, watermark, p)
  {
    hide PullFeed.FeedSound, PullFeed.FeedComplete, ServerHistory.CodesUnique;
    PullFeed.WritersKeepPull(p, s.rows, s.last, t.rows);
  }

  lemma PhaseGrows(s: Server, t: Server, c: ClientId, n: Node)
    requires ServerHistory.Evolves(s, t) && ServerHistory.RowsStamped(s) && n.db.watermark <= s.last
    requires PhaseOk(s, c, n)
    ensures PhaseOk(t, c, n)
  {
    hide ServerHistory.Evolves, ServerHistory.RowsStamped, ResultOk, PullingOk, CodesApart, BatchOk, Carried;
    match n.phase
    case Idle =>
    case Pushing(batch, replies) =>
      forall reply, i | reply in replies && 0 <= i < |batch|
        ensures ResultOk(t, n.db.watermark, c, batch[i], reply[i])
      {
        ResultGrows(s, t, n.db.watermark, c, batch[i], reply[i]);
      }
    case Settling(todo) =>
      forall a | a in todo ensures ResultOk(t, n.db.watermark, c, a.change, a.result) {
        ResultGrows(s, t, n.db.watermark, c, a.change, a.result);
      }
    case Pulling(p) =>
      PullGrows(s, t, n.db.watermark, p);
  }

  lemma CoverageGrows(s: Server, t: Server, db: Db)
    requires ServerHistory.Evolves(s, t) && db.watermark <= s.last
    requires CoverageOk(s.rows, db)
    ensures CoverageOk(t.rows, db)
  {
  }

  /** New rows of this client, and receipts for its changes, come from what it sent. */
  ghost predicate FromSent(w: World, c: ClientId, n: Node) {
    && (forall k :: k in w.server.rows && Owned(w, k, c) ==> SentKey(n.sent, k))
    && (forall id :: id in w.server.receipts && id in w.minted && w.minted[id] == c ==>
        w.server.receipts[id].payload.Some? && w.server.receipts[id].payload.value in n.sent)
  }

  lemma NodeGrows(w: World, v: World, c: ClientId, n: Node)
    requires Grows(w, v) && ServerHistory.RowsStamped(w.server) && NodeOk(w, c, n) && FromSent(v, c, n)
    ensures NodeOk(v, c, n)
  {
    KnowledgeGrows(w, v);
    PhaseGrows(w.server, v.server, c, n);
    CoverageGrows(w.server, v.server, n.db);
    assert BasesOk(v, c, n) by {
      hide PhaseOk, CoverageOk, OutboxOk, LocalOk, PayloadsOk, BoundaryOk, LocalCodesUnique, BaseOk, SavedOk;
    }
    assert LocalOk(v, c, n) by {
      hide PhaseOk, CoverageOk, OutboxOk, BasesOk, PayloadsOk, BoundaryOk, LocalCodesUnique, LocalRowOk;
    }
    hide PhaseOk, CoverageOk, OutboxOk, LocalOk, BasesOk, LocalCodesUnique;
  }
}
