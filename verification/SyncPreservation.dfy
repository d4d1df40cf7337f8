/** Every step of the system keeps the invariant, so every reachable state has it. */
module SyncPreservation {
  import opened Protocol
  import opened PushRules
  import opened LocalDb
  import opened SyncModel
  import opened SyncInvariant
  import opened SyncGrowth
  import opened SyncQueueing
  import opened SyncEdits
  import SyncServerSteps
  import SyncAcknowledge
  import SyncSettling
  import SyncPulling
  import SyncMerging
  import ServerHistory

  // ----- New ids -----

  /** The world after an edit: only ids nobody used before are new. */
  ghost predicate Mints(w: World, v: World) {
    && v.server == w.server && Grows(w, v)
    && (forall k :: k in v.owner && k !in w.owner ==> k !in w.server.rows)
    && (forall id :: id in v.minted && id !in w.minted ==> id !in w.server.receipts)
  }

  lemma MintingMints(w: World, k: Key, id: ChangeId, c: ClientId)
    requires WorldOk(w) && id !in w.minted
    ensures Mints(w, Minting(w, id, c)) && Mints(w, Minting(Claiming(w, k, c), id, c))
    ensures WorldOk(Minting(w, id, c)) && WorldOk(Minting(Claiming(w, k, c), id, c))
  {
    hide ServerHistory.Good, StoredOk, ServerHistory.Evolves;
    ServerHistory.EvolvesRefl(w.server);
    assert forall i :: i in w.server.receipts ==> ReceiptOk(w, i);
    MintKeepsWorld(w, Minting(w, id, c));
    MintKeepsWorld(w, Minting(Claiming(w, k, c), id, c));
  }

  lemma MintedFor(w: World, v: World, c: ClientId, n: Node, id: ChangeId)
    requires WorldOk(w) && NodeOk(w, c, n) && Mints(w, v)
    requires id !in w.minted && id in v.minted && v.minted[id] == c
    ensures NodeOk(v, c, n) && IdFresh(v, c, n, id)
  {
    hide WorldOk, OutboxOk, LocalOk, BasesOk, BoundaryOk, CoverageOk, PhaseOk, LocalCodesUnique, Grows;
    MintKeeps(w, v, c, n);
    assert forall ch :: ch in n.sent ==> SentPayloadOk(w, c, n, ch);
  }

  // ----- Steps of one client -----

  /** What the guard of a save says of a new row and of a row that is there. */
  lemma SaveAllowed(w: World, c: ClientId, n: Node, k: Key, r: Record, editorBase: Option<int>, id: ChangeId)
    requires CanSave(w, c, n, k, r, editorBase, id)
    ensures id !in w.minted && (!Scored(k.kind) ==> r.code.Absent?)
    ensures if k in n.db.local then Live(n.db, k) else k !in w.owner
    ensures CodeFree(n.db.local, k, EditedCopy(n.db.local, k, r).code)
    ensures editorBase.Some? ==> Knows(w.server, c, n.seen, k, editorBase.value)
  {
    hide CodeFree, Knows;
  }

  lemma ClaimedWorld(w: World, k: Key, id: ChangeId, c: ClientId)
    ensures var v := Minting(Claiming(w, k, c), id, c);
      v.server == w.server && id in v.minted && v.minted[id] == c && (k !in w.owner ==> Owned(v, k, c))
  {
  }

  lemma CreateKeeps(w: World, c: ClientId, n: Node, k: Key, r: Record, editorBase: Option<int>, id: ChangeId)
    requires WorldOk(w) && NodeOk(w, c, n) && CanSave(w, c, n, k, r, editorBase, id) && k !in n.db.local
    ensures NodeOk(Minting(Claiming(w, k, c), id, c), c, Save(n, k, r, editorBase, id))
  {
    hide WorldOk, NodeOk, CanSave, Save, IdFresh, CodeFree, Mints, Minting, Claiming, Owned, Knows, SentKey, HasOpen;
    SaveAllowed(w, c, n, k, r, editorBase, id);
    MintingMints(w, k, id, c);
    ClaimedWorld(w, k, id, c);
    NewKeyUnused(w, c, n, k);
    var v := Minting(Claiming(w, k, c), id, c);
    MintedFor(w, v, c, n, id);
    SavedKeeps(v, c, n, k, r, editorBase, id);
  }

  lemma ChangeKeeps(w: World, c: ClientId, n: Node, k: Key, r: Record, editorBase: Option<int>, id: ChangeId)
    requires WorldOk(w) && NodeOk(w, c, n) && CanSave(w, c, n, k, r, editorBase, id) && k in n.db.local
    ensures NodeOk(Minting(Claiming(w, k, c), id, c), c, Save(n, k, r, editorBase, id))
  {
    hide WorldOk, NodeOk, CanSave, Save, IdFresh, CodeFree, Mints, Minting, Claiming, Owned, Knows, SentKey, HasOpen;
    SaveAllowed(w, c, n, k, r, editorBase, id);
    MintingMints(w, k, id, c);
    ClaimedWorld(w, k, id, c);
    var v := Minting(Claiming(w, k, c), id, c);
    MintedFor(w, v, c, n, id);
    SavedKeeps(v, c, n, k, r, editorBase, id);
  }

  lemma SavedKeeps(v: World, c: ClientId, n: Node, k: Key, r: Record, editorBase: Option<int>, id: ChangeId)
    requires NodeOk(v, c, n) && IdFresh(v, c, n, id) && (!Scored(k.kind) ==> r.code.Absent?)
    requires k in n.db.local ==> Live(n.db, k)
    requires k !in n.db.local ==> Owned(v, k, c) && !SentKey(n.sent, k) && !HasOpen(n.db.outbox, k)
    requires CodeFree(n.db.local, k, EditedCopy(n.db.local, k, r).code)
    requires editorBase.Some? ==> Knows(v.server, c, n.seen, k, editorBase.value)
    ensures NodeOk(v, c, Save(n, k, r, editorBase, id))
  {
    hide NodeOk, SaveRow, Save, Queues, IdFresh, CodeFree, WithRow, EditedCopy, Owned, Knows, SentKey, HasOpen, Live;
    var e := SaveQueues(v, c, n, k, r, editorBase, id);
    var l, q := Local(EditedCopy(n.db.local, k, r), true), SaveRow(n.db, k, r, editorBase, id).outbox;
    QueueKeeps(v, c, n, k, l, q, e);
    SavedNode(n, k, r, editorBase, id);
  }

  lemma SaveKeeps(w: World, c: ClientId, n: Node, k: Key, r: Record, editorBase: Option<int>, id: ChangeId)
    requires WorldOk(w) && NodeOk(w, c, n) && CanSave(w, c, n, k, r, editorBase, id)
    ensures NodeOk(Minting(Claiming(w, k, c), id, c), c, Save(n, k, r, editorBase, id))
  {
    hide WorldOk, NodeOk, CanSave, Save, Minting, Claiming;
    if k in n.db.local {
      ChangeKeeps(w, c, n, k, r, editorBase, id);
    } else {
      CreateKeeps(w, c, n, k, r, editorBase, id);
    }
  }

  lemma SavedNode(n: Node, k: Key, r: Record, editorBase: Option<int>, id: ChangeId)
    ensures WithRow(n, k, Local(EditedCopy(n.db.local, k, r), true), SaveRow(n.db, k, r, editorBase, id).outbox)
         == Save(n, k, r, editorBase, id)
  {
    hide Replace, OverrideBase;
  }

  lemma NewKeyUnused(w: World, c: ClientId, n: Node, k: Key)
    requires WorldOk(w) && NodeOk(w, c, n) && k !in w.owner && k !in n.db.local
    ensures !SentKey(n.sent, k) && !HasOpen(n.db.outbox, k)
  {
    hide ReceiptsOk, LocalOk, BoundaryOk, PayloadsOk, CoverageOk, PhaseOk, LocalCodesUnique,
         ServerHistory.RowsStamped, ServerHistory.CodesUnique, ServerHistory.ArchiveCurrent,
         ServerHistory.ArchiveFull, ServerHistory.ArchiveWithin, ServerHistory.AuditOk, ServerHistory.VersionSum,
         BaseOk, SavedOk;
    SentKeysOwned(w, c, n);
    assert forall id :: id in n.db.outbox ==> EntryRowOk(n.db.local, n.db.outbox[id]);
  }

  lemma DiscardKeeps(w: World, c: ClientId, n: Node, k: Key, id: ChangeId)
    requires NodeOk(w, c, n) && Live(n.db, k) && Discards(n.db, k)
    ensures NodeOk(w, c, n.(db := DeleteRow(n.db, k, id)))
  {
    var m := n.(db := DeleteRow(n.db, k, id));
    assert DropsRow(n, m, k) by { hide NodeOk, Replace; }
    assert CoreOk(w, c, n) by { hide CoreOk, CoverageOk, PhaseOk; }
    hide NodeOk, CoreOk, SentKey, DropsRow, DeleteRow, Discards;
    DiscardIsUnsent(w, c, n, k);
    DropKeeps(w, c, n, m, k);
  }

  lemma DeleteKeeps(w: World, c: ClientId, n: Node, k: Key, id: ChangeId)
    requires WorldOk(w) && NodeOk(w, c, n) && CanDelete(w, n, k, id)
    ensures NodeOk(Minting(w, id, c), c, n.(db := DeleteRow(n.db, k, id)))
  {
    hide WorldOk, NodeOk, Queues, IdFresh, Discards, Replace, Mints;
    var v := Minting(w, id, c);
    MintingMints(w, k, id, c);
    MintedFor(w, v, c, n, id);
    if Discards(n.db, k) {
      DiscardKeeps(v, c, n, k, id);
    } else {
      var m := n.(db := DeleteRow(n.db, k, id));
      var e := DeleteQueues(v, c, n, k, id);
      QueueKeeps(v, c, n, k, MarkDeleted(n.db.local[k]), m.db.outbox, e);
      assert WithRow(n, k, MarkDeleted(n.db.local[k]), m.db.outbox) == m;
    }
  }

  lemma KeepMineKeeps(w: World, c: ClientId, n: Node, id: ChangeId, newId: ChangeId)
    requires WorldOk(w) && NodeOk(w, c, n) && newId !in w.minted && OpenConflict(n.db, id) && KeepMine(n.db, id, newId).Some?
    ensures NodeOk(Minting(w, newId, c), c, n.(db := KeepMine(n.db, id, newId).value))
  {
    var v, k := Minting(w, newId, c), n.db.outbox[id].key;
    MintingMints(w, k, newId, c);
    MintedFor(w, v, c, n, newId);
    assert k in n.db.local by { hide WorldOk, NodeOk, Replace; }
    hide WorldOk, NodeOk, Queues, IdFresh, KeepMine, Mints;
    KeepMineQueues(v, c, n, id, newId);
    QueueKeeps(v, c, n, k, n.db.local[k], KeepMine(n.db, id, newId).value.outbox, newId);
  }

  lemma MergingKeeps(w: World, c: ClientId, n: Node, id: ChangeId, r: Record, newId: ChangeId)
    requires WorldOk(w) && NodeOk(w, c, n) && newId !in w.minted && CanResolve(n, id) && CanMergeInto(n, id, r)
    ensures Merge(n.db, id, r, newId).Some?
    ensures NodeOk(Minting(w, newId, c), c, n.(db := Merge(n.db, id, r, newId).value))
  {
    var v := Minting(w, newId, c);
    MintingMints(w, n.db.outbox[id].key, newId, c);
    MintedFor(w, v, c, n, newId);
    assert Merge(n.db, id, r, newId).Some? by { hide WorldOk, NodeOk, Replace; }
    hide WorldOk, NodeOk, Merge, CanMergeInto, IdFresh, Mints;
    SyncMerging.MergeKeeps(v, c, n, id, r, newId);
  }

  predicate IsEdit(step: Step) {
    step.DoSave? || step.DoDelete? || step.DoKeepMine? || step.DoMerge?
  }

  lemma EditKeeps(w: World, c: ClientId, n: Node, step: Step)
    requires WorldOk(w) && NodeOk(w, c, n) && IsEdit(step) && step.c == c
    requires ClientStep(w, n, step).Some?
    ensures var next := ClientStep(w, n, step).value; Mints(w, next.0) && WorldOk(next.0) && NodeOk(next.0, c, next.1)
  {
    hide WorldOk, NodeOk, CanSave, CanDelete, CanMergeInto, Merge, KeepMine, DeleteRow, Save, Mints, Minting,
         Claiming;
    match step
    case DoSave(_, k, r, editorBase, id) =>
      assert id !in w.minted by { CanSaveFresh(w, c, n, k, r, editorBase, id); }
      MintingMints(w, k, id, c);
      SaveKeeps(w, c, n, k, r, editorBase, id);
    case DoDelete(_, k, id) =>
      assert id !in w.minted by { CanDeleteFresh(w, n, k, id); }
      MintingMints(w, k, id, c);
      DeleteKeeps(w, c, n, k, id);
    case DoKeepMine(_, id, newId) =>
      MintingMints(w, n.db.outbox[id].key, newId, c);
      KeepMineKeeps(w, c, n, id, newId);
    case DoMerge(_, id, r, newId) =>
      MintingMints(w, n.db.outbox[id].key, newId, c);
      MergingKeeps(w, c, n, id, r, newId);
  }

  lemma CanSaveFresh(w: World, c: ClientId, n: Node, k: Key, r: Record, editorBase: Option<int>, id: ChangeId)
    requires CanSave(w, c, n, k, r, editorBase, id)
    ensures id !in w.minted
  {
  }

  lemma CanDeleteFresh(w: World, n: Node, k: Key, id: ChangeId)
    requires CanDelete(w, n, k, id)
    ensures id !in w.minted
  {
  }

  lemma SyncStepKeeps(w: World, c: ClientId, n: Node, step: Step)
    requires WorldOk(w) && NodeOk(w, c, n) && !IsEdit(step) && !step.DoProcess? && !step.DoRest? && step.c == c
    requires ClientStep(w, n, step).Some?
    ensures var next := ClientStep(w, n, step).value; next.0 == w && NodeOk(w, c, next.1)
  {
    hide WorldOk, NodeOk, CanSend, CanDeliver, Send, Deliver, Lose, Settle, Stop, CanPull, StartPull, CanPullKind, PullKind,
         CanApplyPull, ApplyPull, CanResolve, UseServer;
    match step
    case DoSend(_, ids) => SyncSettling.SendKeeps(w, c, n, ids);
    case DoDeliver(_, reply) =>
      assert n.phase.Pushing? && reply in n.phase.replies by { CanDeliverFacts(n, reply); }
      SyncAcknowledge.DeliverKeeps(w, c, n, reply);
    case DoLose(_, kind) => SyncSettling.LoseKeeps(w, c, n, kind);
    case DoSettle(_, i) => SyncSettling.SettleKeeps(w, c, n, i);
    case DoStop(_) => SyncSettling.StopKeeps(w, c, n);
    case DoStartPull(_) => SyncPulling.StartPullKeeps(w, c, n);
    case DoPullKind(_, kind, limit) => SyncPulling.PullKindKeeps(w, c, n, kind, limit);
    case DoApplyPull(_) => SyncPulling.ApplyPullKeeps(w, c, n);
    case DoReleaseAuthentication(_) => SyncSettling.ReleaseAuthenticationKeeps(w, c, n);
    case DoUseServer(_, id) => SyncPulling.UseServerKeeps(w, c, n, id);
  }

  lemma CanDeliverFacts(n: Node, reply: seq<Result>)
    requires CanDeliver(n, reply)
    ensures n.phase.Pushing? && reply in n.phase.replies
  {
  }

  // ----- The server's steps -----

  lemma NodeParts(w: World, c: ClientId, n: Node)
    requires NodeOk(w, c, n)
    ensures BasesOk(w, c, n) && PayloadsOk(w, c, n) && BoundaryOk(w, c, n) && PhaseOk(w.server, c, n)
    ensures n.db.watermark <= w.server.last
  {
  }

  lemma OthersFromSent(w: World, s: Server, c: ClientId, d: ClientId, n: Node)
    requires SyncServerSteps.NewFrom(w, s, c) && ServerHistory.Evolves(w.server, s) && d != c
    requires BoundaryOk(w, d, n) && PayloadsOk(w, d, n)
    ensures FromSent(SyncServerSteps.At(w, s), d, n)
  {
  }

  lemma HandlingFacts(w: World, c: ClientId, n: Node, p: PushState)
    requires SyncServerSteps.Handling(w, c, n, p)
    ensures var v := SyncServerSteps.At(w, p.server);
      WorldOk(v) && Grows(w, v) && FromSent(v, c, n) && SyncServerSteps.NewFrom(w, p.server, c)
  {
  }

  lemma StampsAndCodes(w: World)
    requires WorldOk(w)
    ensures ServerHistory.RowsStamped(w.server) && ServerHistory.CodesUnique(w.server.rows)
    ensures ServerHistory.ArchiveWithin(w.server)
  {
  }

  lemma HeardKeeps(v: World, c: ClientId, n: Node, reply: seq<Result>)
    requires NodeOk(v, c, n) && n.phase.Pushing? && ReplyOk(v.server, n.db.watermark, c, n.phase.batch, reply)
    ensures NodeOk(v, c, n.(phase := n.phase.(replies := n.phase.replies + {reply})))
  {
    hide CoreOk, CoverageOk, ReplyOk, BatchOk;
    var m := n.(phase := n.phase.(replies := n.phase.replies + {reply}));
    SyncAcknowledge.CorePhaseFree(v, c, n, m);
    BatchPhaseFree(n, m, n.phase.batch);
  }

  lemma BatchPhaseFree(n: Node, m: Node, batch: seq<Change>)
    requires BatchOk(n, batch) && m.sent == n.sent && m.db == n.db
    ensures BatchOk(m, batch)
  {
  }

  lemma PushedWorld(s: Sys, c: ClientId, role: Role, batch: seq<Change>, verdicts: seq<Verdict>)
    requires Inv(s) && c in s.nodes && CanProcess(s.nodes[c], batch, verdicts)
    ensures var n, p := s.nodes[c], Push(s.world.server, c, role, batch, verdicts);
      && SyncServerSteps.Handling(s.world, c, n, p) && |p.results| == |batch|
      && (n.phase.Pushing? && n.phase.batch == batch ==> ReplyOk(p.server, n.db.watermark, c, batch, p.results))
  {
    hide WorldOk, NodeOk, PushFirst, SyncServerSteps.Handling, SyncServerSteps.AllAnswered,
         SyncServerSteps.AllCurrent, ReplyOk, BasesOk, PayloadsOk, BoundaryOk, ServerHistory.CodesUnique,
         DistinctKeys;
    var n, p := s.nodes[c], Push(s.world.server, c, role, batch, verdicts);
    NodeParts(s.world, c, n);
    SyncServerSteps.PushFirstOk(s.world, c, n, role, batch, verdicts, |batch|);
    if n.phase.Pushing? && n.phase.batch == batch {
      HandlingFacts(s.world, c, n, p);
      StampsAndCodes(SyncServerSteps.At(s.world, p.server));
      SyncServerSteps.RepliesApart(p.server, n.db.watermark, c, batch, p.results);
    }
  }

  lemma ProcessKeeps(s: Sys, c: ClientId, role: Role, batch: seq<Change>, verdicts: seq<Verdict>)
    requires Inv(s) && c in s.nodes && CanProcess(s.nodes[c], batch, verdicts)
    ensures Inv(Process(s, c, role, batch, verdicts))
  {
    hide WorldOk, NodeOk, Push, SyncServerSteps.Handling, ReplyOk, ServerHistory.RowsStamped,
         ServerHistory.CodesUnique, Grows, FromSent, SyncServerSteps.NewFrom, ServerHistory.ArchiveWithin, BasesOk,
         PayloadsOk, BoundaryOk, PhaseOk;
    var n, p := s.nodes[c], Push(s.world.server, c, role, batch, verdicts);
    var v := SyncServerSteps.At(s.world, p.server);
    PushedWorld(s, c, role, batch, verdicts);
    HandlingFacts(s.world, c, n, p);
    StampsAndCodes(s.world);
    forall d | d in s.nodes ensures NodeOk(v, d, s.nodes[d]) {
      if d != c {
        NodeParts(s.world, d, s.nodes[d]);
        assert ServerHistory.Evolves(s.world.server, p.server) by { GrowsEvolves(s.world, v); }
        OthersFromSent(s.world, p.server, c, d, s.nodes[d]);
      }
      NodeGrows(s.world, v, d, s.nodes[d]);
    }
    if n.phase.Pushing? && n.phase.batch == batch {
      HeardKeeps(v, c, n, p.results);
    }
  }

  lemma GrowsEvolves(w: World, v: World)
    requires Grows(w, v)
    ensures ServerHistory.Evolves(w.server, v.server)
  {
  }

  lemma RestEffect(s: Server, write: RestWrite)
    requires ServerHistory.RowsStamped(s)
    ensures var t := RestStep(s, write);
      && t.receipts == s.receipts
      && (t == s || (write.key in t.rows
                     && ServerHistory.OneWrite(s, t, write.key, t.rows[write.key].copy, Rest)
                     && (write.key !in s.rows <==> write.RestCreate?)))
  {
  }

  lemma RestOwners(w: World, write: RestWrite)
    requires WorldOk(w) && CanRest(w, write)
    ensures OwnersOk(DoRestWrite(w, write)) && Grows(w, DoRestWrite(w, write))
    ensures forall k, d :: k in RestStep(w.server, write).rows && k !in w.server.rows ==> !Owned(DoRestWrite(w, write), k, d)
    ensures RestStep(w.server, write).receipts == w.server.receipts
  {
    hide ReceiptsOk, ServerHistory.AuditOk, ServerHistory.VersionSum, ServerHistory.CodesUnique,
         ServerHistory.ArchiveCurrent, ServerHistory.ArchiveFull, ServerHistory.ArchiveWithin, RestStep;
    ServerHistory.RestKeeps(w.server, write);
    RestEffect(w.server, write);
    hide ServerHistory.Evolves, ServerHistory.RowsStamped;
  }

  lemma RestKeepsInv(s: Sys, write: RestWrite)
    requires Inv(s) && CanRest(s.world, write)
    ensures Inv(s.(world := DoRestWrite(s.world, write)))
  {
    var w, v := s.world, DoRestWrite(s.world, write);
    RestOwners(w, write);
    ServerHistory.RestKeeps(w.server, write);
    SyncServerSteps.StoredGrows(w, v);
    assert ReceiptsOk(v) by {
      hide ServerHistory.Good, StoredOk, RestStep, Grows, NodeOk, OwnersOk;
      forall id | id in v.server.receipts ensures ReceiptOk(v, id) {
        assert ReceiptOk(w, id);
      }
    }
    StampsAndCodes(w);
    hide WorldOk, NodeOk, RestStep, Grows, ServerHistory.Evolves, ServerHistory.RowsStamped,
         ServerHistory.CodesUnique, ServerHistory.ArchiveWithin, StoredOk, ServerHistory.Good, ReceiptsOk, OwnersOk;
    forall d | d in s.nodes ensures NodeOk(v, d, s.nodes[d]) {
      NodeParts(w, d, s.nodes[d]);
      RestFromSent(w, write, d, s.nodes[d]);
      NodeGrows(w, v, d, s.nodes[d]);
    }
    assert WorldOk(v) by { WorldParts(v); }
  }

  lemma WorldParts(w: World)
    requires ServerHistory.Good(w.server) && OwnersOk(w) && ReceiptsOk(w)
    ensures WorldOk(w)
  {
  }

  lemma RestFromSent(w: World, write: RestWrite, d: ClientId, n: Node)
    requires BoundaryOk(w, d, n) && PayloadsOk(w, d, n) && CanRest(w, write)
    requires forall k :: k in RestStep(w.server, write).rows && k !in w.server.rows ==> !Owned(DoRestWrite(w, write), k, d)
    requires RestStep(w.server, write).receipts == w.server.receipts
    ensures FromSent(DoRestWrite(w, write), d, n)
  {
    hide RestStep;
  }

  // ----- Every step, every run -----

  lemma StepKeeps(s: Sys, t: Sys, step: Step)
    requires Inv(s) && Next(s, t, step)
    ensures Inv(t)
  {
    hide WorldOk, NodeOk, ClientStep, CanRest, CanProcess, Process, DoRestWrite, Mints;
    if step.DoRest? {
      RestKeepsInv(s, step.write);
    } else if step.DoProcess? {
      ProcessKeeps(s, step.c, step.role, step.batch, step.verdicts);
    } else {
      var next := ClientStep(s.world, s.nodes[step.c], step).value;
      if IsEdit(step) {
        EditKeeps(s.world, step.c, s.nodes[step.c], step);
        forall d | d in s.nodes ensures NodeOk(next.0, d, s.nodes[d]) {
          OthersMint(s.world, next.0, d, s.nodes[d]);
        }
      } else {
        SyncStepKeeps(s.world, step.c, s.nodes[step.c], step);
      }
    }
  }

  lemma OthersMint(w: World, v: World, d: ClientId, n: Node)
    requires WorldOk(w) && NodeOk(w, d, n) && Mints(w, v)
    ensures NodeOk(v, d, n)
  {
    hide WorldOk, NodeOk, Grows;
    MintKeeps(w, v, d, n);
  }

  lemma FreshWorldOk(w: World)
    requires w == World(FreshProject, map[], map[])
    ensures WorldOk(w)
  {
    hide ServerHistory.Good, ReceiptOk;
    ServerHistory.FreshIsGood();
  }

  lemma NewNodeOk(w: World, c: ClientId)
    requires w == World(FreshProject, map[], map[])
    ensures NodeOk(w, c, NewNode)
  {
    hide EntryRowOk, LocalRowOk, BaseOk, SavedOk, Covered, SentPayloadOk;
  }

  lemma InitHolds(s: Sys)
    requires Init(s)
    ensures Inv(s)
  {
    hide WorldOk, NodeOk;
    FreshWorldOk(s.world);
    forall c | c in s.nodes ensures NodeOk(s.world, c, s.nodes[c]) {
      NewNodeOk(s.world, c);
    }
  }

  /** The invariant holds in every state of every run. */
  lemma {:induction false} RunKeeps(trace: seq<Sys>, i: nat)
    requires Run(trace) && i < |trace|
    ensures Inv(trace[i])
  {
    hide Inv, Init, Next;
    if i == 0 {
      InitHolds(trace[0]);
    } else {
      RunKeeps(trace, i - 1);
      assert Steps(trace[i - 1], trace[i - 1 + 1]);
      var step :| Next(trace[i - 1], trace[i], step);
      StepKeeps(trace[i - 1], trace[i], step);
    }
  }
}
