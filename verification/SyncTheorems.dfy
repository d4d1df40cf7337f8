/** What the protocol promises, for every state of every run. */
module SyncTheorems {
  import opened Protocol
  import opened PushRules
  import opened LocalDb
  import opened SyncModel
  import opened SyncInvariant
  import opened SyncQueueing
  import opened SyncPreservation
  import SyncEdits
  import SyncServerSteps
  import SyncAcknowledge
  import SyncPulling
  import ServerHistory
  import PullFeed

  ghost predicate Reachable(s: Sys) {
    exists trace: seq<Sys> :: |trace| > 0 && Run(trace) && s == trace[|trace| - 1]
  }

  lemma ReachableInv(s: Sys)
    requires Reachable(s)
    ensures Inv(s)
  {
    hide Inv, Run;
    var trace: seq<Sys> :| |trace| > 0 && Run(trace) && s == trace[|trace| - 1];
    RunKeeps(trace, |trace| - 1);
  }

  /** One step further is reachable too. */
  lemma StepReaches(s: Sys, t: Sys, step: Step)
    requires Reachable(s) && Next(s, t, step)
    ensures Reachable(t)
  {
    hide Next, Init;
    var trace: seq<Sys> :| |trace| > 0 && Run(trace) && s == trace[|trace| - 1];
    assert Steps(s, t);
    var longer := trace + [t];
    forall i | 0 <= i < |longer| - 1 ensures Steps(longer[i], longer[i + 1]) {
      if i < |trace| - 1 {
        assert Steps(trace[i], trace[i + 1]);
      }
    }
    assert Run(longer);
    assert longer[|longer| - 1] == t;
  }

  // ----- No lost update -----

  /** The one row a change may overwrite, and what its sender must have known of it. */
  ghost predicate OverwritesKnown(s: Server, t: Server, c: ClientId, seen: set<KeyCopy>, ch: Change) {
    && (forall k :: k in s.rows && k != ch.key ==> k in t.rows && t.rows[k] == s.rows[k])
    && (ch.key in s.rows && t.rows != s.rows ==>
        ch.base == Some(s.rows[ch.key].copy.version) && Knows(s, c, seen, ch.key, s.rows[ch.key].copy.version))
  }

  /** Whatever batch of sent changes reaches the server, an accepted one overwrites only what
    * its sender wrote itself or holds an exact copy of. */
  lemma NoLostUpdate(s: Sys, c: ClientId, role: Role, batch: seq<Change>, verdicts: seq<Verdict>, i: nat)
    requires Reachable(s) && c in s.nodes && CanProcess(s.nodes[c], batch, verdicts) && i < |batch|
    ensures OverwritesKnown(PushFirst(s.world.server, c, role, batch, verdicts, i).server,
                            PushFirst(s.world.server, c, role, batch, verdicts, i + 1).server,
                            c, s.nodes[c].seen, batch[i])
  {
    ReachableInv(s);
    hide Reachable, WorldOk, NodeOk, PushFirst, SyncServerSteps.Handling, BasesOk, PayloadsOk, BoundaryOk, PhaseOk,
         SyncServerSteps.AllAnswered, Knows, SyncServerSteps.AllCurrent;
    var n := s.nodes[c];
    NodeParts(s.world, c, n);
    var p := PushFirst(s.world.server, c, role, batch, verdicts, i);
    SyncServerSteps.PushFirstOk(s.world, c, n, role, batch, verdicts, i);
    NextOverwrites(s.world, c, n, p, role, batch[i], verdicts[i]);
    assert PushFirst(s.world.server, c, role, batch, verdicts, i + 1) == PushOne(p, c, role, batch[i], verdicts[i]) by {
      PushFirstNext(s.world.server, c, role, batch, verdicts, i);
    }
  }

  lemma PushFirstNext(s: Server, c: ClientId, role: Role, batch: seq<Change>, verdicts: seq<Verdict>, i: nat)
    requires i < |batch| == |verdicts|
    ensures PushFirst(s, c, role, batch, verdicts, i + 1)
         == PushOne(PushFirst(s, c, role, batch, verdicts, i), c, role, batch[i], verdicts[i])
  {
    hide PushOne;
  }

  lemma NextOverwrites(w: World, c: ClientId, n: Node, p: PushState, role: Role, ch: Change, verdict: Verdict)
    requires SyncServerSteps.Handling(w, c, n, p) && BasesOk(w, c, n) && PayloadsOk(w, c, n) && ch in n.sent
    ensures OverwritesKnown(p.server, PushOne(p, c, role, ch, verdict).server, c, n.seen, ch)
  {
    hide SyncServerSteps.Handling, BasesOk, PayloadsOk, DecideAndStore, Knows, SyncServerSteps.AnsweredNow,
         ServerHistory.Evolves;
    if !Seen(p, ch.id) {
      SyncServerSteps.FreshStep(w, c, n, p, role, ch, verdict);
    }
  }

  /** No queued or sent change is ever based on a version its client has not seen. */
  lemma BasesAreKnown(s: Sys, c: ClientId, k: Key, base: Option<int>)
    requires Reachable(s) && c in s.nodes && k in s.world.server.rows
    requires (exists id :: id in s.nodes[c].db.outbox && s.nodes[c].db.outbox[id].key == k && s.nodes[c].db.outbox[id].base == base)
          || (exists ch :: ch in s.nodes[c].sent && ch.key == k && ch.base == base)
    ensures base.Some? ==> Knows(s.world.server, c, s.nodes[c].seen, k, base.value)
    ensures base.None? ==> Owned(s.world, k, c)
  {
    ReachableInv(s);
    assert BaseOk(s.world, c, s.nodes[c].seen, k, base) by {
      hide Reachable, WorldOk, PhaseOk, CoverageOk, OutboxOk, LocalOk, BoundaryOk, PayloadsOk, LocalCodesUnique,
           BaseOk, SavedOk;
      assert NodeOk(s.world, c, s.nodes[c]);
    }
    hide Reachable, NodeOk, ReceiptsOk, ServerHistory.Good;
  }

  // ----- Coverage and convergence -----

  lemma CoverageHolds(s: Sys, c: ClientId, k: Key)
    requires Reachable(s) && c in s.nodes && k in s.world.server.rows
    requires s.world.server.rows[k].sequence <= s.nodes[c].db.watermark
    ensures HasOpen(s.nodes[c].db.outbox, k) || SameRow(s.nodes[c].db.local, k, s.world.server.rows[k].copy)
  {
    ReachableInv(s);
    hide Reachable, WorldOk, CoreOk, PhaseOk;
  }

  /** Nothing queued and the watermark at the counter: both sides hold the same live rows. */
  lemma Convergence(s: Sys, c: ClientId)
    requires Reachable(s) && c in s.nodes
    requires s.nodes[c].db.outbox == map[] && s.nodes[c].db.watermark == s.world.server.last
    ensures forall k :: k in s.world.server.rows ==> SameRow(s.nodes[c].db.local, k, s.world.server.rows[k].copy)
    ensures forall k :: Live(s.nodes[c].db, k) <==> k in s.world.server.rows && !s.world.server.rows[k].copy.deleted
  {
    ReachableInv(s);
    var rows, db := s.world.server.rows, s.nodes[c].db;
    forall k | k in rows ensures SameRow(db.local, k, rows[k].copy) {
      assert rows[k].sequence <= s.world.server.last by { StampsAndCodes(s.world); }
      CoverageHolds(s, c, k);
    }
    forall k | Live(db, k) ensures k in rows {
      SettledIsRemote(s.world, c, s.nodes[c], k);
    }
  }

  lemma SettledIsRemote(w: World, c: ClientId, n: Node, k: Key)
    requires WorldOk(w) && NodeOk(w, c, n) && Live(n.db, k) && n.db.outbox == map[]
    ensures k in w.server.rows
  {
    StampsAndCodes(w);
    hide WorldOk, ServerHistory.RowsStamped, ServerHistory.CodesUnique, ServerHistory.ArchiveWithin, CoverageOk,
         PhaseOk, BasesOk, BoundaryOk, PayloadsOk, LocalCodesUnique, OutboxOk, LocalOk, Knows;
    KnownWhenSettled(w, c, n, k);
    KnownIsRemote(w.server, c, n.seen, k, n.db.local[k].copy.version);
  }

  lemma KnownWhenSettled(w: World, c: ClientId, n: Node, k: Key)
    requires OutboxOk(n.db) && LocalOk(w, c, n) && Live(n.db, k) && n.db.outbox == map[]
    ensures Knows(w.server, c, n.seen, k, n.db.local[k].copy.version)
  {
    hide Knows, Owned;
    assert !HasOpen(n.db.outbox, k);
    assert LocalRowOk(w, c, n.seen, k, n.db.local[k]);
  }

  lemma KnownIsRemote(s: Server, c: ClientId, seen: set<KeyCopy>, k: Key, version: int)
    requires ServerHistory.ArchiveWithin(s) && Knows(s, c, seen, k, version)
    ensures k in s.rows
  {
  }

  /** After a pull, a conflict on a row that changed since the watermark holds that row's copy. */
  lemma PulledConflictIsCurrent(s: Sys, c: ClientId, id: ChangeId)
    requires Reachable(s) && c in s.nodes && CanApplyPull(s.nodes[c]) && OpenConflict(s.nodes[c].db, id)
    requires var k := s.nodes[c].db.outbox[id].key;
      k in s.world.server.rows
      && s.nodes[c].db.watermark < s.world.server.rows[k].sequence <= s.nodes[c].phase.pull.snapshot
    ensures var n := ApplyPull(s.nodes[c]); var k := s.nodes[c].db.outbox[id].key;
      id in n.db.outbox && n.db.outbox[id].status == Blocked(Conflicting, Some(s.world.server.rows[k].copy))
  {
    ReachableInv(s);
    var n := s.nodes[c];
    hide Reachable, WorldOk, CoreOk, CoverageOk, PhaseOk, PulledItems, PullFeed.PullOk, PullFeed.Finished,
         ApplyAllPulled, Stored, InArchive, ServerHistory.CodesUnique, PullFeed.Later;
    PullPhase(s.world, c, n);
    SyncPulling.FinishedDelivers(s.world.server, n.db.watermark, n.phase.pull);
    var k := n.db.outbox[id].key;
    SyncPulling.ConflictNotes(n.db, Copies(PulledItems(n.phase.pull)), id, s.world.server.rows[k].copy);
  }

  // ----- Payload immutability -----

  lemma SentPayloadsFixed(s: Sys, c: ClientId)
    requires Reachable(s) && c in s.nodes
    ensures forall ch :: ch in s.nodes[c].sent && ch.id in s.nodes[c].db.outbox ==>
      var e := s.nodes[c].db.outbox[ch.id]; e.attempted && (IsConflict(e) || ChangeOf(ch.id, e) == ch)
    ensures forall a, b :: a in s.nodes[c].sent && b in s.nodes[c].sent && a.id == b.id ==> a == b
  {
    ReachableInv(s);
    assert PayloadsOk(s.world, c, s.nodes[c]) by {
      hide Reachable, WorldOk, PhaseOk, CoverageOk, OutboxOk, LocalOk, BoundaryOk, BasesOk, PayloadsOk,
           LocalCodesUnique;
    }
    hide Reachable, Inv;
    forall ch | ch in s.nodes[c].sent && ch.id in s.nodes[c].db.outbox
      ensures s.nodes[c].db.outbox[ch.id].attempted
        && (IsConflict(s.nodes[c].db.outbox[ch.id]) || ChangeOf(ch.id, s.nodes[c].db.outbox[ch.id]) == ch)
    {
      assert SentPayloadOk(s.world, c, s.nodes[c], ch);
    }
  }

  /** However late, repeated or regrouped, an honest client's resend is never a mismatch. */
  lemma HonestResendMatches(s: Sys, c: ClientId, role: Role, batch: seq<Change>, verdicts: seq<Verdict>, i: nat)
    requires Reachable(s) && c in s.nodes && CanProcess(s.nodes[c], batch, verdicts) && i < |batch|
    ensures var p := PushFirst(s.world.server, c, role, batch, verdicts, i);
      Seen(p, batch[i].id) ==>
        DuplicateReason(c, batch[i], Lookup(p.existing, batch[i].id),
                        if batch[i].id in p.handled then Some(p.handled[batch[i].id].change) else None) == None
  {
    ReachableInv(s);
    hide Reachable, WorldOk, NodeOk, PushFirst, SyncServerSteps.Handling, BasesOk, PayloadsOk, BoundaryOk, PhaseOk,
         SyncServerSteps.AllAnswered, SyncServerSteps.AllCurrent, DuplicateReason;
    NodeParts(s.world, c, s.nodes[c]);
    var p := PushFirst(s.world.server, c, role, batch, verdicts, i);
    SyncServerSteps.PushFirstOk(s.world, c, s.nodes[c], role, batch, verdicts, i);
    if Seen(p, batch[i].id) {
      SyncServerSteps.HonestDuplicate(s.world, c, s.nodes[c], p, batch[i]);
    }
  }

  // ----- The send boundary -----

  /** Once a request with a row's id has left, deleting the row queues a delete and never discards. */
  lemma SentRowsAreDeletedRemotely(s: Sys, c: ClientId, k: Key, id: ChangeId)
    requires Reachable(s) && c in s.nodes && CanDelete(s.world, s.nodes[c], k, id) && SentKey(s.nodes[c].sent, k)
    ensures !Discards(s.nodes[c].db, k)
    ensures var o, q := s.nodes[c].db.outbox, DeleteRow(s.nodes[c].db, k, id).outbox;
      if KeepsConflict(o, k, s.nodes[c].db.local[k].copy.version < 1)
      then KeptConflict(o, q, k, OpenId(o, k)) && q[OpenId(o, k)].op.Delete?
      else NewEntry(o, q, k, id) && q[id].op.Delete? && q[id].base.Some? && q[id].base.value >= 1
  {
    ReachableInv(s);
    var w, n := s.world, s.nodes[c];
    var v := Minting(w, id, c);
    MintingMints(w, k, id, c);
    MintedFor(w, v, c, n, id);
    hide Reachable, Inv, WorldOk, CoverageOk, PhaseOk, Mints;
    if Discards(n.db, k) {
      SyncEdits.DiscardIsUnsent(v, c, n, k);
    } else {
      DeleteIsBased(v, c, n, k, id);
    }
  }

  lemma DeleteIsBased(w: World, c: ClientId, n: Node, k: Key, id: ChangeId)
    requires NodeOk(w, c, n) && IdFresh(w, c, n, id) && Live(n.db, k) && !Discards(n.db, k) && SentKey(n.sent, k)
    ensures var o, q := n.db.outbox, DeleteRow(n.db, k, id).outbox;
      if KeepsConflict(o, k, n.db.local[k].copy.version < 1)
      then KeptConflict(o, q, k, OpenId(o, k)) && q[OpenId(o, k)].op.Delete?
      else NewEntry(o, q, k, id) && q[id].op.Delete? && q[id].base.Some? && q[id].base.value >= 1
  {
    hide OutboxOk, BasesOk, BoundaryOk, PayloadsOk, CoverageOk, PhaseOk, Knows, SentKey, Replace;
    OutboxIsOnePerKey(n.db);
    var o, version := n.db.outbox, n.db.local[k].copy.version;
    assert LocalRowOk(w, c, n.seen, k, n.db.local[k]);
    if !HasOpen(o, k) {
      SyncEdits.SettledVersion(w, c, n, k);
    }
    SyncEdits.SquashedBaseOk(w, c, n, k, VersionBase(version));
    hide SquashedBase;
    if version >= 1 {
      ReplaceEffect(o, k, Delete, Some(version), DeleteRecord, false, id);
    } else {
      ReplaceEffect(o, k, Delete, Some(1), DeleteRecord, true, id);
    }
  }

  /** A discarded create was never sent and the server has no such row. */
  lemma DiscardedNeverLeft(s: Sys, c: ClientId, k: Key)
    requires Reachable(s) && c in s.nodes && Live(s.nodes[c].db, k) && Discards(s.nodes[c].db, k)
    ensures !SentKey(s.nodes[c].sent, k) && k !in s.world.server.rows
  {
    ReachableInv(s);
    hide Reachable, WorldOk, CoverageOk, PhaseOk;
    assert NodeOk(s.world, c, s.nodes[c]);
    SyncEdits.DiscardIsUnsent(s.world, c, s.nodes[c], k);
  }

  // ----- The client's own tables -----

  /** One entry per row, each on a dirty row of its kind of change, and no dirty live row without one. */
  lemma OutboxMatchesRows(s: Sys, c: ClientId)
    requires Reachable(s) && c in s.nodes
    ensures var db := s.nodes[c].db;
      && (forall i, j :: i in db.outbox && j in db.outbox && db.outbox[i].key == db.outbox[j].key ==> i == j)
      && (forall i :: i in db.outbox ==>
          var e := db.outbox[i];
          e.key in db.local && db.local[e.key].dirty && (e.op.Delete? <==> db.local[e.key].copy.deleted))
      && (forall k :: Live(db, k) && db.local[k].dirty ==> HasOpen(db.outbox, k))
  {
    ReachableInv(s);
    var db := s.nodes[c].db;
    assert OutboxOk(db) by {
      hide Reachable, WorldOk, PhaseOk, CoverageOk, OutboxOk, LocalOk, BoundaryOk, BasesOk, PayloadsOk,
           LocalCodesUnique;
    }
    hide Reachable, Inv;
    forall i | i in db.outbox
      ensures var e := db.outbox[i];
        e.key in db.local && db.local[e.key].dirty && (e.op.Delete? <==> db.local[e.key].copy.deleted)
    {
      assert EntryRowOk(db.local, db.outbox[i]);
    }
  }

  /** The guards of the model never stop a client: a reply to its request applies in full,
    * and its watermark never runs ahead of the server. */
  lemma RepliesAlwaysApply(s: Sys, c: ClientId)
    requires Reachable(s) && c in s.nodes
    ensures PullFeed.DistinctSequences(s.world.server.rows) && s.nodes[c].db.watermark <= s.world.server.last
    ensures s.nodes[c].phase.Pushing? ==> forall reply :: reply in s.nodes[c].phase.replies ==> CanDeliver(s.nodes[c], reply)
  {
    ReachableInv(s);
    hide Reachable, WorldOk, NodeOk, AcknowledgeAll, CanDeliver, ServerHistory.CodesUnique,
         ServerHistory.ArchiveWithin;
    StampsAndCodes(s.world);
    NodeParts(s.world, c, s.nodes[c]);
    if s.nodes[c].phase.Pushing? {
      forall reply | reply in s.nodes[c].phase.replies ensures CanDeliver(s.nodes[c], reply) {
        SyncAcknowledge.DeliverKeeps(s.world, c, s.nodes[c], reply);
      }
    }
  }

  /** The counter is the sum of all versions; a change id mutated rows iff its receipt says so. */
  lemma ServerLedger(s: Sys)
    requires Reachable(s)
    ensures ServerHistory.VersionSum(s.world.server.rows) == s.world.server.last
    ensures forall i, j :: 0 <= i < j < |s.world.server.audit| ==> s.world.server.audit[i] != s.world.server.audit[j]
    ensures forall id :: id in s.world.server.audit <==> ServerHistory.Mutated(s.world.server, id)
    ensures |ServerHistory.PushedVersions(s.world.server)| == |s.world.server.audit|
  {
    ReachableInv(s);
    hide Reachable, NodeOk, OwnersOk, ReceiptsOk;
  }

  // ----- Codes at every intermediate write -----

  /** After each single result of a reply, no two local rows of a kind share a code. */
  lemma AcknowledgingKeepsCodesUnique(s: Sys, c: ClientId, reply: seq<Result>, i: nat)
    requires Reachable(s) && c in s.nodes && s.nodes[c].phase.Pushing? && reply in s.nodes[c].phase.replies
    requires i <= |WithState(reply)|
    ensures var after := AcknowledgeFirst(s.nodes[c].db, WithState(reply), i);
      after.Some? && LocalCodesUnique(after.value.local)
  {
    ReachableInv(s);
    var n := s.nodes[c];
    hide Reachable, WorldOk, AcknowledgeFirst, SyncAcknowledge.Ackable, ReplyOk, CoverageOk, CoreOk,
         ServerHistory.ArchiveWithin, WithState, BatchOk, SyncAcknowledge.PairwiseApart;
    var acked := WithState(reply);
    StampsAndCodes(s.world);
    var seen := n.seen + (set r | r in acked && r.record.Some? :: KeyCopy(r.key, r.record.value));
    SyncAcknowledge.SeenGrows(s.world, c, n, seen);
    SyncAcknowledge.ReplyAckable(s.world, c, n, n.phase.batch, reply);
    var m := n.(seen := seen);
    forall r | r in acked ensures SyncAcknowledge.Ackable(s.world, c, m, r) {
      SyncAcknowledge.AckableSeen(s.world, c, n, m, r);
    }
    SyncAcknowledge.AckPrefix(s.world, c, m, acked, i);
    UniqueInCore(s.world, c, m.(db := AcknowledgeFirst(n.db, acked, i).value));
  }

  lemma UniqueInCore(w: World, c: ClientId, n: Node)
    requires CoreOk(w, c, n)
    ensures LocalCodesUnique(n.db.local)
  {
  }

  /** After each single row of a pull, no two local rows of a kind share a code. */
  lemma PullingKeepsCodesUnique(s: Sys, c: ClientId, i: nat)
    requires Reachable(s) && c in s.nodes && CanApplyPull(s.nodes[c])
    requires i <= |Copies(PulledItems(s.nodes[c].phase.pull))|
    ensures LocalCodesUnique(ApplyAllPulled(s.nodes[c].db, Copies(PulledItems(s.nodes[c].phase.pull))[..i]).local)
  {
    ReachableInv(s);
    var n := s.nodes[c];
    hide Reachable, WorldOk, CoreOk, CoverageOk, ServerHistory.ArchiveWithin, ServerHistory.CodesUnique, PulledItems,
         PullFeed.PullOk, PullFeed.Finished, ApplyAllPulled, Stored, SyncPulling.Delivers;
    var p := n.phase.pull;
    var items := Copies(PulledItems(p));
    PullPhase(s.world, c, n);
    StampsAndCodes(s.world);
    hide PhaseOk, PullingOk;
    var m := n.(seen := n.seen + (set it | it in items));
    SyncAcknowledge.SeenGrows(s.world, c, n, m.seen);
    SyncPulling.FinishedDelivers(s.world.server, n.db.watermark, p);
    assert n.db.watermark <= p.snapshot by { SnapshotAbove(s.world.server, n.db.watermark, p); }
    SyncPulling.ApplyPrefix(s.world, c, m, p.at, p.snapshot, items, i);
    UniqueInCore(s.world, c, m.(db := ApplyAllPulled(n.db, items[..i])));
  }

  lemma PullPhase(w: World, c: ClientId, n: Node)
    requires NodeOk(w, c, n) && n.phase.Pulling?
    ensures CoreOk(w, c, n) && CoverageOk(w.server.rows, n.db) && PullingOk(w.server, n.db.watermark, n.phase.pull)
  {
    hide CoreOk, CoverageOk, PullingOk;
  }

  lemma SnapshotAbove(s: Server, watermark: nat, p: PullFeed.Pull)
    requires PullingOk(s, watermark, p)
    ensures watermark <= p.snapshot
  {
  }
}
