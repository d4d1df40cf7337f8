/** A batch selected first and marked later, with edits in between: exactly when it is still safe. */
module SyncLateMark {
  import opened Protocol
  import opened PushRules
  import opened LocalDb
  import opened SyncModel
  import opened SyncInvariant
  import opened SyncGrowth
  import opened SyncPreservation
  import opened SyncTheorems
  import opened SyncTouches
  import opened SyncExample
  import SyncAcknowledge
  import SyncSettling
  import SyncPulling
  import PullFeed
  import SyncServerSteps
  import SyncProgress
  import ServerHistory

  // ----- Edits in between -----

  /** This client only edits; everyone else may do anything. */
  predicate Meanwhile(step: Step, c: ClientId) {
    step.DoProcess? || step.DoRest? || step.c != c || IsLocal(step)
  }

  ghost predicate EditStep(s: Sys, t: Sys, c: ClientId) {
    exists step :: Meanwhile(step, c) && Next(s, t, step)
  }

  /** `trace` leads from `s` to `t` while the client holds a selection. */
  ghost predicate Editing(trace: seq<Sys>, s: Sys, t: Sys, c: ClientId) {
    |trace| > 0 && trace[0] == s && trace[|trace| - 1] == t
    && forall i :: 0 <= i < |trace| - 1 ==> EditStep(trace[i], trace[i + 1], c)
  }

  /** The request as selected leaves now; only entries that are still queued can be marked. */
  ghost function LateSend(n: Node, batch: seq<Change>): Node {
    Node(n.db.(outbox := MarkAttempted(n.db.outbox, set ch | ch in batch :: ch.id)),
         Pushing(batch, {}), n.sent + (set ch | ch in batch), n.seen)
  }

  /** A newer edit of the row waits, unsent and on a base of its own. */
  ghost predicate BasedEdit(o: Outbox, k: Key) {
    exists id :: id in o && o[id].key == k && Sendable(o[id]) && !o[id].attempted && o[id].base.Some?
  }

  ghost predicate StillGood(o: Outbox, batch: seq<Change>) {
    forall ch :: ch in batch ==> ch.id in o || BasedEdit(o, ch.key)
  }

  // ----- What stays true of a selection -----

  ghost predicate SelectedOk(w: World, c: ClientId, n: Node, ch: Change) {
    && ch.id in w.minted && w.minted[ch.id] == c
    && BaseOk(w, c, n.seen, ch.key, ch.base)
    && (ch.id in n.db.outbox ==> Sendable(n.db.outbox[ch.id]) && ChangeOf(ch.id, n.db.outbox[ch.id]) == ch)
    && (ch.op.Delete? ==> ch.id in n.db.outbox)
    && (forall a :: a in n.sent && a.id == ch.id ==> a == ch)
  }

  ghost predicate Selection(w: World, c: ClientId, n: Node, batch: seq<Change>) {
    n.phase.Idle? && DistinctKeys(batch) && forall ch :: ch in batch ==> SelectedOk(w, c, n, ch)
  }

  lemma SelectedNow(w: World, c: ClientId, n: Node, ids: seq<ChangeId>)
    requires NodeOk(w, c, n) && CanSend(n, ids)
    ensures Selection(w, c, n, Batch(n.db.outbox, ids))
  {
    hide OutboxOk, LocalOk, BoundaryOk, CoverageOk, PhaseOk, LocalCodesUnique, BaseOk, SavedOk;
    SyncAcknowledge.CorePayloads(w, c, n);
    var batch := Batch(n.db.outbox, ids);
    forall ch | ch in batch ensures SelectedOk(w, c, n, ch) {
      assert ch.id in ids;
      forall a | a in n.sent && a.id == ch.id ensures a == ch {
        assert SentPayloadOk(w, c, n, a);
      }
    }
  }

  /** Untouched, or gone with its row's edit; never changed. */
  lemma LocalKeepsSelected(w: World, c: ClientId, n: Node, step: Step, ch: Change)
    requires NodeOk(w, c, n) && SelectedOk(w, c, n, ch) && IsLocal(step) && step.c == c && ClientStep(w, n, step).Some?
    requires Grows(w, ClientStep(w, n, step).value.0)
    ensures SelectedOk(ClientStep(w, n, step).value.0, c, ClientStep(w, n, step).value.1, ch)
  {
    var next := ClientStep(w, n, step).value;
    KnowledgeGrows(w, next.0);
    LocalKeepsEntry(w, c, n, step, ch);
    hide NodeOk, ClientStep, BaseOk, Wrote, Knows, InArchive, LocalRowOk, SavedOk, ServerHistory.Evolves;
  }

  lemma LocalKeepsEntry(w: World, c: ClientId, n: Node, step: Step, ch: Change)
    requires NodeOk(w, c, n) && SelectedOk(w, c, n, ch) && IsLocal(step) && ClientStep(w, n, step).Some?
    ensures var m := ClientStep(w, n, step).value.1;
      && m.sent == n.sent && m.seen == n.seen && m.phase == n.phase
      && (ch.id in m.db.outbox ==> ch.id in n.db.outbox && m.db.outbox[ch.id] == n.db.outbox[ch.id])
      && (ch.op.Delete? ==> ch.id in m.db.outbox)
  {
    hide ClientStep, Touches, BaseOk;
    var o, q := n.db.outbox, ClientStep(w, n, step).value.1.db.outbox;
    QueueFacts(w, c, n);
    hide NodeOk, OnePerKey, EntryRowOk;
    var newId := if Mint(step).Some? then Mint(step).value else FreshId(w.minted.Keys);
    LocalTouches(w, n, step, newId);
    assert newId != ch.id;
    TouchedSendable(o, q, Touched(n, step), newId, ch.id);
    if ch.op.Delete? {
      DeletesUntouched(w, n, step, ch.id);
      TouchedKeeps(o, q, Touched(n, step), newId, ch.id);
    }
  }

  ghost function FreshId(ids: set<ChangeId>): (id: ChangeId)
    ensures id !in ids
  {
    Unused(ids);
    var id: ChangeId :| id !in ids;
    id
  }

  lemma {:induction false} Unused(ids: set<ChangeId>)
    ensures exists id: ChangeId :: id !in ids
  {
    var high := SyncProgress.Bound(ids);
    assert high !in ids;
  }

  lemma TouchedSendable(o: Outbox, q: Outbox, k: Key, newId: ChangeId, id: ChangeId)
    requires Touches(o, q, k, newId) && id != newId && (id in o ==> Sendable(o[id]))
    ensures id in q ==> id in o && q[id] == o[id]
  {
  }

  lemma QueueFacts(w: World, c: ClientId, n: Node)
    requires NodeOk(w, c, n)
    ensures OnePerKey(n.db.outbox) && MintedAll(w, n)
    ensures forall id :: id in n.db.outbox ==> EntryRowOk(n.db.local, n.db.outbox[id])
  {
    hide LocalOk, BasesOk, BoundaryOk, CoverageOk, PhaseOk, LocalCodesUnique, OnePerKey, EntryRowOk, SentPayloadOk;
  }

  // ----- One step of the system -----

  lemma WorldKeepsSelected(w: World, v: World, c: ClientId, n: Node, ch: Change)
    requires SelectedOk(w, c, n, ch) && Grows(w, v)
    ensures SelectedOk(v, c, n, ch)
  {
    KnowledgeGrows(w, v);
    hide BaseOk, Wrote, Knows, InArchive, LocalRowOk, SavedOk, ServerHistory.Evolves;
  }

  ghost predicate Holding(s: Sys, c: ClientId, batch: seq<Change>) {
    Inv(s) && c in s.nodes && Selection(s.world, c, s.nodes[c], batch)
  }

  /** The world only grows. */
  lemma StepGrows(s: Sys, t: Sys, step: Step)
    requires Inv(s) && Next(s, t, step)
    ensures Grows(s.world, t.world)
  {
    hide WorldOk, NodeOk, ClientStep, CanRest, CanProcess, Process, DoRestWrite, Mints, Grows;
    if step.DoRest? {
      RestGrows(s.world, step.write);
    } else if step.DoProcess? {
      ProcessGrows(s, step.c, step.role, step.batch, step.verdicts);
    } else if IsEdit(step) {
      EditKeeps(s.world, step.c, s.nodes[step.c], step);
      MintsGrow(s.world, t.world);
    } else {
      SyncStepKeeps(s.world, step.c, s.nodes[step.c], step);
      GrowsRefl(s.world);
    }
  }

  lemma GrowsRefl(w: World)
    ensures Grows(w, w)
  {
  }

  lemma MintsGrow(w: World, v: World)
    requires Mints(w, v)
    ensures Grows(w, v)
  {
    hide Grows;
  }

  lemma RestGrows(w: World, write: RestWrite)
    requires WorldOk(w) && CanRest(w, write)
    ensures Grows(w, DoRestWrite(w, write))
  {
    hide WorldOk, CanRest, DoRestWrite, Grows;
    RestOwners(w, write);
  }

  lemma ProcessGrows(s: Sys, c: ClientId, role: Role, batch: seq<Change>, verdicts: seq<Verdict>)
    requires Inv(s) && c in s.nodes && CanProcess(s.nodes[c], batch, verdicts)
    ensures Grows(s.world, Process(s, c, role, batch, verdicts).world)
  {
    hide Inv, Push, Grows, SyncServerSteps.Handling, ReplyOk;
    PushedWorld(s, c, role, batch, verdicts);
    HandlingFacts(s.world, c, s.nodes[c], Push(s.world.server, c, role, batch, verdicts));
  }

  lemma StepKeepsHolding(s: Sys, t: Sys, step: Step, c: ClientId, batch: seq<Change>)
    requires Holding(s, c, batch) && Next(s, t, step) && Meanwhile(step, c)
    ensures Holding(t, c, batch)
  {
    hide Grows, SelectedOk, NodeOk, WorldOk;
    StepKeeps(s, t, step);
    StepGrows(s, t, step);
    var n := s.nodes[c];
    if !step.DoProcess? && !step.DoRest? && step.c == c {
      forall ch | ch in batch ensures SelectedOk(t.world, c, t.nodes[c], ch) {
        LocalKeepsSelected(s.world, c, n, step, ch);
      }
      LocalKeepsIdle(s.world, c, n, step);
    } else {
      OthersLeaveNode(s, t, step, c);
      forall ch | ch in batch ensures SelectedOk(t.world, c, n, ch) {
        WorldKeepsSelected(s.world, t.world, c, n, ch);
      }
    }
  }

  lemma LocalKeepsIdle(w: World, c: ClientId, n: Node, step: Step)
    requires NodeOk(w, c, n) && IsLocal(step) && ClientStep(w, n, step).Some?
    ensures ClientStep(w, n, step).value.1.phase == n.phase
  {
    hide ClientStep, Touches;
    QueueFacts(w, c, n);
    LocalTouches(w, n, step, if Mint(step).Some? then Mint(step).value else 0);
  }

  lemma OthersLeaveNode(s: Sys, t: Sys, step: Step, c: ClientId)
    requires Next(s, t, step) && c in s.nodes && s.nodes[c].phase.Idle?
    requires step.DoProcess? || step.DoRest? || step.c != c
    ensures c in t.nodes && t.nodes[c] == s.nodes[c]
  {
    hide ClientStep, CanRest, CanProcess, Push, DoRestWrite;
  }

  lemma {:induction false} EditingHolds(trace: seq<Sys>, s: Sys, t: Sys, c: ClientId, batch: seq<Change>, i: nat)
    requires Editing(trace, s, t, c) && Holding(s, c, batch) && i < |trace|
    ensures Holding(trace[i], c, batch)
  {
    hide Holding, Next, Meanwhile;
    if i > 0 {
      EditingHolds(trace, s, t, c, batch, i - 1);
      assert EditStep(trace[i - 1], trace[i - 1 + 1], c);
      var step :| Meanwhile(step, c) && Next(trace[i - 1], trace[i], step);
      StepKeepsHolding(trace[i - 1], trace[i], step, c, batch);
    }
  }

  // ----- The late mark -----

  lemma LateBoundary(w: World, c: ClientId, n: Node, batch: seq<Change>)
    requires BoundaryOk(w, c, n) && OnePerKey(n.db.outbox) && Selection(w, c, n, batch) && StillGood(n.db.outbox, batch)
    ensures BoundaryOk(w, c, LateSend(n, batch))
  {
    hide Owned, BaseOk, DistinctKeys;
    var m := LateSend(n, batch);
    forall id | id in m.db.outbox && m.db.outbox[id].base.None? && !m.db.outbox[id].attempted
      ensures !SentKey(m.sent, m.db.outbox[id].key)
    {
      assert !SentKey(n.sent, n.db.outbox[id].key);
      forall ch | ch in batch ensures ch.key != m.db.outbox[id].key {
        assert SelectedOk(w, c, n, ch);
      }
    }
    forall k | k in w.server.rows && Owned(w, k, c) ensures SentKey(m.sent, k) {
      assert SentKey(n.sent, k);
    }
  }

  lemma LatePayloads(w: World, c: ClientId, n: Node, batch: seq<Change>)
    requires PayloadsOk(w, c, n) && Selection(w, c, n, batch)
    ensures PayloadsOk(w, c, LateSend(n, batch))
  {
    hide BaseOk;
    var m := LateSend(n, batch);
    forall ch | ch in m.sent ensures SentPayloadOk(w, c, m, ch) {
      if ch in batch {
        assert SelectedOk(w, c, n, ch);
      } else {
        assert SentPayloadOk(w, c, n, ch);
      }
    }
    forall a, b | a in m.sent && b in m.sent && a.id == b.id ensures a == b {
      if a in batch {
        assert SelectedOk(w, c, n, a);
      }
      if b in batch {
        assert SelectedOk(w, c, n, b);
      }
    }
  }

  lemma LateBatch(w: World, c: ClientId, n: Node, batch: seq<Change>)
    requires Selection(w, c, n, batch) && StillGood(n.db.outbox, batch) && OnePerKey(n.db.outbox)
    ensures BatchOk(LateSend(n, batch), batch)
  {
    hide BaseOk, DistinctKeys;
    var m := LateSend(n, batch);
    forall i | 0 <= i < |batch| ensures batch[i] in m.sent && Carried(m.db.outbox, batch[i]) {
      LateCarried(w, c, n, batch, batch[i]);
    }
  }

  lemma LateCarried(w: World, c: ClientId, n: Node, batch: seq<Change>, ch: Change)
    requires Selection(w, c, n, batch) && StillGood(n.db.outbox, batch) && OnePerKey(n.db.outbox) && ch in batch
    ensures Carried(LateSend(n, batch).db.outbox, ch)
  {
    hide BaseOk, DistinctKeys;
    var o, q := n.db.outbox, LateSend(n, batch).db.outbox;
    assert SelectedOk(w, c, n, ch);
    if ch.id !in o {
      assert BasedEdit(o, ch.key);
      var id :| id in o && o[id].key == ch.key && Sendable(o[id]) && !o[id].attempted && o[id].base.Some?;
      forall other | other in batch ensures other.id != id {
        if other.id == id {
          assert SelectedOk(w, c, n, other);
          SameChange(batch, ch, other);
        }
      }
      assert id in q && q[id] == o[id];
    }
  }

  lemma SameChange(batch: seq<Change>, a: Change, b: Change)
    requires DistinctKeys(batch) && a in batch && b in batch && a.key == b.key
    ensures a == b
  {
  }

  lemma LateCore(w: World, c: ClientId, n: Node, batch: seq<Change>)
    requires CoreOk(w, c, n) && Selection(w, c, n, batch) && StillGood(n.db.outbox, batch)
    ensures CoreOk(w, c, LateSend(n, batch))
  {
    SyncAcknowledge.CorePayloads(w, c, n);
    LateBoundary(w, c, n, batch);
    LatePayloads(w, c, n, batch);
    LateBases(w, c, n, batch);
    SyncSettling.MarkAttemptedKeepsRows(n.db, set ch | ch in batch :: ch.id);
    hide OutboxOk, BasesOk, BoundaryOk, PayloadsOk, LocalCodesUnique, LocalRowOk, StillGood, Selection, MarkAttempted,
         OnePerKey, HasOpen;
  }

  lemma LateBases(w: World, c: ClientId, n: Node, batch: seq<Change>)
    requires BasesOk(w, c, n) && Selection(w, c, n, batch)
    ensures BasesOk(w, c, LateSend(n, batch))
  {
    hide BaseOk, DistinctKeys;
    forall ch | ch in batch ensures BaseOk(w, c, n.seen, ch.key, ch.base) {
      assert SelectedOk(w, c, n, ch);
    }
  }

  lemma LateIsSafe(w: World, c: ClientId, n: Node, batch: seq<Change>)
    requires NodeOk(w, c, n) && Selection(w, c, n, batch) && StillGood(n.db.outbox, batch)
    ensures NodeOk(w, c, LateSend(n, batch))
  {
    hide CoverageOk, CoreOk, StillGood, SelectedOk, Carried, OnePerKey, HasOpen, MarkAttempted;
    SyncAcknowledge.CorePayloads(w, c, n);
    LateCore(w, c, n, batch);
    LateBatch(w, c, n, batch);
    LateCoverage(w, n, batch);
  }

  lemma LateCoverage(w: World, n: Node, batch: seq<Change>)
    requires CoverageOk(w.server.rows, n.db)
    ensures CoverageOk(w.server.rows, LateSend(n, batch).db)
  {
    var db, after := n.db, LateSend(n, batch).db;
    forall k | k in w.server.rows && w.server.rows[k].sequence <= after.watermark ensures Covered(w.server.rows, after, k) {
      assert Covered(w.server.rows, db, k);
      if id :| id in db.outbox && db.outbox[id].key == k {
        assert id in after.outbox && after.outbox[id].key == k;
      }
    }
  }

  /** A selected change that is gone without a based edit breaks the batch or the send boundary. */
  lemma LateIsUnsafe(w: World, c: ClientId, n: Node, batch: seq<Change>, ch: Change)
    requires BoundaryOk(w, c, LateSend(n, batch)) && BatchOk(LateSend(n, batch), batch) && ch in batch
    ensures ch.id in n.db.outbox || BasedEdit(n.db.outbox, ch.key)
  {
    hide DistinctKeys, Owned;
    var o, m := n.db.outbox, LateSend(n, batch);
    var i :| 0 <= i < |batch| && batch[i] == ch;
    assert ch in m.sent && SentKey(m.sent, ch.key);
    assert Carried(m.db.outbox, batch[i]);
    if ch.id !in o {
      assert ch.id !in m.db.outbox;
      var id :| id in m.db.outbox && m.db.outbox[id].key == ch.key && Sendable(m.db.outbox[id]) && !m.db.outbox[id].attempted;
      assert o[id] == m.db.outbox[id];
    }
  }

  lemma NodeBatch(w: World, c: ClientId, n: Node)
    requires NodeOk(w, c, n) && n.phase.Pushing?
    ensures BoundaryOk(w, c, n) && BatchOk(n, n.phase.batch)
  {
    hide BoundaryOk, BatchOk, OutboxOk, LocalOk, BasesOk, PayloadsOk, LocalCodesUnique, CoverageOk;
  }

  /** A batch is selected, edits follow, and only then is it marked and sent. The client's invariant
    * survives iff each selected change is still queued or its row has an unsent edit on a base. */
  lemma LateMark(s: Sys, t: Sys, c: ClientId, ids: seq<ChangeId>, trace: seq<Sys>)
    requires Reachable(s) && c in s.nodes && CanSend(s.nodes[c], ids) && Editing(trace, s, t, c)
    ensures c in t.nodes
    ensures var batch := Batch(s.nodes[c].db.outbox, ids);
      NodeOk(t.world, c, LateSend(t.nodes[c], batch)) <==> StillGood(t.nodes[c].db.outbox, batch)
  {
    ReachableInv(s);
    var batch := Batch(s.nodes[c].db.outbox, ids);
    assert Holding(s, c, batch) by { hide NodeOk, WorldOk, CanSend; SelectedNow(s.world, c, s.nodes[c], ids); }
    EditingHolds(trace, s, t, c, batch, |trace| - 1);
    hide Reachable, NodeOk, WorldOk, Selection, StillGood, LateSend, CanSend, Editing;
    EndOf(trace, s, t, c);
    var n := t.nodes[c];
    if StillGood(n.db.outbox, batch) {
      LateIsSafe(t.world, c, n, batch);
    }
    if NodeOk(t.world, c, LateSend(n, batch)) {
      LatePhase(n, batch);
      NodeBatch(t.world, c, LateSend(n, batch));
      AllStillGood(t.world, c, n, batch);
    }
  }

  lemma EndOf(trace: seq<Sys>, s: Sys, t: Sys, c: ClientId)
    requires Editing(trace, s, t, c)
    ensures |trace| > 0 && trace[|trace| - 1] == t
  {
  }

  lemma LatePhase(n: Node, batch: seq<Change>)
    ensures LateSend(n, batch).phase == Pushing(batch, {})
  {
  }

  lemma AllStillGood(w: World, c: ClientId, n: Node, batch: seq<Change>)
    requires BoundaryOk(w, c, LateSend(n, batch)) && BatchOk(LateSend(n, batch), batch)
    ensures StillGood(n.db.outbox, batch)
  {
    hide BoundaryOk, BatchOk, LateSend, BasedEdit;
    forall ch | ch in batch ensures ch.id in n.db.outbox || BasedEdit(n.db.outbox, ch.key) {
      LateIsUnsafe(w, c, n, batch, ch);
    }
  }

  // ----- A run in which a discarded row comes back -----

  const GONE := Db(map[RISK := Local(Copy(0, true, None, map[]), true)], map[], 0)

  ghost function Chosen(): Sys {
    After(FreshProject, Node(Queued(false), Idle, {}, {}))
  }

  ghost function Minted(s: Server): World {
    World(s, map[RISK := Device(0)], map[5 := 0, 7 := 0])
  }

  ghost function Gone(s: Server, phase: Phase, sent: set<Change>): Sys {
    Sys(Minted(s), map[0 := Node(GONE, phase, sent, {})])
  }

  lemma ChosenReached()
    ensures Reachable(Chosen()) && CanSend(Chosen().nodes[0], [5]) && Batch(Chosen().nodes[0].db.outbox, [5]) == [SENT]
  {
    StartReached();
    hide Next, Steps, Reachable;
    Saving();
    StepReaches(START, Chosen(), DoSave(0, RISK, CONTENT, None, 5));
    assert Batch(Queued(false).outbox, [5]) == [SENT];
  }

  lemma Discarding()
    ensures Next(Chosen(), Gone(FreshProject, Idle, {}), DoDelete(0, RISK, 7))
  {
    var n := Node(Queued(false), Idle, {}, {});
    assert n.db.outbox[5].key == RISK;
    assert HasOpen(n.db.outbox, RISK) && OpenId(n.db.outbox, RISK) == 5;
    assert WithoutKey(n.db.outbox, RISK) == map[];
    assert DeleteRow(n.db, RISK, 7) == GONE;
    var m := n.(db := GONE);
    assert map[0 := n][0 := m] == map[0 := m];
  }

  /** The request selected before the discard leaves after it. */
  lemma LeavingLate()
    ensures LateSend(Gone(FreshProject, Idle, {}).nodes[0], [SENT]) == Node(GONE, Pushing([SENT], {}), {SENT}, {})
  {
    assert MarkAttempted(map[], set ch | ch in [SENT] :: ch.id) == map[];
    assert {} + (set ch | ch in [SENT]) == {SENT};
  }

  lemma Stored1()
    ensures Next(Gone(FreshProject, Pushing([SENT], {}), {SENT}),
                 Gone(Written(), Pushing([SENT], {[REPLY]}), {SENT}), DoProcess(0, Member, [SENT], [Fine]))
  {
    hide Push, Written;
    Pushed();
    var n, heard := Node(GONE, Pushing([SENT], {}), {SENT}, {}), Node(GONE, Pushing([SENT], {[REPLY]}), {SENT}, {});
    var s := Sys(Minted(FreshProject), map[0 := n]);
    assert CanProcess(n, [SENT], [Fine]);
    assert {} + {[REPLY]} == {[REPLY]};
    assert s.nodes[0 := heard] == map[0 := heard];
    assert Process(s, 0, Member, [SENT], [Fine]) == Gone(Written(), heard.phase, {SENT});
  }

  lemma NothingToReplace()
    ensures AcknowledgeAll(GONE, [REPLY]) == Some(GONE)
  {
    assert ReleaseCodes(GONE.local, [REPLY]) == GONE.local;
    assert AcknowledgeFirst(GONE, [REPLY], 0) == Some(GONE);
    assert !HasReplacement(GONE.outbox, RISK);
  }

  lemma Acknowledged()
    ensures Next(Gone(Written(), Pushing([SENT], {[REPLY]}), {SENT}), Gone(Written(), Settling([]), {SENT}), DoDeliver(0, [REPLY]))
    ensures Next(Gone(Written(), Settling([]), {SENT}), Gone(Written(), Idle, {SENT}), DoStop(0))
  {
    NothingToReplace();
    Answering();
    hide AcknowledgeAll, WithState, Unsettled, Written;
    var n, m := Node(GONE, Pushing([SENT], {[REPLY]}), {SENT}, {}), Node(GONE, Settling([]), {SENT}, {});
    assert Deliver(n, [REPLY]) == m;
    assert map[0 := n][0 := m] == map[0 := m];
    assert map[0 := m][0 := Stop(m)] == map[0 := Stop(m)];
  }

  lemma WrittenStamped()
    ensures SyncProgress.Stamped(Written()) && Written().last == 1 && Written().rows == map[RISK := Row(STORED, 1)]
  {
  }

  lemma {:induction false} AllTheSame(db: Db, items: seq<KeyCopy>)
    requires db.outbox == map[] && items != [] && forall it :: it in items ==> it == KeyCopy(RISK, STORED)
    ensures Live(ApplyAllPulled(db, items), RISK)
  {
    var n := |items| - 1;
    SyncPulling.NothingQueued(db, items[..n]);
    assert items[n] in items;
  }

  lemma PulledRow(p: PullFeed.Pull, rows: map<Key, Row>)
    requires PullFeed.PullOk(p, rows) && PullFeed.Finished(p) && p.since == 0 && p.snapshot == 1 && p.at == rows
    requires rows == map[RISK := Row(STORED, 1)]
    ensures Copies(PulledItems(p)) != [] && forall it :: it in Copies(PulledItems(p)) ==> it == KeyCopy(RISK, STORED)
  {
    hide PulledItems;
    PullFeed.FinishedPull(p, rows);
    var items := PulledItems(p);
    assert PullFeed.Item(RISK, rows[RISK]) in p.feeds[Risk].items;
    SyncPulling.ItemsOfKind(p, PullFeed.Item(RISK, rows[RISK]));
    forall it | it in Copies(items) ensures it == KeyCopy(RISK, STORED) {
      var i :| 0 <= i < |items| && Copies(items)[i] == it;
      SyncPulling.ItemsOfKind(p, items[i]);
    }
  }

  lemma PullReturns() returns (v: Sys)
    ensures SyncProgress.Leads(Gone(Written(), Idle, {SENT}), v) && 0 in v.nodes && Live(v.nodes[0].db, RISK)
  {
    WrittenStamped();
    hide Written, SyncProgress.Leads, PullFeed.Finished, PulledItems, ApplyAllPulled, PullFeed.PullOk, ClientStep;
    var s := Gone(Written(), Idle, {SENT});
    SyncProgress.LeadsHere(s);
    var mid, p := SyncProgress.Fetched(s, s, 0);
    PulledRow(p, Written().rows);
    var n := mid.nodes[0];
    SyncProgress.FinishedApplies(n);
    SyncProgress.ApplyStep(mid.world, n, 0);
    v := SyncProgress.Moved(mid, 0, mid.world, ApplyPull(n));
    AllTheSame(GONE, Copies(PulledItems(p)));
    SyncProgress.LeadsOn(s, mid, v, DoApplyPull(0));
  }

  /** A risk is created and selected, then deleted, which discards it. The request still leaves, and after
    * one push and one pull the deleted risk is live again. */
  lemma DiscardedReturns() returns (s: Sys, t: Sys, v: Sys)
    ensures Reachable(s) && 0 in s.nodes && 0 in t.nodes && 0 in v.nodes && CanSend(s.nodes[0], [5])
    ensures Editing([s, t], s, t, 0) && Live(s.nodes[0].db, RISK) && Discards(s.nodes[0].db, RISK)
    ensures !Live(t.nodes[0].db, RISK) && t.nodes[0].db.outbox == map[]
    ensures !StillGood(t.nodes[0].db.outbox, Batch(s.nodes[0].db.outbox, [5]))
    ensures SyncProgress.Leads(t.(nodes := t.nodes[0 := LateSend(t.nodes[0], Batch(s.nodes[0].db.outbox, [5]))]), v)
    ensures Live(v.nodes[0].db, RISK)
  {
    hide Next, Steps, Reachable, SyncProgress.Leads, Written, LateSend;
    ChosenReached();
    Discarding();
    s, t := Chosen(), Gone(FreshProject, Idle, {});
    assert EditStep(s, t, 0) by { assert Meanwhile(DoDelete(0, RISK, 7), 0); }
    LeavingLate();
    var late := Gone(FreshProject, Pushing([SENT], {}), {SENT});
    assert t.nodes[0 := late.nodes[0]] == late.nodes;
    SyncProgress.LeadsHere(late);
    Stored1();
    SyncProgress.LeadsOn(late, late, Gone(Written(), Pushing([SENT], {[REPLY]}), {SENT}), DoProcess(0, Member, [SENT], [Fine]));
    Acknowledged();
    SyncProgress.LeadsOn(late, Gone(Written(), Pushing([SENT], {[REPLY]}), {SENT}), Gone(Written(), Settling([]), {SENT}), DoDeliver(0, [REPLY]));
    SyncProgress.LeadsOn(late, Gone(Written(), Settling([]), {SENT}), Gone(Written(), Idle, {SENT}), DoStop(0));
    v := PullReturns();
    SyncProgress.LeadsTwice(late, Gone(Written(), Idle, {SENT}), v);
    UnsentDiscards();
  }

  lemma UnsentDiscards()
    ensures Discards(Queued(false), RISK) && SENT in [SENT]
  {
  }
}
