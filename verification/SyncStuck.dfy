/** A stuck delete stays stuck, whatever happens: exactly the clients without one can catch up. */
module SyncStuck {
  import opened Protocol
  import opened PushRules
  import opened LocalDb
  import opened SyncModel
  import opened SyncInvariant
  import opened SyncPreservation
  import opened SyncTouches
  import opened SyncTheorems
  import opened SyncProgress
  import opened SyncExample
  import PushReply
  import PullFeed
  import SyncAcknowledge
  import ServerHistory

  // ----- Entries that stay -----

  ghost predicate Kept(o: Outbox, q: Outbox, id: ChangeId) {
    id in o && id in q && q[id] == o[id]
  }

  lemma {:induction false} PullKeepsUnlessConflict(db: Db, items: seq<KeyCopy>, id: ChangeId)
    requires id in db.outbox && !IsConflict(db.outbox[id])
    ensures Kept(db.outbox, ApplyAllPulled(db, items).outbox, id)
  {
    hide PutCopy, HasOpen;
    if items != [] {
      PullKeepsUnlessConflict(db, items[..|items| - 1], id);
    }
  }

  // ----- The results a stuck delete may still meet -----

  ghost predicate StuckAt(s: Server, o: Outbox, id: ChangeId) {
    id in o && Stuck(s, id, o[id])
  }

  lemma KeptStaysStuck(s: Server, o: Outbox, q: Outbox, id: ChangeId)
    requires StuckAt(s, o, id) && Kept(o, q, id)
    ensures StuckAt(s, q, id)
  {
  }

  /** A refused change has left, so its entry is marked. */
  lemma RefusedIsAttempted(w: World, c: ClientId, n: Node, id: ChangeId)
    requires ReceiptsOk(w) && PayloadsOk(w, c, n) && id in n.db.outbox && WasRefused(w.server, id)
    ensures n.db.outbox[id].attempted
  {
    hide StoredOk;
    assert ReceiptOk(w, id);
    var ch := w.server.receipts[id].payload.value;
    assert ch in n.sent && ch.id == id;
    assert SentPayloadOk(w, c, n, ch);
  }

  /** Every result of the row still to be processed is the refusal of the delete itself. */
  lemma OnlyRefusals(w: World, c: ClientId, n: Node, watermark: nat, ch: Change, r: Result, id: ChangeId)
    requires ReceiptsOk(w) && PayloadsOk(w, c, n) && OnePerKey(n.db.outbox) && StuckAt(w.server, n.db.outbox, id)
    requires ch in n.sent && Carried(n.db.outbox, ch) && ResultOk(w.server, watermark, c, ch, r)
    requires ch.id == id || ch.key == n.db.outbox[id].key
    ensures r.id == id && r.outcome.Error? && !r.outcome.kind.Conflicting? && WasRefused(w.server, id)
  {
    hide FreshCopy, NoRowYet, Wrote, InArchive, ReceiptsOk, PayloadsOk;
    assert SentPayloadOk(w, c, n, ch) by { SentPayload(w, c, n, ch); }
    if ch.id !in n.db.outbox {
      var i :| i in n.db.outbox && n.db.outbox[i].key == ch.key && Sendable(n.db.outbox[i]) && !n.db.outbox[i].attempted;
      assert i == id;
      RefusedIsAttempted(w, c, n, id);
    } else {
      assert ch.id == id;
    }
  }

  lemma SentPayload(w: World, c: ClientId, n: Node, ch: Change)
    requires PayloadsOk(w, c, n) && ch in n.sent
    ensures SentPayloadOk(w, c, n, ch)
  {
  }

  // ----- One step of the client itself -----

  ghost predicate Facts(w: World, c: ClientId, n: Node) {
    && ReceiptsOk(w) && PayloadsOk(w, c, n) && OnePerKey(n.db.outbox) && PhaseOk(w.server, c, n)
    && forall id :: id in n.db.outbox ==> EntryRowOk(n.db.local, n.db.outbox[id])
  }

  lemma NodeFacts(s: Sys, c: ClientId)
    requires Inv(s) && c in s.nodes
    ensures Facts(s.world, c, s.nodes[c])
  {
    hide ServerHistory.Good, OwnersOk, ReceiptsOk, PayloadsOk, LocalOk, BasesOk, BoundaryOk, CoverageOk, PhaseOk,
         LocalCodesUnique, EntryRowOk, OnePerKey;
  }

  lemma DeliverStaysStuck(w: World, c: ClientId, n: Node, reply: seq<Result>, id: ChangeId)
    requires Facts(w, c, n) && StuckAt(w.server, n.db.outbox, id) && CanDeliver(n, reply)
    ensures StuckAt(w.server, Deliver(n, reply).db.outbox, id)
  {
    hide ResultOk, Carried, AcknowledgeFirst, EntryRowOk, Stuck, CodesApart, SentPayloadOk, ReceiptOk, StuckAt, WithState;
    var results := WithState(reply);
    StuckIsQueued(w.server, n.db.outbox, id);
    assert ReplyOk(w.server, n.db.watermark, c, n.phase.batch, reply);
    forall r | r in results
      ensures r.id != id && r.key != n.db.outbox[id].key && (r.id in n.db.outbox ==> n.db.outbox[r.id].key == r.key)
    {
      var i :| 0 <= i < |reply| && reply[i] == r;
      AnsweredOther(w, c, n, n.phase.batch[i], r, id);
    }
    PushReply.OthersUntouched(n.db, results, |results|, id);
    KeptStaysStuck(w.server, n.db.outbox, Deliver(n, reply).db.outbox, id);
  }

  lemma StuckIsQueued(s: Server, o: Outbox, id: ChangeId)
    requires StuckAt(s, o, id)
    ensures id in o && o[id].op.Delete? && !IsConflict(o[id])
  {
  }

  lemma AnsweredOther(w: World, c: ClientId, n: Node, ch: Change, r: Result, id: ChangeId)
    requires ReceiptsOk(w) && PayloadsOk(w, c, n) && OnePerKey(n.db.outbox) && StuckAt(w.server, n.db.outbox, id)
    requires ch in n.sent && Carried(n.db.outbox, ch) && ResultOk(w.server, n.db.watermark, c, ch, r) && Acknowledges(r)
    ensures id in n.db.outbox && r.id != id && r.key != n.db.outbox[id].key
    ensures r.id in n.db.outbox ==> n.db.outbox[r.id].key == r.key
  {
    StuckIsQueued(w.server, n.db.outbox, id);
    if ch.id == id || ch.key == n.db.outbox[id].key {
      OnlyRefusals(w, c, n, n.db.watermark, ch, r, id);
    }
    SyncAcknowledge.ResultKey(w.server, n.db.watermark, c, ch, r);
    SentPayload(w, c, n, ch);
    hide ResultOk, Carried, ReceiptsOk, PayloadsOk, StuckAt;
  }

  lemma SettleStaysStuck(w: World, c: ClientId, n: Node, i: nat, id: ChangeId)
    requires Facts(w, c, n) && StuckAt(w.server, n.db.outbox, id) && n.phase.Settling? && i < |n.phase.todo|
    ensures StuckAt(w.server, Settle(n, i).db.outbox, id)
  {
    hide ResultOk, Carried, EntryRowOk, ReceiptsOk, PayloadsOk, AnswersApart, WasRefused;
    var a := n.phase.todo[i];
    assert a in n.phase.todo;
    SyncAcknowledge.ResultKey(w.server, n.db.watermark, c, a.change, a.result);
    PushReply.SettleOne(n.db.outbox, a.result);
    if a.change.id == id {
      OnlyRefusals(w, c, n, n.db.watermark, a.change, a.result, id);
    }
    hide SettledOutbox, OnePerKey;
  }

  lemma SendStaysStuck(s: Server, n: Node, ids: seq<ChangeId>, id: ChangeId)
    requires CanSend(n, ids) && StuckAt(s, n.db.outbox, id)
    ensures StuckAt(s, Send(n, ids).db.outbox, id)
  {
    hide WasRefused;
  }

  lemma ReleaseStaysStuck(s: Server, o: Outbox, id: ChangeId)
    requires StuckAt(s, o, id)
    ensures StuckAt(s, ReleaseAuthenticationBlocks(o), id)
  {
    hide WasRefused;
  }

  lemma LocalStaysStuck(w: World, c: ClientId, n: Node, step: Step, id: ChangeId)
    requires Facts(w, c, n) && StuckAt(w.server, n.db.outbox, id) && IsLocal(step)
    requires ClientStep(w, n, step).Some?
    ensures StuckAt(w.server, ClientStep(w, n, step).value.1.db.outbox, id)
    ensures ClientStep(w, n, step).value.0.server == w.server
  {
    hide StuckAt, ClientStep, OnePerKey, Touches, Kept, PhaseOk, ReceiptsOk, SentPayloadOk;
    StuckIsQueued(w.server, n.db.outbox, id);
    var newId := if Mint(step).Some? then Mint(step).value else 0;
    LocalTouches(w, n, step, newId);
    DeletesUntouched(w, n, step, id);
    var q := ClientStep(w, n, step).value.1.db.outbox;
    TouchedKeeps(n.db.outbox, q, Touched(n, step), newId, id);
    assert Kept(n.db.outbox, q, id) by { KeptFrom(n.db.outbox, q, id); }
    KeptStaysStuck(w.server, n.db.outbox, q, id);
  }

  lemma KeptFrom(o: Outbox, q: Outbox, id: ChangeId)
    requires id in o && id in q && q[id] == o[id]
    ensures Kept(o, q, id)
  {
  }

  lemma SyncStepStaysStuck(w: World, c: ClientId, n: Node, step: Step, id: ChangeId)
    requires Facts(w, c, n) && StuckAt(w.server, n.db.outbox, id) && !IsLocal(step) && !step.DoProcess? && !step.DoRest?
    requires ClientStep(w, n, step).Some?
    ensures StuckAt(w.server, ClientStep(w, n, step).value.1.db.outbox, id)
    ensures ClientStep(w, n, step).value.0 == w
  {
    hide Facts, StuckAt, CanSend, CanDeliver, Send, Deliver, Settle, CanPull, CanApplyPull, ApplyPull, UseServer,
         ReleaseAuthenticationBlocks, OnePerKey, CanPullKind, PullFeed.Opened, PullFeed.NextOf, Kept;
    StuckIsQueued(w.server, n.db.outbox, id);
    match step {
      case DoSend(_, ids) => SendStaysStuck(w.server, n, ids, id);
      case DoDeliver(_, reply) => DeliverStaysStuck(w, c, n, reply, id);
      case DoSettle(_, i) => SettleStaysStuck(w, c, n, i, id);
      case DoApplyPull(_) =>
        AppliedStaysStuck(w.server, n, id);
      case DoReleaseAuthentication(_) => ReleaseStaysStuck(w.server, n.db.outbox, id);
      case DoStartPull(_) =>
      case DoPullKind(_, _, _) =>
      case DoLose(_, _) =>
      case DoStop(_) =>
    }
  }

  lemma AppliedStaysStuck(s: Server, n: Node, id: ChangeId)
    requires StuckAt(s, n.db.outbox, id) && CanApplyPull(n)
    ensures StuckAt(s, ApplyPull(n).db.outbox, id)
  {
    hide PullFeed.Finished, PulledItems, ApplyAllPulled, Stored, StuckAt, Kept;
    StuckIsQueued(s, n.db.outbox, id);
    var items := Copies(PulledItems(n.phase.pull));
    PullKeepsUnlessConflict(n.db, items, id);
    KeptStaysStuck(s, n.db.outbox, ApplyPull(n).db.outbox, id);
  }

  // ----- Every step, every continuation -----

  ghost predicate StuckIn(s: Sys, c: ClientId, id: ChangeId) {
    c in s.nodes && StuckAt(s.world.server, s.nodes[c].db.outbox, id)
  }

  lemma ReceiptsStay(s: Server, t: Server, o: Outbox, id: ChangeId)
    requires StuckAt(s, o, id)
    requires forall i :: i in s.receipts ==> i in t.receipts && t.receipts[i] == s.receipts[i]
    ensures StuckAt(t, o, id)
  {
  }

  lemma ServerStepStaysStuck(s: Sys, t: Sys, step: Step, c: ClientId, id: ChangeId)
    requires Inv(s) && Next(s, t, step) && StuckIn(s, c, id) && (step.DoProcess? || step.DoRest?)
    ensures StuckIn(t, c, id)
  {
    hide NodeOk, StuckAt, PushFirst, CanRest, OwnersOk, ReceiptsOk, ServerHistory.Good, RestStep;
    var server := s.world.server;
    assert ServerHistory.Evolves(server, t.world.server) by {
      if step.DoRest? {
        ServerHistory.RestKeeps(server, step.write);
      } else {
        ServerHistory.PushFirstKeeps(server, step.c, step.role, step.batch, step.verdicts, |step.batch|);
      }
    }
    ReceiptsStay(server, t.world.server, s.nodes[c].db.outbox, id);
  }

  lemma ClientStepStaysStuck(s: Sys, t: Sys, step: Step, c: ClientId, id: ChangeId)
    requires Inv(s) && Next(s, t, step) && StuckIn(s, c, id) && !step.DoProcess? && !step.DoRest?
    ensures StuckIn(t, c, id)
  {
    hide Inv, Facts, StuckAt, ClientStep;
    NodeFacts(s, step.c);
    if step.c != c {
      SameReceipts(s.world, s.nodes[step.c], step);
    } else if IsLocal(step) {
      LocalStaysStuck(s.world, c, s.nodes[c], step, id);
    } else {
      SyncStepStaysStuck(s.world, c, s.nodes[c], step, id);
    }
  }

  lemma SameReceipts(w: World, n: Node, step: Step)
    requires !step.DoProcess? && !step.DoRest? && ClientStep(w, n, step).Some?
    ensures ClientStep(w, n, step).value.0.server == w.server
  {
    hide CanSave, CanDelete, CanSend, CanDeliver, CanPull, CanApplyPull, CanResolve, CanMergeInto, CanPullKind, Save,
         DeleteRow, Send, Deliver, Lose, Settle, Stop, StartPull, PullKind, ApplyPull, KeepMine, UseServer, Merge,
         ReleaseAuthenticationBlocks;
  }

  /** No step of any client, of the server or of a REST writer frees a stuck delete. */
  lemma StuckStays(s: Sys, t: Sys, step: Step, c: ClientId, id: ChangeId)
    requires Inv(s) && Next(s, t, step) && StuckIn(s, c, id)
    ensures StuckIn(t, c, id)
  {
    hide Inv, Next, StuckIn;
    if step.DoProcess? || step.DoRest? {
      ServerStepStaysStuck(s, t, step, c, id);
    } else {
      ClientStepStaysStuck(s, t, step, c, id);
    }
  }

  lemma {:induction false} StuckAlong(trace: seq<Sys>, s: Sys, t: Sys, c: ClientId, id: ChangeId, i: nat)
    requires Inv(s) && StuckIn(s, c, id) && Continues(trace, s, t) && i < |trace|
    ensures Inv(trace[i]) && StuckIn(trace[i], c, id)
  {
    hide Inv, Next, StuckIn;
    if i > 0 {
      StuckAlong(trace, s, t, c, id, i - 1);
      assert Steps(trace[i - 1], trace[i - 1 + 1]);
      var step :| Next(trace[i - 1], trace[i], step);
      StuckStays(trace[i - 1], trace[i], step, c, id);
      StepKeeps(trace[i - 1], trace[i], step);
    }
  }

  lemma StuckAtEnd(trace: seq<Sys>, s: Sys, t: Sys, c: ClientId, id: ChangeId)
    requires Inv(s) && StuckIn(s, c, id) && Continues(trace, s, t)
    ensures StuckIn(t, c, id)
  {
    hide Inv, Steps, StuckIn;
    StuckAlong(trace, s, t, c, id, |trace| - 1);
  }

  /** Once stuck, a delete is queued in every later state. */
  lemma StuckForever(s: Sys, t: Sys, c: ClientId, id: ChangeId)
    requires Reachable(s) && Leads(s, t) && StuckIn(s, c, id)
    ensures StuckIn(t, c, id)
  {
    hide Reachable, Inv, Steps, StuckIn, Continues;
    ReachableInv(s);
    var trace :| Continues(trace, s, t);
    StuckAtEnd(trace, s, t, c, id);
  }

  lemma StuckNode(t: Sys, c: ClientId, id: ChangeId)
    requires StuckIn(t, c, id)
    ensures c in t.nodes && id in t.nodes[c].db.outbox
  {
    hide Stuck;
  }

  ghost predicate LeadsToConverged(s: Sys, c: ClientId) {
    exists t :: Leads(s, t) && c in t.nodes && Converged(t, c)
  }

  /** From a reachable state a client can catch up with the server iff it holds no stuck delete. */
  lemma ConvergesIff(s: Sys, c: ClientId)
    requires Reachable(s) && c in s.nodes
    ensures LeadsToConverged(s, c) <==> NoneStuck(s, c)
  {
    hide Reachable, Leads, Stuck;
    if NoneStuck(s, c) {
      var t := CanConverge(s, c);
    } else if LeadsToConverged(s, c) {
      var t :| Leads(s, t) && c in t.nodes && Converged(t, c);
      var id :| id in s.nodes[c].db.outbox && Stuck(s.world.server, id, s.nodes[c].db.outbox[id]);
      StuckForever(s, t, c, id);
      StuckNode(t, c, id);
    }
  }

  // ----- A reachable state with a stuck delete -----

  const DELETION := Change(6, RISK, Delete, Some(1), DeleteRecord)

  ghost function Deleting(attempted: bool): Db {
    Db(map[RISK := Local(STORED.(deleted := true), true)],
       map[6 := Entry(RISK, Delete, Some(1), DeleteRecord, Pending, attempted)], 0)
  }

  ghost function Later(s: Server, db: Db, phase: Phase, sent: set<Change>): Sys {
    Sys(World(s, map[RISK := Device(0)], map[5 := 0, 6 := 0]), map[0 := Node(db, phase, sent, {KeyCopy(RISK, STORED)})])
  }

  ghost function Denied(): Server {
    Written().(receipts := Written().receipts[6 := Receipt(0, Some(DELETION), ErrorResult(DELETION, Permission, false))])
  }

  lemma Deleted()
    ensures Next(Settled(), Later(Written(), Deleting(false), Idle, {SENT}), DoDelete(0, RISK, 6))
  {
    hide Written;
    var db := Synced();
    assert !HasOpen(db.outbox, RISK);
    assert DeleteRow(db, RISK, 6) == Deleting(false);
    var n := Node(db, Idle, {SENT}, {KeyCopy(RISK, STORED)});
    assert map[0 := n][0 := n.(db := Deleting(false))] == map[0 := n.(db := Deleting(false))];
  }

  lemma SentDeletion()
    ensures Next(Later(Written(), Deleting(false), Idle, {SENT}),
                 Later(Written(), Deleting(true), Pushing([DELETION], {}), {SENT, DELETION}), DoSend(0, [6]))
  {
    hide Written, Send, CanSend, Deleting;
    LeavingDeletion();
    var seen := {KeyCopy(RISK, STORED)};
    var n, after := Node(Deleting(false), Idle, {SENT}, seen), Node(Deleting(true), Pushing([DELETION], {}), {SENT, DELETION}, seen);
    assert map[0 := n][0 := after] == map[0 := after];
  }

  lemma LeavingDeletion()
    ensures var n := Node(Deleting(false), Idle, {SENT}, {KeyCopy(RISK, STORED)});
      CanSend(n, [6]) && Send(n, [6]) == Node(Deleting(true), Pushing([DELETION], {}), {SENT, DELETION}, n.seen)
  {
    var n := Node(Deleting(false), Idle, {SENT}, {KeyCopy(RISK, STORED)});
    assert Batch(n.db.outbox, [6]) == [DELETION];
    assert (set id | id in [6]) == {6} && (set ch | ch in [DELETION]) == {DELETION};
    assert MarkAttempted(n.db.outbox, {6}) == Deleting(true).outbox;
    assert n.sent + {DELETION} == {SENT, DELETION};
  }

  /** Deleting a risk takes a manager. */
  lemma DeniedDeletion()
    ensures Push(Written(), 0, Member, [DELETION], [Fine]).server == Denied()
  {
    var d := DecideAndStore(Written(), 0, Member, DELETION, Fine);
    assert d.server == Denied();
    assert PushFirst(Written(), 0, Member, [DELETION], [Fine], 0) == Begin(Written());
  }

  /** A member deletes a risk and the server refuses: reachable, and it never converges again. */
  lemma RefusedDelete() returns (s: Sys)
    ensures Reachable(s) && 0 in s.nodes && !NoneStuck(s, 0) && !LeadsToConverged(s, 0)
  {
    hide Written, Next, Steps, Reachable, Push, LeadsToConverged;
    FirstPush();
    Deleted();
    var s1 := Later(Written(), Deleting(false), Idle, {SENT});
    StepReaches(Settled(), s1, DoDelete(0, RISK, 6));
    SentDeletion();
    var s2 := Later(Written(), Deleting(true), Pushing([DELETION], {}), {SENT, DELETION});
    StepReaches(s1, s2, DoSend(0, [6]));
    assert CanProcess(s2.nodes[0], [DELETION], [Fine]);
    s := Process(s2, 0, Member, [DELETION], [Fine]);
    DeniedStep(s2, s);
    StepReaches(s2, s, DoProcess(0, Member, [DELETION], [Fine]));
    DeniedDeletion();
    assert s.nodes[0].db == Deleting(true);
    assert Stuck(s.world.server, 6, s.nodes[0].db.outbox[6]);
    ConvergesIff(s, 0);
  }

  lemma DeniedStep(s: Sys, t: Sys)
    requires 0 in s.nodes && CanProcess(s.nodes[0], [DELETION], [Fine]) && t == Process(s, 0, Member, [DELETION], [Fine])
    ensures Next(s, t, DoProcess(0, Member, [DELETION], [Fine]))
  {
    hide Process;
  }
}
