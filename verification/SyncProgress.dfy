/** From any reachable state a client without a stuck delete can still catch up with the server. */
module SyncProgress {
  import opened Protocol
  import opened PushRules
  import opened LocalDb
  import opened SyncModel
  import opened SyncInvariant
  import opened SyncPreservation
  import opened SyncTheorems
  import PushReply
  import SyncService
  import SyncServerSteps
  import SyncAcknowledge
  import SyncPulling
  import ServerHistory
  import PullFeed
  import FiniteSets

  // ----- Continuations -----

  ghost predicate Leads(s: Sys, t: Sys) {
    exists trace: seq<Sys> :: Continues(trace, s, t)
  }

  ghost predicate Continues(trace: seq<Sys>, s: Sys, t: Sys) {
    |trace| > 0 && trace[0] == s && trace[|trace| - 1] == t
    && forall i :: 0 <= i < |trace| - 1 ==> Steps(trace[i], trace[i + 1])
  }

  lemma LeadsHere(s: Sys)
    ensures Leads(s, s)
  {
    assert Continues([s], s, s);
  }

  lemma LeadsOn(s: Sys, t: Sys, u: Sys, step: Step)
    requires Leads(s, t) && Next(t, u, step)
    ensures Leads(s, u)
  {
    hide Next;
    var trace :| Continues(trace, s, t);
    var longer := trace + [u];
    assert Steps(t, u);
    forall i | 0 <= i < |longer| - 1 ensures Steps(longer[i], longer[i + 1]) {
      if i < |trace| - 1 {
        assert Steps(trace[i], trace[i + 1]);
      }
    }
    assert Continues(longer, s, u);
  }

  lemma {:induction false} TraceReaches(trace: seq<Sys>, s: Sys, t: Sys, i: nat)
    requires Reachable(s) && Continues(trace, s, t) && i < |trace|
    ensures Reachable(trace[i])
  {
    hide Reachable, Next;
    if i > 0 {
      TraceReaches(trace, s, t, i - 1);
      assert Steps(trace[i - 1], trace[i - 1 + 1]);
      var step :| Next(trace[i - 1], trace[i], step);
      StepReaches(trace[i - 1], trace[i], step);
    }
  }

  lemma LeadsReaches(s: Sys, t: Sys)
    requires Reachable(s) && Leads(s, t)
    ensures Reachable(t)
  {
    hide Reachable, Steps;
    var trace :| Continues(trace, s, t);
    TraceReaches(trace, s, t, |trace| - 1);
  }

  lemma {:induction false} TraceKeeps(trace: seq<Sys>, s: Sys, t: Sys, i: nat)
    requires Inv(s) && Continues(trace, s, t) && i < |trace|
    ensures Inv(trace[i])
  {
    hide Inv, Next;
    if i > 0 {
      TraceKeeps(trace, s, t, i - 1);
      assert Steps(trace[i - 1], trace[i - 1 + 1]);
      var step :| Next(trace[i - 1], trace[i], step);
      StepKeeps(trace[i - 1], trace[i], step);
    }
  }

  lemma LeadsKeeps(s: Sys, t: Sys)
    requires Inv(s) && Leads(s, t)
    ensures Inv(t)
  {
    hide Inv, Steps;
    var trace :| Continues(trace, s, t);
    TraceKeeps(trace, s, t, |trace| - 1);
  }

  lemma LeadsTwice(s: Sys, t: Sys, u: Sys)
    requires Leads(s, t) && Leads(t, u)
    ensures Leads(s, u)
  {
    hide Steps;
    var a :| Continues(a, s, t);
    var b :| Continues(b, t, u);
    var trace := a + b[1..];
    forall i | 0 <= i < |trace| - 1 ensures Steps(trace[i], trace[i + 1]) {
      if i < |a| - 1 {
        assert Steps(a[i], a[i + 1]);
      } else {
        assert Steps(b[i - |a| + 1], b[i - |a| + 1 + 1]);
      }
    }
    assert Continues(trace, s, u);
  }

  // ----- What stops a client for good -----

  ghost predicate WasRefused(s: Server, id: ChangeId) {
    id in s.receipts && s.receipts[id].result.outcome.Error?
  }

  /** A delete that is blocked for another reason than a conflict or a login, or that the server
    * already refused under this id. Deleted rows cannot be edited, so nothing replaces it. */
  ghost predicate Stuck(s: Server, id: ChangeId, e: Entry) {
    && e.op.Delete? && !IsConflict(e)
    && ((e.status.Blocked? && !e.status.kind.Authentication?) || WasRefused(s, id))
  }

  ghost predicate NoneStuck(s: Sys, c: ClientId)
    requires c in s.nodes
  {
    forall id :: id in s.nodes[c].db.outbox ==> !Stuck(s.world.server, id, s.nodes[c].db.outbox[id])
  }

  /** Every queued delete can be sent and was not refused. */
  ghost predicate Clear(s: Server, o: Outbox) {
    forall id :: id in o && o[id].op.Delete? && !IsConflict(o[id]) ==> Sendable(o[id]) && !WasRefused(s, id)
  }

  // ----- One change to the server and back -----

  predicate CarriesNewCode(r: Record) {
    r.code.Given? && r.code.code.Some?
  }

  ghost predicate Answerable(s: Server, id: ChangeId, e: Entry) {
    Sendable(e) && !WasRefused(s, id) && !(e.op.Upsert? && CarriesNewCode(e.record))
  }

  lemma OnePush(s: Server, c: ClientId, ch: Change)
    ensures Push(s, c, Admin, [ch], [Fine]) == PushOne(Begin(s), c, Admin, ch, Fine)
    ensures |PushOne(Begin(s), c, Admin, ch, Fine).results| == 1
  {
    hide DecideAndStore, Replay;
    assert PushFirst(s, c, Admin, [ch], [Fine], 0) == Begin(s);
  }

  /** A manager's push of a change that neither meets a refused receipt nor a code never errs. */
  lemma FreshAnswer(s: Server, c: ClientId, ch: Change)
    requires ServerHistory.CodesUnique(s.rows) && !(ch.op.Upsert? && CarriesNewCode(ch.record))
    ensures !DecideAndStore(s, c, Admin, ch, Fine).result.outcome.Error?
  {
    if ch.op.Upsert? && ch.key in s.rows {
      KeptCodeIsFree(s, ch);
    }
    hide Updated, SoftDeleted, Created, CodeTaken;
  }

  lemma KeptCodeIsFree(s: Server, ch: Change)
    requires ServerHistory.CodesUnique(s.rows) && !CarriesNewCode(ch.record) && ch.key in s.rows
    ensures !CodeTaken(s.rows, ch.key, Updated(ch.key.kind, s.rows[ch.key].copy, ch.record).code)
  {
  }

  /** A receipt that is no refusal replays as it was decided. */
  lemma ReplayedAnswer(w: World, c: ClientId, n: Node, ch: Change)
    requires WorldOk(w) && PayloadsOk(w, c, n) && BoundaryOk(w, c, n) && ch in n.sent
    requires ch.id in w.server.receipts && !WasRefused(w.server, ch.id)
    ensures var q := PushOne(Begin(w.server), c, Admin, ch, Fine);
      !q.results[0].outcome.Error? && q.server.receipts == w.server.receipts
  {
    hide SyncServerSteps.Handling, PayloadsOk, BoundaryOk, WorldOk, DuplicateReason, DecideAndStore;
    var p := Begin(w.server);
    SyncServerSteps.PushBeginOk(w, c, n, [ch]);
    SyncServerSteps.HonestDuplicate(w, c, n, p, ch);
  }

  lemma DecidedReceipts(s: Server, c: ClientId, ch: Change)
    requires ServerHistory.CodesUnique(s.rows)
    ensures OtherReceipts(s, DecideAndStore(s, c, Admin, ch, Fine).server, ch.id)
  {
    hide DecideAndStore, ServerHistory.OneWrite, ServerHistory.CodeFits, BaseMatches, ServerHistory.SameTables,
         ServerHistory.CodesUnique;
    ServerHistory.DecideEffect(s, c, Admin, ch, Fine);
  }

  lemma DecidedAnswer(w: World, c: ClientId, ch: Change)
    requires WorldOk(w) && ch.id !in w.server.receipts && !(ch.op.Upsert? && CarriesNewCode(ch.record))
    ensures var q := PushOne(Begin(w.server), c, Admin, ch, Fine);
      !q.results[0].outcome.Error? && OtherReceipts(w.server, q.server, ch.id)
  {
    hide WorldOk, ServerHistory.RowsStamped, ServerHistory.ArchiveWithin, ServerHistory.CodesUnique, DecideAndStore,
         OtherReceipts;
    StampsAndCodes(w);
    FreshAnswer(w.server, c, ch);
    DecidedReceipts(w.server, c, ch);
  }

  lemma NoErrorAnswer(w: World, c: ClientId, n: Node, ch: Change)
    requires WorldOk(w) && PayloadsOk(w, c, n) && BoundaryOk(w, c, n) && ch in n.sent && !WasRefused(w.server, ch.id)
    requires !(ch.op.Upsert? && CarriesNewCode(ch.record))
    ensures var q := PushOne(Begin(w.server), c, Admin, ch, Fine);
      |q.results| == 1 && !q.results[0].outcome.Error? && OtherReceipts(w.server, q.server, ch.id)
  {
    hide PayloadsOk, BoundaryOk, WorldOk, PushOne, CarriesNewCode;
    OnePush(w.server, c, ch);
    if ch.id in w.server.receipts {
      ReplayedAnswer(w, c, n, ch);
    } else {
      DecidedAnswer(w, c, ch);
    }
  }

  /** The entry is gone or an open conflict; nothing else moved. */
  ghost predicate EntryHandled(o: Outbox, q: Outbox, id: ChangeId) {
    && q.Keys <= o.Keys
    && (forall i :: i in o && i != id ==> i in q && q[i] == o[i])
    && (id in q ==> IsConflict(q[id]))
  }

  /** Gone if accepted, else blocked beside the server's copy. */
  ghost predicate Met(o: Outbox, q: Outbox, id: ChangeId, r: Result)
    requires id in o
  {
    && (r.outcome.Accepted? ==> id !in q)
    && (r.outcome.Conflict? ==> id in q && q[id] == o[id].(status := Blocked(Conflicting, r.record), attempted := true))
  }

  lemma SettledOne(db: Db, id: ChangeId, r: Result)
    requires OnePerKey(db.outbox) && id in db.outbox && r.id == id && r.key == db.outbox[id].key && !r.outcome.Error?
    requires AcknowledgeAll(SyncService.MarkedDb(db, [id]), WithState([r])).Some?
    ensures var q := SyncService.SettledDb(SyncService.MarkedDb(db, [id]), [r]).outbox;
      EntryHandled(db.outbox, q, id) && Met(db.outbox, q, id, r)
  {
    hide AcknowledgeAll, AcknowledgeFirst, PushReply.SettleEach, SyncService.RestOf, WithState;
    var marked := SyncService.MarkedDb(db, [id]);
    var acked := AcknowledgeAll(marked, WithState([r])).value;
    var rest := SyncService.RestOf([r]);
    var q := PushReply.SettleEach(acked.outbox, rest);
    SyncService.RestOfIsRest([r]);
    SyncAcknowledge.AckAllIs(marked, WithState([r]));
    PushReply.AcknowledgedAreGone(marked, WithState([r]), |WithState([r])|);
    PushReply.SettleEachDisposes(acked.outbox, rest);
    forall i | i in db.outbox && i != id ensures i in q && q[i] == db.outbox[i] {
      PushReply.ReplyDisposition(marked, [r], rest, i);
    }
    PushReply.ReplyDisposition(marked, [r], rest, id);
    assert r in [r];
  }

  // ----- Steps, with what a continuation needs of them -----

  lemma SendStep(w: World, n: Node, c: ClientId, ids: seq<ChangeId>)
    requires CanSend(n, ids)
    ensures ClientStep(w, n, DoSend(c, ids)) == Some((w, Send(n, ids)))
  {
    hide CanSend, Send;
  }

  lemma DeliverStep(w: World, n: Node, c: ClientId, reply: seq<Result>)
    requires CanDeliver(n, reply)
    ensures ClientStep(w, n, DoDeliver(c, reply)) == Some((w, Deliver(n, reply)))
  {
    hide CanDeliver, Deliver;
  }

  lemma SettleStep(w: World, n: Node, c: ClientId)
    requires n.phase.Settling?
    ensures n.phase.todo != [] ==> ClientStep(w, n, DoSettle(c, 0)) == Some((w, Settle(n, 0)))
    ensures ClientStep(w, n, DoStop(c)) == Some((w, Stop(n)))
  {
    hide Settle, Stop;
  }

  lemma OneToSend(n: Node, id: ChangeId)
    requires n.phase.Idle? && id in n.db.outbox && Sendable(n.db.outbox[id])
    ensures CanSend(n, [id]) && Batch(n.db.outbox, [id]) == [ChangeOf(id, n.db.outbox[id])]
    ensures Send(n, [id]).phase == Pushing([ChangeOf(id, n.db.outbox[id])], {})
    ensures ChangeOf(id, n.db.outbox[id]) in Send(n, [id]).sent
  {
    assert Batch(n.db.outbox, [id])[0] == ChangeOf(id, n.db.outbox[id]);
  }

  /** A continuation has reached `t`, where the client is idle. */
  ghost predicate At(s: Sys, t: Sys, c: ClientId) {
    Leads(s, t) && Inv(t) && c in t.nodes && t.nodes[c].phase.Idle?
  }

  lemma Go(s: Sys, t: Sys, u: Sys, step: Step)
    requires Leads(s, t) && Inv(t) && Next(t, u, step)
    ensures Leads(s, u) && Inv(u)
  {
    LeadsOn(s, t, u, step);
    StepKeeps(t, u, step);
  }

  /** The system after one client's own step. */
  ghost function Moved(t: Sys, c: ClientId, w: World, n: Node): Sys {
    Sys(w, t.nodes[c := n])
  }

  lemma OwnStep(s: Sys, t: Sys, c: ClientId, step: Step, w: World, n: Node)
    requires Leads(s, t) && Inv(t) && c in t.nodes && !step.DoProcess? && !step.DoRest? && step.c == c
    requires ClientStep(t.world, t.nodes[c], step) == Some((w, n))
    ensures Leads(s, Moved(t, c, w, n)) && Inv(Moved(t, c, w, n))
  {
    hide Inv, ClientStep, Leads;
    Go(s, t, Moved(t, c, w, n), step);
  }

  /** The receipts of every other id are as before. */
  ghost predicate OtherReceipts(s: Server, t: Server, id: ChangeId) {
    forall i :: i != id ==> Lookup(t.receipts, i) == Lookup(s.receipts, i)
  }

  lemma Sent(s: Sys, t: Sys, c: ClientId, id: ChangeId) returns (u: Sys)
    requires Leads(s, t) && Inv(t) && c in t.nodes && t.nodes[c].phase.Idle?
    requires id in t.nodes[c].db.outbox && Sendable(t.nodes[c].db.outbox[id])
    ensures CanSend(t.nodes[c], [id])
    ensures Leads(s, u) && Inv(u) && u == Moved(t, c, t.world, Send(t.nodes[c], [id]))
  {
    hide Inv, Leads, Send, CanSend, ClientStep;
    var n := t.nodes[c];
    OneToSend(n, id);
    SendStep(t.world, n, c, [id]);
    u := Moved(t, c, t.world, Send(n, [id]));
    OwnStep(s, t, c, DoSend(c, [id]), t.world, Send(n, [id]));
  }

  lemma NodeInv(t: Sys, c: ClientId)
    requires Inv(t) && c in t.nodes
    ensures WorldOk(t.world) && NodeOk(t.world, c, t.nodes[c])
    ensures PayloadsOk(t.world, c, t.nodes[c]) && BoundaryOk(t.world, c, t.nodes[c]) && BasesOk(t.world, c, t.nodes[c])
    ensures CoreOk(t.world, c, t.nodes[c]) && OnePerKey(t.nodes[c].db.outbox)
    ensures forall id :: id in t.nodes[c].db.outbox ==> EntryRowOk(t.nodes[c].db.local, t.nodes[c].db.outbox[id])
  {
    hide WorldOk, LocalOk, PayloadsOk, BoundaryOk, BasesOk, CoverageOk, PhaseOk, LocalCodesUnique, EntryRowOk;
  }

  lemma SentIsProcessable(n: Node, id: ChangeId)
    requires n.phase.Idle? && id in n.db.outbox && Sendable(n.db.outbox[id])
    ensures CanSend(n, [id]) && CanProcess(Send(n, [id]), [ChangeOf(id, n.db.outbox[id])], [Fine])
  {
    OneToSend(n, id);
    hide Send, CanSend;
  }

  lemma ProcessStep(t: Sys, c: ClientId, n: Node, id: ChangeId, ch: Change, r: Result)
    requires c in t.nodes && n.phase.Idle? && id in n.db.outbox && Sendable(n.db.outbox[id])
    requires ch == ChangeOf(id, n.db.outbox[id]) && CanSend(n, [id]) && t.nodes[c] == Send(n, [id])
    requires CanProcess(t.nodes[c], [ch], [Fine]) && Push(t.world.server, c, Admin, [ch], [Fine]).results == [r]
    ensures var u := Process(t, c, Admin, [ch], [Fine]);
      && Next(t, u, DoProcess(c, Admin, [ch], [Fine]))
      && c in u.nodes && u.nodes[c] == SyncService.Replied(n, [id], [r]) && u.world.minted == t.world.minted
      && u.world.server == Push(t.world.server, c, Admin, [ch], [Fine]).server
  {
    OneToSend(n, id);
    hide Push, Send, CanSend, CanProcess, ClientStep;
    assert {} + {[r]} == {[r]};
  }

  /** One push of one change by a manager, and its result. */
  ghost predicate PushedOnce(s: Server, t: Server, c: ClientId, ch: Change, r: Result) {
    var p := PushOne(Begin(s), c, Admin, ch, Fine);
    p.server == t && p.results == [r]
  }

  /** The server answers the batch just sent, and the answer arrives. */
  lemma Heard(s: Sys, t: Sys, c: ClientId, n: Node, id: ChangeId) returns (u: Sys, r: Result)
    requires Leads(s, t) && Inv(t) && c in t.nodes && n.phase.Idle? && id in n.db.outbox
    requires Answerable(t.world.server, id, n.db.outbox[id]) && CanSend(n, [id]) && t.nodes[c] == Send(n, [id])
    ensures Leads(s, u) && Inv(u) && c in u.nodes && u.nodes[c] == SyncService.Replied(n, [id], [r])
    ensures OtherReceipts(t.world.server, u.world.server, id) && u.world.minted == t.world.minted
    ensures !r.outcome.Error? && PushedOnce(t.world.server, u.world.server, c, ChangeOf(id, n.db.outbox[id]), r)
  {
    hide Inv, WorldOk, NodeOk, CoreOk, PayloadsOk, BoundaryOk, BasesOk, Leads, Push, PushOne, Send, EntryRowOk,
         OnePerKey, Next, Process, CanProcess, CanSend, WasRefused, CarriesNewCode, OtherReceipts;
    var ch := ChangeOf(id, n.db.outbox[id]);
    OneToSend(n, id);
    NodeInv(t, c);
    NoErrorAnswer(t.world, c, t.nodes[c], ch);
    OnePush(t.world.server, c, ch);
    r := Push(t.world.server, c, Admin, [ch], [Fine]).results[0];
    SentIsProcessable(n, id);
    ProcessStep(t, c, n, id, ch, r);
    u := Process(t, c, Admin, [ch], [Fine]);
    Go(s, t, u, DoProcess(c, Admin, [ch], [Fine]));
  }

  lemma RepliedShape(n: Node, id: ChangeId, r: Result)
    requires n.phase.Idle? && id in n.db.outbox && Sendable(n.db.outbox[id])
    ensures CanSend(n, [id]) && SyncService.Replied(n, [id], [r]).phase == Pushing([ChangeOf(id, n.db.outbox[id])], {[r]})
    ensures SyncService.Replied(n, [id], [r]).db == SyncService.MarkedDb(n.db, [id])
  {
    OneToSend(n, id);
    hide MarkAttempted;
  }

  /** Deliver the answer, settle what it leaves, stop. */
  lemma Done(s: Sys, t: Sys, c: ClientId, n: Node, id: ChangeId, r: Result) returns (u: Sys)
    requires Leads(s, t) && Inv(t) && c in t.nodes && n.phase.Idle? && id in n.db.outbox && Sendable(n.db.outbox[id])
    requires CanSend(n, [id]) && t.nodes[c] == SyncService.Replied(n, [id], [r])
    requires !r.outcome.Error? && OnePerKey(n.db.outbox)
    ensures At(s, u, c) && u.world == t.world && EntryHandled(n.db.outbox, u.nodes[c].db.outbox, id)
    ensures Met(n.db.outbox, u.nodes[c].db.outbox, id, r)
  {
    hide Inv, WorldOk, NodeOk, CoreOk, PayloadsOk, BoundaryOk, BasesOk, Leads, EntryRowOk, Deliver, AcknowledgeAll,
         CanSend, CanDeliver, ClientStep, SyncService.Replied, SyncService.SettledDb, SyncService.SettleRest, OnePerKey,
         EntryHandled, Met, WithState, SyncService.MarkedDb;
    var m, ch := t.nodes[c], ChangeOf(id, n.db.outbox[id]);
    RepliedShape(n, id, r);
    NodeInv(t, c);
    ReplyFits(t.world, c, m, ch, r);
    SyncAcknowledge.DeliverKeeps(t.world, c, m, [r]);
    OneInOrder(ch, r);
    SyncService.SettledPushIsSteps(n, [id], [r]);
    DeliveredSome(m, [r]);
    SettledOne(n.db, id, r);
    var after := Deliver(m, [r]);
    DeliverStep(t.world, m, c, [r]);
    OwnStep(s, t, c, DoDeliver(c, [r]), t.world, after);
    DeliverSettles(m, [r]);
    u := SettledAndStopped(s, Moved(t, c, t.world, after), c);
  }

  lemma OneInOrder(ch: Change, r: Result)
    requires r.id == ch.id
    ensures SyncService.InOrder([ch], [r])
  {
  }

  lemma DeliveredSome(n: Node, reply: seq<Result>)
    requires CanDeliver(n, reply)
    ensures AcknowledgeAll(n.db, WithState(reply)).Some?
  {
  }

  lemma ReplyFits(w: World, c: ClientId, n: Node, ch: Change, r: Result)
    requires NodeOk(w, c, n) && n.phase == Pushing([ch], {[r]})
    ensures r.id == ch.id && r.key == ch.key
  {
    hide CoreOk, CoverageOk, CodesApart, BatchOk;
    assert [r] in n.phase.replies;
    assert ReplyOk(w.server, n.db.watermark, c, [ch], [r]);
    assert [ch][0] == ch && [r][0] == r;
    SyncAcknowledge.ResultKey(w.server, n.db.watermark, c, [ch][0], [r][0]);
  }

  lemma DeliverSettles(n: Node, reply: seq<Result>)
    requires CanDeliver(n, reply)
    ensures Deliver(n, reply).phase.Settling?
  {
  }

  /** Settle every remaining answer, then stop. */
  lemma {:induction false} SettledAndStopped(s: Sys, t: Sys, c: ClientId) returns (u: Sys)
    requires Leads(s, t) && Inv(t) && c in t.nodes && t.nodes[c].phase.Settling?
    ensures At(s, u, c) && u.world == t.world && u.nodes[c].db == SyncService.SettleRest(t.nodes[c]).db
    decreases |t.nodes[c].phase.todo|
  {
    hide Inv, Leads, ClientStep, Settle, Stop;
    var n := t.nodes[c];
    SettleStep(t.world, n, c);
    if n.phase.todo == [] {
      OwnStep(s, t, c, DoStop(c), t.world, Stop(n));
      u := Moved(t, c, t.world, Stop(n));
      StopIsIdle(n);
    } else {
      SyncService.SettleHead(n);
      OwnStep(s, t, c, DoSettle(c, 0), t.world, Settle(n, 0));
      u := SettledAndStopped(s, Moved(t, c, t.world, Settle(n, 0)), c);
    }
  }

  lemma StopIsIdle(n: Node)
    ensures Stop(n).phase.Idle? && Stop(n).db == n.db
  {
  }

  /** One whole round trip: the entry is accepted, or becomes an open conflict. */
  lemma RoundTrip(s: Sys, t: Sys, c: ClientId, id: ChangeId) returns (u: Sys, r: Result)
    requires At(s, t, c) && id in t.nodes[c].db.outbox
    requires Answerable(t.world.server, id, t.nodes[c].db.outbox[id])
    ensures At(s, u, c) && EntryHandled(t.nodes[c].db.outbox, u.nodes[c].db.outbox, id)
    ensures OtherReceipts(t.world.server, u.world.server, id)
    ensures !r.outcome.Error? && Met(t.nodes[c].db.outbox, u.nodes[c].db.outbox, id, r)
    ensures PushedOnce(t.world.server, u.world.server, c, ChangeOf(id, t.nodes[c].db.outbox[id]), r)
  {
    var n := t.nodes[c];
    assert OnePerKey(n.db.outbox) by { hide Inv, Leads, OnePerKey; NodeInv(t, c); }
    hide Inv, Leads, Send, CanSend, OnePerKey, EntryHandled, Met, OtherReceipts, SyncService.Replied, WasRefused, CarriesNewCode,
         PushedOnce;
    var sent := Sent(s, t, c, id);
    var heard;
    heard, r := Heard(s, sent, c, n, id);
    u := Done(s, heard, c, n, id, r);
  }

  // ----- Resolving, editing, releasing, pulling -----

  lemma ResolveSteps(w: World, n: Node, c: ClientId, id: ChangeId)
    requires OpenConflict(n.db, id) && CanResolve(n, id) && UseServer(n.db, id).Some?
    ensures ClientStep(w, n, DoUseServer(c, id)) == Some((w, n.(db := UseServer(n.db, id).value)))
  {
    hide CanResolve, UseServer;
  }

  lemma Resolved(s: Sys, t: Sys, c: ClientId, id: ChangeId) returns (u: Sys)
    requires At(s, t, c) && OpenConflict(t.nodes[c].db, id)
    ensures At(s, u, c) && u.world == t.world && u.nodes[c].db.outbox == t.nodes[c].db.outbox - {id}
  {
    hide Inv, Leads, WorldOk, NodeOk, CoreOk, PayloadsOk, BoundaryOk, BasesOk, EntryRowOk, ClientStep, PutCopy, UseServer,
         OnePerKey, WithoutKey;
    var n := t.nodes[c];
    NodeInv(t, c);
    ConflictIsSaved(t.world, c, n, id);
    SyncPulling.UseServerShape(n.db, id);
    OnlyEntry(n.db.outbox, id);
    ResolveSteps(t.world, n, c, id);
    var m := n.(db := UseServer(n.db, id).value);
    OwnStep(s, t, c, DoUseServer(c, id), t.world, m);
    u := Moved(t, c, t.world, m);
  }

  lemma OnlyEntry(o: Outbox, id: ChangeId)
    requires OnePerKey(o) && id in o
    ensures WithoutKey(o, o[id].key) == o - {id}
  {
  }

  lemma ConflictIsSaved(w: World, c: ClientId, n: Node, id: ChangeId)
    requires CoreOk(w, c, n) && OpenConflict(n.db, id)
    ensures UseServer(n.db, id).Some?
  {
    hide OutboxOk, LocalOk, BoundaryOk, PayloadsOk, LocalCodesUnique, BaseOk, PutCopy;
    assert SavedOk(w, n.seen, n.db.outbox[id]);
  }

  lemma {:induction false} Bound(ids: set<ChangeId>) returns (high: ChangeId)
    ensures forall id :: id in ids ==> id < high
  {
    if ids == {} {
      high := 0;
    } else {
      var id :| id in ids;
      var rest := Bound(ids - {id});
      high := if id < rest then rest else id + 1;
      forall x | x in ids ensures x < high {
        assert x == id || x in ids - {id};
      }
    }
  }

  /** The record's code, but not a new one, which the server might refuse. */
  function CodeKept(kind: Kind, r: Record): CodeField {
    if Scored(kind) && !CarriesNewCode(r) then r.code else Absent
  }

  /** The user saves the same fields again, under a new change id and without a new code. */
  lemma SavedAgain(s: Sys, t: Sys, c: ClientId, id: ChangeId) returns (u: Sys, newId: ChangeId)
    requires At(s, t, c) && id in t.nodes[c].db.outbox
    requires t.nodes[c].db.outbox[id].op.Upsert? && !IsConflict(t.nodes[c].db.outbox[id])
    ensures At(s, u, c) && u.world.server == t.world.server && newId !in t.nodes[c].db.outbox
    ensures var o, q := t.nodes[c].db.outbox, u.nodes[c].db.outbox;
      && q.Keys == o.Keys - {id} + {newId}
      && (forall i :: i in o && i != id ==> i in q && q[i] == o[i])
      && Answerable(u.world.server, newId, q[newId]) && !IsConflict(q[newId])
      && q[newId].key == o[id].key && q[newId].op.Upsert? && q[newId].record == o[id].record.(code := CodeKept(o[id].key.kind, o[id].record))
    ensures newId !in u.world.server.receipts
  {
    hide Inv, Leads, WorldOk, NodeOk, CoreOk, PayloadsOk, BoundaryOk, BasesOk, ClientStep, EntryRowOk, CanSave, SaveRow,
         OnePerKey, Minting, Claiming;
    newId := Bound(t.world.minted.Keys);
    assert newId !in t.world.minted;
    var n, k := t.nodes[c], t.nodes[c].db.outbox[id].key;
    var r := n.db.outbox[id].record.(code := CodeKept(k.kind, n.db.outbox[id].record));
    NodeInv(t, c);
    FreshlyMinted(t.world, c, n, newId);
    SavableAgain(t.world, c, n, id, r, newId);
    SaveReplaces(n.db, id, r, newId);
    SaveStep(t.world, n, c, k, r, newId);
    var w, m := Minting(Claiming(t.world, k, c), newId, c), Save(n, k, r, None, newId);
    OwnStep(s, t, c, DoSave(c, k, r, None, newId), w, m);
    u := Moved(t, c, w, m);
    SameServer(t.world, k, newId, c);
  }

  lemma SameServer(w: World, k: Key, id: ChangeId, c: ClientId)
    ensures Minting(Claiming(w, k, c), id, c).server == w.server
  {
  }

  lemma SaveStep(w: World, n: Node, c: ClientId, k: Key, r: Record, id: ChangeId)
    requires CanSave(w, c, n, k, r, None, id)
    ensures ClientStep(w, n, DoSave(c, k, r, None, id)) == Some((Minting(Claiming(w, k, c), id, c), Save(n, k, r, None, id)))
  {
    hide CanSave, Save;
  }

  lemma FreshlyMinted(w: World, c: ClientId, n: Node, id: ChangeId)
    requires WorldOk(w) && PayloadsOk(w, c, n) && id !in w.minted
    ensures id !in w.server.receipts && id !in n.db.outbox
  {
    hide ServerHistory.Good, OwnersOk, StoredOk, SentPayloadOk;
    assert id in w.server.receipts ==> ReceiptOk(w, id);
  }

  lemma SavableAgain(w: World, c: ClientId, n: Node, id: ChangeId, r: Record, newId: ChangeId)
    requires CoreOk(w, c, n) && id in n.db.outbox && n.db.outbox[id].op.Upsert? && newId !in w.minted
    requires r.code == CodeKept(n.db.outbox[id].key.kind, n.db.outbox[id].record)
    ensures CanSave(w, c, n, n.db.outbox[id].key, r, None, newId)
  {
    hide LocalOk, BasesOk, BoundaryOk, PayloadsOk;
    assert EntryRowOk(n.db.local, n.db.outbox[id]);
  }

  lemma SaveReplaces(db: Db, id: ChangeId, r: Record, newId: ChangeId)
    requires OnePerKey(db.outbox) && id in db.outbox && newId !in db.outbox && !IsConflict(db.outbox[id])
    ensures var q := SaveRow(db, db.outbox[id].key, r, None, newId).outbox;
      && q.Keys == db.outbox.Keys - {id} + {newId}
      && (forall i :: i in db.outbox && i != id ==> i in q && q[i] == db.outbox[i])
      && q[newId].record == r && q[newId].status == Pending && q[newId].key == db.outbox[id].key && q[newId].op.Upsert?
  {
    var k := db.outbox[id].key;
    assert HasOpen(db.outbox, k) && OpenId(db.outbox, k) == id;
    hide SquashedBase;
  }

  lemma ReleaseStep(w: World, n: Node, c: ClientId)
    ensures ClientStep(w, n, DoReleaseAuthentication(c)) ==
      Some((w, n.(db := n.db.(outbox := ReleaseAuthenticationBlocks(n.db.outbox)))))
    ensures ClientStep(w, n, DoStop(c)) == Some((w, Stop(n)))
  {
    hide ReleaseAuthenticationBlocks, Stop;
  }

  /** Stop whatever runs and log in again: every delete that is not stuck can be sent. */
  lemma Ready(s: Sys, c: ClientId) returns (t: Sys)
    requires Inv(s) && c in s.nodes && NoneStuck(s, c)
    ensures At(s, t, c) && Clear(t.world.server, t.nodes[c].db.outbox)
    ensures t.world == s.world && t.nodes[c].db.outbox == ReleaseAuthenticationBlocks(s.nodes[c].db.outbox)
  {
    hide Inv, Leads, ClientStep;
    var n := s.nodes[c];
    LeadsHere(s);
    ReleaseStep(s.world, n, c);
    OwnStep(s, s, c, DoStop(c), s.world, Stop(n));
    var idle := Moved(s, c, s.world, Stop(n));
    ReleaseStep(s.world, Stop(n), c);
    var m := Stop(n).(db := n.db.(outbox := ReleaseAuthenticationBlocks(n.db.outbox)));
    OwnStep(s, idle, c, DoReleaseAuthentication(c), s.world, m);
    t := Moved(idle, c, s.world, m);
    ReleasedIsClear(s, c);
  }

  lemma ReleasedIsClear(s: Sys, c: ClientId)
    requires c in s.nodes && NoneStuck(s, c)
    ensures Clear(s.world.server, ReleaseAuthenticationBlocks(s.nodes[c].db.outbox))
  {
    hide WasRefused;
  }

  lemma PullSteps(w: World, n: Node, c: ClientId, kind: Kind)
    ensures CanPull(w, n) ==> ClientStep(w, n, DoStartPull(c)) == Some((w, StartPull(w, n)))
    ensures CanPullKind(w, n, kind, None) ==> ClientStep(w, n, DoPullKind(c, kind, None)) == Some((w, PullKind(w, n, kind, None)))
  {
    hide CanPull, StartPull, CanPullKind, PullKind;
  }

  lemma ApplyStep(w: World, n: Node, c: ClientId)
    requires CanApplyPull(n)
    ensures ClientStep(w, n, DoApplyPull(c)) == Some((w, ApplyPull(n)))
  {
    hide CanApplyPull, ApplyPull;
  }

  /** A pull is under way and `p` is what it holds. */
  ghost predicate Fetching(s: Sys, t: Sys, c: ClientId, p: PullFeed.Pull) {
    Leads(s, t) && c in t.nodes && t.nodes[c].phase == Pulling(p) && PullFeed.PullOk(p, t.world.server.rows)
  }

  lemma ReadKind(s: Sys, t: Sys, c: ClientId, p: PullFeed.Pull, kind: Kind) returns (u: Sys, q: PullFeed.Pull)
    requires Fetching(s, t, c, p) && PullFeed.DistinctSequences(t.world.server.rows) && kind in p.feeds
    ensures q == PullFeed.KindPage(p, kind, t.world.server.rows, None)
    ensures Fetching(s, u, c, q) && u == Moved(t, c, t.world, t.nodes[c].(phase := Pulling(q)))
  {
    hide Leads, ClientStep, PullFeed.KindPage, PullFeed.DistinctSequences, PullFeed.PullOk;
    var n := t.nodes[c];
    q := PullFeed.KindPage(p, kind, t.world.server.rows, None);
    PullSteps(t.world, n, c, kind);
    PullFeed.KindPageKeeps(p, kind, t.world.server.rows, None);
    u := Moved(t, c, t.world, PullKind(t.world, n, kind, None));
    LeadsOn(s, t, u, DoPullKind(c, kind, None));
  }

  lemma UncappedIsDone(p: PullFeed.Pull, kind: Kind, rows: map<Key, Row>)
    requires kind in p.feeds && PullFeed.DistinctSequences(rows)
    ensures var q := PullFeed.KindPage(p, kind, rows, None);
      q == p.(feeds := q.feeds) && q.feeds.Keys == p.feeds.Keys && !q.feeds[kind].more
      && forall other :: other in p.feeds && other != kind ==> q.feeds[other] == p.feeds[other]
  {
    hide PullFeed.Feed;
  }

  /** Every row carries a sequence of its own, up to the counter. */
  ghost predicate Stamped(s: Server) {
    PullFeed.DistinctSequences(s.rows) && forall k :: k in s.rows ==> s.rows[k].sequence <= s.last
  }

  /** An idle client fetches everything above its watermark, one query after the other. */
  lemma Fetched(s: Sys, t: Sys, c: ClientId) returns (u: Sys, p: PullFeed.Pull)
    requires Leads(s, t) && c in t.nodes && CanPull(t.world, t.nodes[c]) && Stamped(t.world.server)
    ensures Fetching(s, u, c, p) && PullFeed.Finished(p)
    ensures p.since == t.nodes[c].db.watermark && p.snapshot == t.world.server.last && p.at == t.world.server.rows
    ensures u == Moved(t, c, t.world, t.nodes[c].(phase := Pulling(p)))
  {
    hide Leads, ClientStep, PullFeed.KindPage, PullFeed.DistinctSequences, PullFeed.PullOk;
    var w, n := t.world, t.nodes[c];
    PullSteps(w, n, c, Risk);
    LeadsOn(s, t, Moved(t, c, w, StartPull(w, n)), DoStartPull(c));
    var first := PullFeed.Opened(w.server.rows, w.server.last, n.db.watermark);
    PullFeed.OpenedOk(w.server.rows, w.server.last, n.db.watermark);
    u, p := ReadKinds(s, Moved(t, c, w, StartPull(w, n)), c, first, [Risk, Opportunity, Action, Assessment, Ticket]);
    MovedTwice(t, c, w, StartPull(w, n), u.nodes[c]);
  }

  lemma MovedTwice(t: Sys, c: ClientId, w: World, m: Node, n: Node)
    ensures Moved(Moved(t, c, w, m), c, w, n) == Moved(t, c, w, n)
  {
    assert t.nodes[c := m][c := n] == t.nodes[c := n];
  }

  lemma {:induction false} ReadKinds(s: Sys, t: Sys, c: ClientId, p: PullFeed.Pull, kinds: seq<Kind>)
    returns (u: Sys, q: PullFeed.Pull)
    requires Fetching(s, t, c, p) && PullFeed.DistinctSequences(t.world.server.rows) && p.feeds.Keys == PullFeed.Kinds()
    ensures Fetching(s, u, c, q) && q == p.(feeds := q.feeds) && q.feeds.Keys == PullFeed.Kinds()
    ensures forall kind :: kind in p.feeds ==> (kind in kinds || !p.feeds[kind].more) ==> !q.feeds[kind].more
    ensures u == Moved(t, c, t.world, t.nodes[c].(phase := Pulling(q)))
    decreases |kinds|
  {
    hide Leads, PullFeed.KindPage, PullFeed.DistinctSequences, PullFeed.PullOk;
    u, q := t, p;
    if kinds == [] {
      assert t.nodes[c := t.nodes[c]] == t.nodes;
    } else {
      PullFeed.EveryKind(kinds[0]);
      UncappedIsDone(p, kinds[0], t.world.server.rows);
      var mid, one := ReadKind(s, t, c, p, kinds[0]);
      u, q := ReadKinds(s, mid, c, one, kinds[1..]);
      MovedTwice(t, c, t.world, mid.nodes[c], u.nodes[c]);
    }
  }

  /** With nothing queued, one pull reaches the server's counter. */
  lemma CaughtUp(s: Sys, t: Sys, c: ClientId) returns (u: Sys)
    requires At(s, t, c) && t.nodes[c].db.outbox == map[]
    ensures At(s, u, c) && u.nodes[c].db.outbox == map[] && u.nodes[c].db.watermark == u.world.server.last
    ensures u.world == t.world
  {
    hide Inv, Leads, ClientStep, CanApplyPull, PullFeed.Finished, PulledItems, ApplyAllPulled, Stored, PullFeed.PullOk;
    PullAllowed(t, c);
    LeadsHere(t);
    var mid, p := Fetched(t, t, c);
    LeadsKeeps(t, mid);
    LeadsTwice(s, t, mid);
    var n := mid.nodes[c];
    assert CanApplyPull(n) by { FinishedApplies(n); }
    ApplyStep(t.world, n, c);
    OwnStep(s, mid, c, DoApplyPull(c), t.world, ApplyPull(n));
    u := Moved(mid, c, t.world, ApplyPull(n));
    SyncPulling.NothingQueued(n.db, Copies(PulledItems(p)));
  }

  lemma FinishedApplies(n: Node)
    requires n.phase.Pulling? && PullFeed.Finished(n.phase.pull)
    ensures CanApplyPull(n)
  {
    hide PullFeed.Finished;
  }

  lemma PullAllowed(t: Sys, c: ClientId)
    requires Inv(t) && c in t.nodes && t.nodes[c].phase.Idle?
    ensures CanPull(t.world, t.nodes[c]) && Stamped(t.world.server)
  {
    hide WorldOk, NodeOk, ServerHistory.CodesUnique, ServerHistory.ArchiveWithin;
    StampsAndCodes(t.world);
    NodeParts(t.world, c, t.nodes[c]);
  }

  // ----- Emptying the outbox -----

  lemma HandledStaysClear(s: Server, t: Server, o: Outbox, q: Outbox, id: ChangeId)
    requires Clear(s, o) && EntryHandled(o, q, id) && OtherReceipts(s, t, id)
    ensures Clear(t, q)
  {
    forall i | i in q && q[i].op.Delete? && !IsConflict(q[i]) ensures Sendable(q[i]) && !WasRefused(t, i) {
      assert i != id;
      assert Lookup(t.receipts, i) == Lookup(s.receipts, i);
    }
  }

  lemma HandledIsSmaller(o: Outbox, q: Outbox, id: ChangeId)
    requires EntryHandled(o, q, id) && id in o
    ensures id !in q ==> |q| < |o|
    ensures |q - {id}| < |o|
  {
    assert q.Keys - {id} <= o.Keys - {id};
    FiniteSets.Fewer(q.Keys - {id}, o.Keys - {id});
    assert (q - {id}).Keys == q.Keys - {id};
    assert |q - {id}| == |(q - {id}).Keys| && |o| == |o.Keys| && |q| == |q.Keys|;
    assert id !in q ==> q.Keys - {id} == q.Keys;
  }

  lemma WithoutStaysClear(s: Server, o: Outbox, id: ChangeId)
    requires Clear(s, o)
    ensures Clear(s, o - {id})
  {
    hide WasRefused;
  }

  /** A sendable entry leaves the outbox, through a conflict if need be. */
  lemma Cleared(s: Sys, t: Sys, c: ClientId, id: ChangeId) returns (u: Sys)
    requires At(s, t, c) && Clear(t.world.server, t.nodes[c].db.outbox) && id in t.nodes[c].db.outbox
    requires Answerable(t.world.server, id, t.nodes[c].db.outbox[id])
    ensures At(s, u, c) && Clear(u.world.server, u.nodes[c].db.outbox)
    ensures |u.nodes[c].db.outbox| < |t.nodes[c].db.outbox|
  {
    hide Inv, Leads, Clear, OtherReceipts, WasRefused, CarriesNewCode, PushedOnce, Met;
    var o := t.nodes[c].db.outbox;
    var r;
    u, r := RoundTrip(s, t, c, id);
    var q := u.nodes[c].db.outbox;
    HandledStaysClear(t.world.server, u.world.server, o, q, id);
    HandledIsSmaller(o, q, id);
    if id in q {
      var mid := u;
      u := Resolved(s, mid, c, id);
      WithoutStaysClear(mid.world.server, q, id);
    }
  }

  lemma ResavedStaysClear(s: Server, o: Outbox, q: Outbox, id: ChangeId, newId: ChangeId)
    requires Clear(s, o) && q.Keys == o.Keys - {id} + {newId} && forall i :: i in o && i != id ==> i in q && q[i] == o[i]
    requires newId in q && Answerable(s, newId, q[newId]) && id in o && newId !in o
    ensures Clear(s, q) && |q| == |o|
  {
    hide WasRefused;
    assert q.Keys - {newId} == o.Keys - {id};
    assert |q.Keys| == |q.Keys - {newId}| + 1 && |o.Keys| == |o.Keys - {id}| + 1;
  }

  lemma {:induction false} Drained(s: Sys, t: Sys, c: ClientId) returns (u: Sys)
    requires At(s, t, c) && Clear(t.world.server, t.nodes[c].db.outbox)
    ensures At(s, u, c) && u.nodes[c].db.outbox == map[]
    decreases |t.nodes[c].db.outbox|
  {
    hide Inv, Leads, WasRefused, CarriesNewCode;
    var o := t.nodes[c].db.outbox;
    if o == map[] {
      u := t;
    } else {
      var id :| id in o;
      if IsConflict(o[id]) {
        var mid := Resolved(s, t, c, id);
        WithoutStaysClear(t.world.server, o, id);
        HandledIsSmaller(o, o, id) by { SelfHandled(o, id); }
        u := Drained(s, mid, c);
      } else if Answerable(t.world.server, id, o[id]) {
        var mid := Cleared(s, t, c, id);
        u := Drained(s, mid, c);
      } else {
        assert o[id].op.Upsert?;
        var saved, newId := SavedAgain(s, t, c, id);
        ResavedStaysClear(t.world.server, o, saved.nodes[c].db.outbox, id, newId);
        var mid := Cleared(s, saved, c, newId);
        u := Drained(s, mid, c);
      }
    }
  }

  lemma SelfHandled(o: Outbox, id: ChangeId)
    requires id in o && IsConflict(o[id])
    ensures EntryHandled(o, o, id)
  {
  }

  ghost predicate Converged(s: Sys, c: ClientId)
    requires c in s.nodes
  {
    s.nodes[c].db.outbox == map[] && s.nodes[c].db.watermark == s.world.server.last
  }

  /** Whatever happened so far, a client without a stuck delete has a continuation after which nothing
    * is queued and its watermark is the counter, so that both sides hold the same live rows. */
  lemma CanConverge(s: Sys, c: ClientId) returns (t: Sys)
    requires Reachable(s) && c in s.nodes && NoneStuck(s, c)
    ensures Leads(s, t) && Reachable(t) && c in t.nodes && Converged(t, c)
    ensures forall k :: Live(t.nodes[c].db, k) <==> k in t.world.server.rows && !t.world.server.rows[k].copy.deleted
  {
    ReachableInv(s);
    hide Inv, Leads, Clear, Reachable, NoneStuck;
    var ready := Ready(s, c);
    var drained := Drained(s, ready, c);
    t := CaughtUp(s, drained, c);
    LeadsReaches(s, t);
    Convergence(t, c);
  }
}
