/** A run in which a conflict resolved during a pull loses a row for good. */
module SyncStaleConflict {
  import opened Protocol
  import opened PushRules
  import opened LocalDb
  import opened SyncModel
  import opened SyncInvariant
  import opened SyncExample
  import SyncProgress
  import SyncPulling
  import SyncTheorems
  import PullFeed

  const EDIT := Change(6, RISK, Upsert, Some(1), CONTENT)
  const SECOND := Copy(2, false, None, map[])
  const THIRD := Copy(3, false, None, map[])
  const CONFLICT := Result(6, RISK, Conflict, false, Some(2), None, Some(SECOND))

  // ----- The states -----

  ghost function Edited(status: Status, attempted: bool, watermark: nat): Db {
    Db(map[RISK := Local(STORED, true)], map[6 := Entry(RISK, Upsert, Some(1), CONTENT, status, attempted)], watermark)
  }

  /** The project after one, two and three versions; the conflict is answered at the second. */
  ghost function Second(): Server {
    WriteRow(Written(), RISK, SECOND, Rest)
  }

  ghost function Conflicted(): Server {
    Second().(receipts := Written().receipts[6 := Receipt(0, Some(EDIT), CONFLICT)])
  }

  ghost function Third(): Server {
    WriteRow(Conflicted(), RISK, THIRD, Rest)
  }

  ghost function At(s: Server, n: Node): Sys {
    Sys(World(s, map[RISK := Device(0)], map[5 := 0, 6 := 0]), map[0 := n])
  }

  const KNOWN := {KeyCopy(RISK, STORED)}

  ghost function Mine(db: Db, phase: Phase, sent: bool): Node {
    Node(db, phase, if sent then {SENT, EDIT} else {SENT}, KNOWN)
  }

  // ----- The steps -----

  lemma Editing()
    ensures Next(Settled(), At(Written(), Mine(Edited(Pending, false, 0), Idle, false)), DoSave(0, RISK, CONTENT, None, 6))
  {
    hide Written;
    var n := Node(Synced(), Idle, {SENT}, KNOWN);
    assert !HasOpen(n.db.outbox, RISK);
    assert SaveRow(n.db, RISK, CONTENT, None, 6) == Edited(Pending, false, 0);
    assert CanSave(Settled().world, 0, n, RISK, CONTENT, None, 6);
  }

  lemma Updating(s: Server, version: nat, n: Node)
    requires RISK in s.rows && s.rows[RISK].copy == Copy(version, false, None, map[]) && version >= 1
    ensures Next(At(s, n), At(WriteRow(s, RISK, Copy(version + 1, false, None, map[]), Rest), n),
                 DoRest(RestUpdate(RISK, version, CONTENT)))
  {
    assert map[] + CONTENT.fields == map[];
  }

  lemma Sending6(s: Server, attempted: bool, watermark: nat)
    ensures Next(At(s, Mine(Edited(Pending, attempted, watermark), Idle, attempted)),
                 At(s, Mine(Edited(Pending, true, watermark), Pushing([EDIT], {}), true)), DoSend(0, [6]))
  {
    hide Send, CanSend, Edited;
    Leaving6(attempted, watermark);
    var n := Mine(Edited(Pending, attempted, watermark), Idle, attempted);
    var after := Mine(Edited(Pending, true, watermark), Pushing([EDIT], {}), true);
    assert map[0 := n][0 := after] == map[0 := after];
  }

  lemma Leaving6(attempted: bool, watermark: nat)
    ensures var n := Mine(Edited(Pending, attempted, watermark), Idle, attempted);
      CanSend(n, [6]) && Send(n, [6]) == Mine(Edited(Pending, true, watermark), Pushing([EDIT], {}), true)
  {
    var n := Mine(Edited(Pending, attempted, watermark), Idle, attempted);
    assert Batch(n.db.outbox, [6]) == [EDIT];
    assert (set id | id in [6]) == {6} && (set ch | ch in [EDIT]) == {EDIT};
    assert MarkAttempted(n.db.outbox, {6}) == Edited(Pending, true, watermark).outbox;
    assert n.sent + {EDIT} == {SENT, EDIT};
  }

  lemma Heard(s: Server, t: Server, r: Result, watermark: nat)
    requires Push(s, 0, Member, [EDIT], [Fine]).server == t && Push(s, 0, Member, [EDIT], [Fine]).results == [r]
    ensures Next(At(s, Mine(Edited(Pending, true, watermark), Pushing([EDIT], {}), true)),
                 At(t, Mine(Edited(Pending, true, watermark), Pushing([EDIT], {[r]}), true)), DoProcess(0, Member, [EDIT], [Fine]))
  {
    hide Push;
    var n := Mine(Edited(Pending, true, watermark), Pushing([EDIT], {}), true);
    var after := n.(phase := Pushing([EDIT], {[r]}));
    assert {} + {[r]} == {[r]};
    assert map[0 := n][0 := after] == map[0 := after];
    assert CanProcess(n, [EDIT], [Fine]);
    assert Process(At(s, n), 0, Member, [EDIT], [Fine]) == At(t, after);
  }

  lemma FirstAnswer()
    ensures var p := Push(Second(), 0, Member, [EDIT], [Fine]); p.server == Conflicted() && p.results == [CONFLICT]
  {
    var d := DecideAndStore(Second(), 0, Member, EDIT, Fine);
    assert d.server == Conflicted() && d.result == CONFLICT;
    assert PushFirst(Second(), 0, Member, [EDIT], [Fine], 0) == Begin(Second());
  }

  const REPLAY := CONFLICT.(replayed := true)

  /** The stored answer is replayed as it was, although the row has moved on. */
  lemma SecondAnswer()
    ensures var p := Push(Third(), 0, Member, [EDIT], [Fine]); p.server == Third() && p.results == [REPLAY]
  {
    assert PushFirst(Third(), 0, Member, [EDIT], [Fine], 0) == Begin(Third());
  }

  lemma Stop0(s: Server, n: Node)
    ensures Next(At(s, n), At(s, Stop(n)), DoStop(0))
  {
    assert map[0 := n][0 := Stop(n)] == map[0 := Stop(n)];
  }

  // ----- The pull that passes the pending change -----

  lemma {:induction false} PendingSkips(db: Db, items: seq<KeyCopy>)
    requires forall it :: it in items ==> HasOpen(db.outbox, it.key)
    requires forall id :: id in db.outbox ==> !IsConflict(db.outbox[id])
    ensures ApplyAllPulled(db, items) == db
  {
    if items != [] {
      var n := |items| - 1;
      PendingSkips(db, items[..n]);
      assert Remember(db.outbox, items[n].key, items[n].copy) == db.outbox;
    }
  }

  lemma ThirdFacts()
    ensures PullFeed.DistinctSequences(Third().rows) && Third().last == 3
    ensures Third().rows == map[RISK := Row(THIRD, 3)] && Conflicted().rows == map[RISK := Row(SECOND, 2)]
  {
  }

  lemma Skipping(p: PullFeed.Pull)
    requires PullFeed.Finished(p) && p.snapshot == 3
    requires forall it :: it in Copies(PulledItems(p)) ==> it.key == RISK
    ensures Next(At(Third(), Mine(Edited(Pending, true, 0), Pulling(p), true)),
                 At(Third(), Mine(Edited(Pending, true, 3), Idle, true)), DoApplyPull(0))
  {
    hide Third, PulledItems, ApplyAllPulled, PullFeed.Finished;
    var n, after := Mine(Edited(Pending, true, 0), Pulling(p), true), Mine(Edited(Pending, true, 3), Idle, true);
    var items := Copies(PulledItems(p));
    assert n.db.outbox[6].key == RISK;
    PendingSkips(n.db, items);
    assert !Stored(n.db.outbox, RISK);
    assert (set it | it in items && Stored(n.db.outbox, it.key)) == {};
    assert ApplyPull(n) == after;
    assert map[0 := n][0 := after] == map[0 := after];
  }

  /** From an idle reachable state a pull is fetched, nothing else moves. */
  lemma FetchReaches(n: Node) returns (p: PullFeed.Pull)
    requires SyncTheorems.Reachable(At(Third(), n)) && n.phase.Idle?
    ensures SyncTheorems.Reachable(At(Third(), n.(phase := Pulling(p)))) && PullFeed.Finished(p)
    ensures p.since == n.db.watermark && p.snapshot == Third().last && p.at == Third().rows
  {
    hide Third, SyncTheorems.Reachable, SyncProgress.Leads, PullFeed.Finished, SyncProgress.Stamped, CanPull,
         PullFeed.PullOk, Steps;
    var s, t := At(Third(), n), At(Third(), n);
    SyncProgress.LeadsHere(s);
    MayPull(s, n);
    t, p := SyncProgress.Fetched(s, s, 0);
    SyncProgress.LeadsReaches(s, t);
    var m := n.(phase := Pulling(p));
    assert map[0 := n][0 := m] == map[0 := m];
  }

  lemma MayPull(s: Sys, n: Node)
    requires SyncTheorems.Reachable(s) && s.nodes == map[0 := n] && n.phase.Idle?
    ensures CanPull(s.world, n) && SyncProgress.Stamped(s.world.server)
  {
    hide Inv, SyncTheorems.Reachable;
    SyncTheorems.ReachableInv(s);
    SyncProgress.PullAllowed(s, 0);
  }

  lemma PulledPast()
    requires SyncTheorems.Reachable(At(Third(), Mine(Edited(Pending, true, 0), Idle, true)))
    ensures SyncTheorems.Reachable(At(Third(), Mine(Edited(Pending, true, 3), Idle, true)))
  {
    ThirdFacts();
    hide Third, Next, SyncTheorems.Reachable, PullFeed.DistinctSequences, PulledItems, PullFeed.Finished;
    var p := FetchReaches(Mine(Edited(Pending, true, 0), Idle, true));
    var n := Mine(Edited(Pending, true, 0), Pulling(p), true);
    ItemsAreRows(At(Third(), n), n);
    Skipping(p);
    SyncTheorems.StepReaches(At(Third(), n), At(Third(), Mine(Edited(Pending, true, 3), Idle, true)), DoApplyPull(0));
  }

  lemma ItemsAreRows(s: Sys, n: Node)
    requires SyncTheorems.Reachable(s) && s.nodes == map[0 := n] && n.phase.Pulling? && PullFeed.Finished(n.phase.pull)
    requires s.world.server.rows.Keys == {RISK} && n.phase.pull.at == s.world.server.rows
    ensures forall it :: it in Copies(PulledItems(n.phase.pull)) ==> it.key == RISK
  {
    hide SyncTheorems.Reachable, WorldOk, NodeOk, PullingOk, PullFeed.Finished, PulledItems, SyncPulling.Delivers;
    SyncTheorems.ReachableInv(s);
    assert 0 in s.nodes && s.nodes[0] == n;
    SyncTheorems.PullPhase(s.world, 0, n);
    SyncPulling.FinishedDelivers(s.world.server, n.db.watermark, n.phase.pull);
    DeliveredAreRows(s.world.server, n.db.watermark, n.phase.pull.at, n.phase.pull.snapshot, Copies(PulledItems(n.phase.pull)));
  }

  lemma DeliveredAreRows(s: Server, watermark: nat, at: map<Key, Row>, snapshot: nat, items: seq<KeyCopy>)
    requires SyncPulling.Delivers(s, watermark, at, snapshot, items)
    ensures forall it :: it in items ==> it.key in at
  {
  }

  // ----- The replayed conflict -----

  lemma Delivering6()
    ensures Next(At(Third(), Mine(Edited(Pending, true, 3), Pushing([EDIT], {[REPLAY]}), true)),
                 At(Third(), Mine(Edited(Pending, true, 3), Settling([Answer(EDIT, REPLAY)]), true)), DoDeliver(0, [REPLAY]))
  {
    hide Third, AcknowledgeAll, WithState, Unsettled, Answers, Edited;
    Replaying();
    NothingToApply(Edited(Pending, true, 3));
    var n := Mine(Edited(Pending, true, 3), Pushing([EDIT], {[REPLAY]}), true);
    var after := Mine(Edited(Pending, true, 3), Settling([Answer(EDIT, REPLAY)]), true);
    assert Deliver(n, [REPLAY]) == after;
    assert map[0 := n][0 := after] == map[0 := after];
  }

  lemma Replaying()
    ensures WithState([REPLAY]) == [] && Unsettled(Answers([EDIT], [REPLAY])) == [Answer(EDIT, REPLAY)]
  {
    assert [REPLAY][..0] == [];
    assert Answers([EDIT], [REPLAY]) == [Answer(EDIT, REPLAY)];
    assert [Answer(EDIT, REPLAY)][..0] == [];
  }

  lemma NothingToApply(db: Db)
    ensures AcknowledgeAll(db, []) == Some(db)
  {
    assert ReleaseCodes(db.local, []) == db.local;
  }

  ghost function Blocked6(phase: Phase): Node {
    Node(Edited(Status.Blocked(Conflicting, Some(SECOND)), true, 3), phase, {SENT, EDIT}, KNOWN + {KeyCopy(RISK, SECOND)})
  }

  lemma Settling6()
    ensures Next(At(Third(), Mine(Edited(Pending, true, 3), Settling([Answer(EDIT, REPLAY)]), true)),
                 At(Third(), Blocked6(Settling([]))), DoSettle(0, 0))
  {
    hide Third;
    var n := Mine(Edited(Pending, true, 3), Settling([Answer(EDIT, REPLAY)]), true);
    assert [Answer(EDIT, REPLAY)][..0] + [Answer(EDIT, REPLAY)][1..] == [];
    assert Settle(n, 0) == Blocked6(Settling([]));
    assert map[0 := n][0 := Blocked6(Settling([]))] == map[0 := Blocked6(Settling([]))];
  }

  /** Nothing lies between the watermark and the counter. */
  lemma NothingPulled(s: Sys, n: Node)
    requires SyncTheorems.Reachable(s) && s.nodes == map[0 := n] && n.phase.Pulling?
    requires n.phase.pull.since == n.phase.pull.snapshot
    ensures PulledItems(n.phase.pull) == []
  {
    hide SyncTheorems.Reachable, WorldOk, NodeOk, PullFeed.FeedComplete, PullFeed.Later, PullFeed.Ordered, InArchive;
    SyncTheorems.ReachableInv(s);
    assert 0 in s.nodes && s.nodes[0] == n;
    SyncTheorems.PullPhase(s.world, 0, n);
    var p := n.phase.pull;
    forall kind | kind in p.feeds ensures p.feeds[kind].items == [] {
      assert PullFeed.FeedSound(p, kind);
      HasMember(p.feeds[kind].items);
    }
  }

  lemma HasMember(items: seq<PullFeed.Item>)
    ensures items == [] || exists it :: it in items
  {
    if items != [] {
      assert items[0] in items;
    }
  }

  // ----- The run -----

  lemma ConflictHeard()
    ensures SyncTheorems.Reachable(At(Third(), Mine(Edited(Pending, true, 0), Idle, true)))
  {
    FirstPush();
    Editing();
    ThirdFacts();
    WrittenFacts();
    assert Written().rows[RISK].copy == STORED;
    assert Conflicted().rows[RISK].copy == SECOND;
    hide Written, Next, SyncTheorems.Reachable;
    var s1 := At(Written(), Mine(Edited(Pending, false, 0), Idle, false));
    SyncTheorems.StepReaches(Settled(), s1, DoSave(0, RISK, CONTENT, None, 6));
    Updating(Written(), 1, Mine(Edited(Pending, false, 0), Idle, false));
    var s2 := At(Second(), Mine(Edited(Pending, false, 0), Idle, false));
    SyncTheorems.StepReaches(s1, s2, DoRest(RestUpdate(RISK, 1, CONTENT)));
    Sending6(Second(), false, 0);
    var s3 := At(Second(), Mine(Edited(Pending, true, 0), Pushing([EDIT], {}), true));
    SyncTheorems.StepReaches(s2, s3, DoSend(0, [6]));
    FirstAnswer();
    hide Push;
    Heard(Second(), Conflicted(), CONFLICT, 0);
    var s4 := At(Conflicted(), Mine(Edited(Pending, true, 0), Pushing([EDIT], {[CONFLICT]}), true));
    SyncTheorems.StepReaches(s3, s4, DoProcess(0, Member, [EDIT], [Fine]));
    Stop0(Conflicted(), Mine(Edited(Pending, true, 0), Pushing([EDIT], {[CONFLICT]}), true));
    var s5 := At(Conflicted(), Mine(Edited(Pending, true, 0), Idle, true));
    SyncTheorems.StepReaches(s4, s5, DoStop(0));
    Updating(Conflicted(), 2, Mine(Edited(Pending, true, 0), Idle, true));
    SyncTheorems.StepReaches(s5, At(Third(), Mine(Edited(Pending, true, 0), Idle, true)), DoRest(RestUpdate(RISK, 2, CONTENT)));
  }

  lemma ConflictReplayed() returns (p: PullFeed.Pull)
    ensures SyncTheorems.Reachable(At(Third(), Blocked6(Pulling(p))))
    ensures PullFeed.Finished(p) && p.snapshot == 3 && PulledItems(p) == []
  {
    ConflictHeard();
    hide Third, Next, SyncTheorems.Reachable, PulledItems, PullFeed.Finished;
    PulledPast();
    var s7 := At(Third(), Mine(Edited(Pending, true, 3), Idle, true));
    Sending6(Third(), true, 3);
    var s8 := At(Third(), Mine(Edited(Pending, true, 3), Pushing([EDIT], {}), true));
    SyncTheorems.StepReaches(s7, s8, DoSend(0, [6]));
    SecondAnswer();
    hide Push;
    Heard(Third(), Third(), REPLAY, 3);
    var s9 := At(Third(), Mine(Edited(Pending, true, 3), Pushing([EDIT], {[REPLAY]}), true));
    SyncTheorems.StepReaches(s8, s9, DoProcess(0, Member, [EDIT], [Fine]));
    Delivering6();
    var s10 := At(Third(), Mine(Edited(Pending, true, 3), Settling([Answer(EDIT, REPLAY)]), true));
    SyncTheorems.StepReaches(s9, s10, DoDeliver(0, [REPLAY]));
    Settling6();
    SyncTheorems.StepReaches(s10, At(Third(), Blocked6(Settling([]))), DoSettle(0, 0));
    Stop0(Third(), Blocked6(Settling([])));
    SyncTheorems.StepReaches(At(Third(), Blocked6(Settling([]))), At(Third(), Blocked6(Idle)), DoStop(0));
    p := FetchReaches(Blocked6(Idle));
    assert p.snapshot == 3 by { ThirdFacts(); }
    NothingPulled(At(Third(), Blocked6(Pulling(p))), Blocked6(Pulling(p)));
  }

  ghost predicate LosesRow(rows: map<Key, Row>, n: Node, resolved: Node) {
    && CoverageOk(rows, n.db) && CanApplyPull(n) && CoverageOk(rows, ApplyPull(n).db)
    && CoverageOk(rows, resolved.db) && CanApplyPull(resolved) && !CoverageOk(rows, ApplyPull(resolved).db)
  }

  lemma Taking()
    ensures UseServer(Edited(Status.Blocked(Conflicting, Some(SECOND)), true, 3), 6)
         == Some(Db(map[RISK := Local(SECOND, false)], map[], 0))
  {
    var db := Edited(Status.Blocked(Conflicting, Some(SECOND)), true, 3);
    assert db.outbox - {6} == map[];
    assert PutCopy(db.local, RISK, SECOND) == map[RISK := Local(SECOND, false)];
  }

  lemma Losing(rows: map<Key, Row>, p: PullFeed.Pull)
    requires rows == map[RISK := Row(THIRD, 3)] && PullFeed.Finished(p) && p.snapshot == 3 && PulledItems(p) == []
    ensures var n := Blocked6(Pulling(p)); LosesRow(rows, n, n.(db := Db(map[RISK := Local(SECOND, false)], map[], 0)))
  {
    hide PulledItems, PullFeed.Finished;
    var n := Blocked6(Pulling(p));
    var resolved := n.(db := Db(map[RISK := Local(SECOND, false)], map[], 0));
    assert n.db.outbox[6].key == RISK && Copies([]) == [];
    assert ApplyPull(resolved).db == resolved.db.(watermark := 3) && ApplyPull(n).db == n.db;
    assert !Covered(rows, ApplyPull(resolved).db, RISK);
  }

  /** A reachable state in which a pull is fetched and a replayed conflict is open: "use server" keeps
    * the client covered, but applying the fetched pull then leaves the newest version uncovered. */
  lemma ResolvingDuringPullLosesRows() returns (s: Sys, id: ChangeId)
    ensures SyncTheorems.Reachable(s) && 0 in s.nodes
    ensures OpenConflict(s.nodes[0].db, id) && UseServer(s.nodes[0].db, id).Some?
    ensures LosesRow(s.world.server.rows, s.nodes[0], s.nodes[0].(db := UseServer(s.nodes[0].db, id).value))
  {
    var p := ConflictReplayed();
    ThirdFacts();
    hide Third, SyncTheorems.Reachable, LosesRow, UseServer, PulledItems, PullFeed.Finished;
    s, id := At(Third(), Blocked6(Pulling(p))), 6;
    Taking();
    Losing(Third().rows, p);
  }
}
