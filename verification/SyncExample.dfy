/** A whole first synchronization: the premises of the theorems are met by a real run. */
module SyncExample {
  import opened Protocol
  import opened PushRules
  import opened LocalDb
  import opened SyncModel
  import opened SyncInvariant
  import SyncProgress
  import SyncTheorems

  const RISK := Key(Risk, 1)
  const CONTENT := Record(Absent, None, map[])
  const SENT := Change(5, RISK, Upsert, None, CONTENT)
  const STORED := Copy(1, false, None, map[])
  const REPLY := Result(5, RISK, Accepted, false, Some(1), None, Some(STORED))

  const START := Sys(World(FreshProject, map[], map[]), map[0 := NewNode])

  ghost function Queued(attempted: bool): Db {
    Db(map[RISK := Local(Copy(0, false, None, map[]), true)],
       map[5 := Entry(RISK, Upsert, None, CONTENT, Pending, attempted)], 0)
  }

  ghost function Claimed(s: Server): World {
    World(s, map[RISK := Device(0)], map[5 := 0])
  }

  ghost function After(s: Server, n: Node): Sys {
    Sys(Claimed(s), map[0 := n])
  }

  ghost function Written(): Server {
    Server(map[RISK := Row(STORED, 1)], 1, map[5 := Receipt(0, Some(SENT), REPLY)], [5],
           map[VersionOf(RISK, 1) := Archived(STORED, Device(0))])
  }

  lemma Saving()
    ensures Next(START, After(FreshProject, Node(Queued(false), Idle, {}, {})), DoSave(0, RISK, CONTENT, None, 5))
  {
    var n := NewNode;
    assert !HasOpen(n.db.outbox, RISK);
    assert SaveRow(n.db, RISK, CONTENT, None, 5) == Queued(false);
  }

  lemma Leaving()
    ensures var n := Node(Queued(false), Idle, {}, {});
      CanSend(n, [5]) && Send(n, [5]) == Node(Queued(true), Pushing([SENT], {}), {SENT}, {})
  {
    var n := Node(Queued(false), Idle, {}, {});
    assert Batch(n.db.outbox, [5]) == [SENT];
    assert (set id | id in [5]) == {5} && (set ch | ch in [SENT]) == {SENT};
    assert MarkAttempted(n.db.outbox, {5}) == Queued(true).outbox;
  }

  lemma Sending()
    ensures Next(After(FreshProject, Node(Queued(false), Idle, {}, {})),
                 After(FreshProject, Node(Queued(true), Pushing([SENT], {}), {SENT}, {})), DoSend(0, [5]))
  {
    hide Send, CanSend, Queued;
    Leaving();
  }

  lemma Pushed()
    ensures Push(FreshProject, 0, Member, [SENT], [Fine]) ==
      PushState(Written(), map[], map[5 := Handled(SENT, REPLY)], [REPLY])
  {
    var d := DecideAndStore(FreshProject, 0, Member, SENT, Fine);
    assert d.server == Written() && d.result == REPLY;
    assert PushFirst(FreshProject, 0, Member, [SENT], [Fine], 0) == Begin(FreshProject);
  }

  lemma Processing()
    ensures Next(After(FreshProject, Node(Queued(true), Pushing([SENT], {}), {SENT}, {})),
                 After(Written(), Node(Queued(true), Pushing([SENT], {[REPLY]}), {SENT}, {})),
                 DoProcess(0, Member, [SENT], [Fine]))
  {
    hide Push, Queued, Written;
    Pushed();
    var n := Node(Queued(true), Pushing([SENT], {}), {SENT}, {});
    var s := After(FreshProject, n);
    assert CanProcess(n, [SENT], [Fine]);
    var heard := n.(phase := Pushing([SENT], {[REPLY]}));
    assert {} + {[REPLY]} == {[REPLY]};
    assert s.nodes[0 := heard] == map[0 := heard];
    assert Process(s, 0, Member, [SENT], [Fine]) == After(Written(), heard);
  }

  ghost function Synced(): Db {
    Db(map[RISK := Local(STORED, false)], map[], 0)
  }

  lemma Acknowledging()
    ensures AcknowledgeAll(Queued(true), [REPLY]) == Some(Synced())
  {
    var db := Queued(true);
    var released := db.(local := ReleaseCodes(db.local, [REPLY]));
    assert released.local == db.local;
    assert AcknowledgeFirst(db, [REPLY], 0) == Some(released);
    assert released.outbox - {5} == map[];
    assert PutCopy(released.local, RISK, STORED) == Synced().local;
    assert AcknowledgeSent(released, REPLY) == Some(Synced());
  }

  lemma Answering()
    ensures WithState([REPLY]) == [REPLY] && Unsettled(Answers([SENT], [REPLY])) == []
  {
    assert [REPLY][..0] == [];
    assert Answers([SENT], [REPLY]) == [Answer(SENT, REPLY)];
    assert [Answer(SENT, REPLY)][..0] == [];
  }

  lemma Delivering()
    ensures Next(After(Written(), Node(Queued(true), Pushing([SENT], {[REPLY]}), {SENT}, {})),
                 After(Written(), Node(Synced(), Settling([]), {SENT}, {KeyCopy(RISK, STORED)})), DoDeliver(0, [REPLY]))
  {
    Acknowledging();
    Answering();
    hide AcknowledgeAll, WithState, Unsettled, Written;
    var n := Node(Queued(true), Pushing([SENT], {[REPLY]}), {SENT}, {});
    var after := Node(Synced(), Settling([]), {SENT}, {KeyCopy(RISK, STORED)});
    assert Deliver(n, [REPLY]) == after;
    assert map[0 := n][0 := after] == map[0 := after];
  }

  ghost function Settled(): Sys {
    After(Written(), Node(Synced(), Idle, {SENT}, {KeyCopy(RISK, STORED)}))
  }

  lemma StartReached()
    ensures SyncTheorems.Reachable(START)
  {
    var trace := [START];
    assert Init(START);
    assert Run(trace) && START == trace[|trace| - 1];
  }

  /** Create, push and acknowledge. */
  lemma FirstPush()
    ensures SyncTheorems.Reachable(Settled())
  {
    hide Next, Steps, Written;
    StartReached();
    Saving();
    var saved := After(FreshProject, Node(Queued(false), Idle, {}, {}));
    SyncTheorems.StepReaches(START, saved, DoSave(0, RISK, CONTENT, None, 5));
    Sending();
    var pushing := After(FreshProject, Node(Queued(true), Pushing([SENT], {}), {SENT}, {}));
    SyncTheorems.StepReaches(saved, pushing, DoSend(0, [5]));
    Processing();
    var heard := After(Written(), Node(Queued(true), Pushing([SENT], {[REPLY]}), {SENT}, {}));
    SyncTheorems.StepReaches(pushing, heard, DoProcess(0, Member, [SENT], [Fine]));
    Delivering();
    var settling := After(Written(), Node(Synced(), Settling([]), {SENT}, {KeyCopy(RISK, STORED)}));
    SyncTheorems.StepReaches(heard, settling, DoDeliver(0, [REPLY]));
    Stopping(Synced());
    SyncTheorems.StepReaches(settling, Settled(), DoStop(0));
  }

  /** A reachable state in which a row created on a client is on the server and both sides agree. */
  lemma FirstSync() returns (s: Sys)
    ensures SyncTheorems.Reachable(s) && 0 in s.nodes
    ensures s.nodes[0].db.outbox == map[] && s.nodes[0].db.watermark == s.world.server.last == 1
    ensures RISK in s.world.server.rows && Live(s.nodes[0].db, RISK)
  {
    hide Next, Steps, Written, SyncTheorems.Reachable, Inv, SyncProgress.Leads;
    FirstPush();
    SyncTheorems.ReachableInv(Settled());
    SyncProgress.LeadsHere(Settled());
    s := SyncProgress.CaughtUp(Settled(), Settled(), 0);
    SyncProgress.LeadsReaches(Settled(), s);
    WrittenFacts();
    SyncTheorems.Convergence(s, 0);
  }

  lemma Stopping(db: Db)
    ensures Next(After(Written(), Node(db, Settling([]), {SENT}, {KeyCopy(RISK, STORED)})),
                 After(Written(), Node(db, Idle, {SENT}, {KeyCopy(RISK, STORED)})), DoStop(0))
  {
    hide Written;
  }

  lemma WrittenFacts()
    ensures Written().last == 1 && RISK in Written().rows && !Written().rows[RISK].copy.deleted
  {
  }
}
