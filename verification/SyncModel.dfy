/** The whole protocol as a step relation: one server, its REST writers and any clients. */
module SyncModel {
  import opened Protocol
  import opened PushRules
  import opened LocalDb
  import PullFeed

  /** `owner` says who minted a row's id and `minted` who minted a change id. */
  datatype World = World(server: Server, owner: map<Key, Writer>, minted: map<ChangeId, ClientId>)

  datatype Answer = Answer(change: Change, result: Result)

  /** Where a client's single sync run stands. Local edits may interleave with it. */
  datatype Phase =
    | Idle
    | Pushing(batch: seq<Change>, replies: set<seq<Result>>)
    | Settling(todo: seq<Answer>)
    | Pulling(pull: PullFeed.Pull)

  /** History: `sent` holds every change that ever left, `seen` every server copy ever stored. */
  datatype Node = Node(db: Db, phase: Phase, sent: set<Change>, seen: set<KeyCopy>)

  datatype Sys = Sys(world: World, nodes: map<ClientId, Node>)

  ghost predicate Owned(w: World, k: Key, c: ClientId) {
    k in w.owner && w.owner[k] == Device(c)
  }

  ghost predicate Wrote(s: Server, c: ClientId, k: Key, version: int) {
    version >= 1 && VersionOf(k, version) in s.archive && s.archive[VersionOf(k, version)].writer == Device(c)
  }

  /** The client wrote this version, or has stored the server's very copy of it. */
  ghost predicate Knows(s: Server, c: ClientId, seen: set<KeyCopy>, k: Key, version: int) {
    version >= 1 && VersionOf(k, version) in s.archive &&
    (s.archive[VersionOf(k, version)].writer == Device(c)
     || KeyCopy(k, s.archive[VersionOf(k, version)].copy) in seen)
  }

  function ChangeOf(id: ChangeId, e: Entry): Change {
    Change(id, e.key, e.op, e.base, e.record)
  }

  // ----- Steps of one client -----

  ghost predicate CodeFree(local: Locals, k: Key, code: Option<string>) {
    code.Some? ==> forall j :: j in local && j != k && j.kind == k.kind ==> local[j].copy.code != code
  }

  /** Edits act on live rows; new rows get fresh ids. The unique index rejects a held code. */
  ghost predicate CanSave(w: World, c: ClientId, n: Node, k: Key, r: Record, editorBase: Option<int>, id: ChangeId) {
    && id !in w.minted
    && (if k in n.db.local then Live(n.db, k) else k !in w.owner && !k.kind.Assessment?)
    && (!Scored(k.kind) ==> r.code.Absent?)
    && CodeFree(n.db.local, k, EditedCopy(n.db.local, k, r).code)
    && (editorBase.Some? ==> Knows(w.server, c, n.seen, k, editorBase.value))
  }

  ghost function Save(n: Node, k: Key, r: Record, editorBase: Option<int>, id: ChangeId): Node
  {
    n.(db := SaveRow(n.db, k, r, editorBase, id))
  }

  ghost predicate CanDelete(w: World, n: Node, k: Key, id: ChangeId) {
    id !in w.minted && Live(n.db, k) && (Scored(k.kind) || k.kind.Ticket?)
  }

  /** Selecting a batch and marking it attempted is one step. */
  ghost predicate CanSend(n: Node, ids: seq<ChangeId>) {
    && n.phase.Idle? && 0 < |ids| <= 100
    && (forall i, j :: 0 <= i < j < |ids| ==> ids[i] != ids[j])
    && (forall i :: 0 <= i < |ids| ==> ids[i] in n.db.outbox && Sendable(n.db.outbox[ids[i]]))
  }

  function Batch(outbox: Outbox, ids: seq<ChangeId>): (batch: seq<Change>)
    requires forall i :: 0 <= i < |ids| ==> ids[i] in outbox
    ensures |batch| == |ids|
    ensures forall i :: 0 <= i < |ids| ==> batch[i] == ChangeOf(ids[i], outbox[ids[i]])
  {
    seq(|ids|, i requires 0 <= i < |ids| => ChangeOf(ids[i], outbox[ids[i]]))
  }

  ghost function Send(n: Node, ids: seq<ChangeId>): Node
    requires CanSend(n, ids)
  {
    var batch := Batch(n.db.outbox, ids);
    Node(n.db.(outbox := MarkAttempted(n.db.outbox, set id | id in ids)),
         Pushing(batch, {}),
         n.sent + (set ch | ch in batch),
         n.seen)
  }

  ghost function Answers(batch: seq<Change>, reply: seq<Result>): (answers: seq<Answer>)
    requires |batch| == |reply|
    ensures |answers| == |batch|
    ensures forall i :: 0 <= i < |batch| ==> answers[i] == Answer(batch[i], reply[i])
  {
    seq(|batch|, i requires 0 <= i < |batch| => Answer(batch[i], reply[i]))
  }

  ghost function Unsettled(answers: seq<Answer>): (rest: seq<Answer>)
    ensures forall a :: a in rest <==> a in answers && !Acknowledges(a.result)
  {
    if answers == [] then []
    else
      var n := |answers| - 1;
      Unsettled(answers[..n]) + if Acknowledges(answers[n].result) then [] else [answers[n]]
  }

  ghost predicate CanDeliver(n: Node, reply: seq<Result>) {
    && n.phase.Pushing? && reply in n.phase.replies && |reply| == |n.phase.batch|
    && AcknowledgeAll(n.db, WithState(reply)).Some?
  }

  /** One transaction takes the accepted rows; the other results are settled one by one. */
  ghost function Deliver(n: Node, reply: seq<Result>): Node
    requires CanDeliver(n, reply)
  {
    Node(AcknowledgeAll(n.db, WithState(reply)).value,
         Settling(Unsettled(Answers(n.phase.batch, reply))),
         n.sent,
         n.seen + (set r | r in reply && Acknowledges(r) && r.record.Some? && r.id in n.db.outbox
                   :: KeyCopy(r.key, r.record.value)))
  }

  /** No usable response: every change of the batch fails with the request. */
  ghost function Lose(n: Node, kind: FailureKind): Node
    requires n.phase.Pushing? && !kind.Conflicting?
  {
    n.(phase := Settling(seq(|n.phase.batch|, i requires 0 <= i < |n.phase.batch| =>
      Answer(n.phase.batch[i], ErrorResult(n.phase.batch[i], kind, kind.Transient?)))))
  }

  ghost function SettledCopies(outbox: Outbox, a: Answer): set<KeyCopy> {
    if a.result.outcome.Conflict? && a.result.record.Some? && a.change.id in outbox
    then {KeyCopy(outbox[a.change.id].key, a.result.record.value)} else {}
  }

  ghost function Settle(n: Node, i: nat): Node
    requires n.phase.Settling? && i < |n.phase.todo|
  {
    var a := n.phase.todo[i];
    n.(db := n.db.(outbox := SettledOutbox(n.db.outbox, a.result)),
       phase := Settling(n.phase.todo[..i] + n.phase.todo[i + 1..]),
       seen := n.seen + SettledCopies(n.db.outbox, a))
  }

  ghost function Stop(n: Node): Node {
    n.(phase := Idle)
  }

  ghost predicate LimitOk(limit: Option<nat>) {
    limit.Some? ==> limit.value >= 1
  }

  ghost predicate CanPull(w: World, n: Node) {
    n.phase.Idle? && n.db.watermark <= w.server.last
  }

  /** The request's first query reads the counter. */
  ghost function StartPull(w: World, n: Node): Node {
    n.(phase := Pulling(PullFeed.Opened(w.server.rows, w.server.last, n.db.watermark)))
  }

  ghost predicate CanPullKind(w: World, n: Node, kind: Kind, limit: Option<nat>) {
    n.phase.Pulling? && kind in n.phase.pull.feeds && LimitOk(limit) && PullFeed.DistinctSequences(w.server.rows)
  }

  /** Each kind is read by a query of its own; any step may come between two queries. */
  ghost function PullKind(w: World, n: Node, kind: Kind, limit: Option<nat>): Node
    requires CanPullKind(w, n, kind, limit)
  {
    n.(phase := Pulling(PullFeed.KindPage(n.phase.pull, kind, w.server.rows, limit)))
  }

  ghost function Copies(items: seq<PullFeed.Item>): (copies: seq<KeyCopy>)
    ensures |copies| == |items|
    ensures forall i :: 0 <= i < |items| ==> copies[i] == KeyCopy(items[i].key, items[i].row.copy)
  {
    seq(|items|, i requires 0 <= i < |items| => KeyCopy(items[i].key, items[i].row.copy))
  }

  ghost function FeedItems(p: PullFeed.Pull, kind: Kind): seq<PullFeed.Item> {
    if kind in p.feeds then p.feeds[kind].items else []
  }

  /** Parents first, then their actions and assessments, then tickets. */
  ghost function PulledItems(p: PullFeed.Pull): seq<PullFeed.Item> {
    FeedItems(p, Risk) + FeedItems(p, Opportunity) + FeedItems(p, Action)
    + FeedItems(p, Assessment) + FeedItems(p, Ticket)
  }

  ghost predicate Stored(outbox: Outbox, k: Key) {
    forall id :: id in outbox && outbox[id].key == k ==> IsConflict(outbox[id])
  }

  ghost predicate CanApplyPull(n: Node) {
    n.phase.Pulling? && PullFeed.Finished(n.phase.pull)
  }

  /** Every pulled row and the watermark share one transaction. */
  ghost function ApplyPull(n: Node): Node
    requires CanApplyPull(n)
  {
    var items := Copies(PulledItems(n.phase.pull));
    Node(ApplyAllPulled(n.db, items).(watermark := n.phase.pull.snapshot), Idle, n.sent,
         n.seen + (set it | it in items && Stored(n.db.outbox, it.key)))
  }

  /** No conflict is resolved between fetching and applying a pull. */
  ghost predicate CanResolve(n: Node, id: ChangeId) {
    !n.phase.Pulling? && OpenConflict(n.db, id)
  }

  // ----- The step relation -----

  datatype Step =
    | DoSave(c: ClientId, key: Key, record: Record, editorBase: Option<int>, id: ChangeId)
    | DoDelete(c: ClientId, key: Key, id: ChangeId)
    | DoSend(c: ClientId, ids: seq<ChangeId>)
    | DoProcess(c: ClientId, role: Role, batch: seq<Change>, verdicts: seq<Verdict>)
    | DoDeliver(c: ClientId, reply: seq<Result>)
    | DoLose(c: ClientId, kind: FailureKind)
    | DoSettle(c: ClientId, i: nat)
    | DoStop(c: ClientId)
    | DoStartPull(c: ClientId)
    | DoPullKind(c: ClientId, feed: Kind, limit: Option<nat>)
    | DoApplyPull(c: ClientId)
    | DoReleaseAuthentication(c: ClientId)
    | DoKeepMine(c: ClientId, id: ChangeId, newId: ChangeId)
    | DoUseServer(c: ClientId, id: ChangeId)
    | DoMerge(c: ClientId, id: ChangeId, record: Record, newId: ChangeId)
    | DoRest(write: RestWrite)

  /** The server may get any batch of changes that ever left, late, again or regrouped. */
  ghost predicate CanProcess(n: Node, batch: seq<Change>, verdicts: seq<Verdict>) {
    |batch| == |verdicts| && forall ch :: ch in batch ==> ch in n.sent
  }

  ghost function Process(s: Sys, c: ClientId, role: Role, batch: seq<Change>, verdicts: seq<Verdict>): Sys
    requires c in s.nodes && CanProcess(s.nodes[c], batch, verdicts)
  {
    var p, n := Push(s.world.server, c, role, batch, verdicts), s.nodes[c];
    var heard := if n.phase.Pushing? && n.phase.batch == batch
                 then n.(phase := n.phase.(replies := n.phase.replies + {p.results})) else n;
    Sys(s.world.(server := p.server), s.nodes[c := heard])
  }

  ghost predicate CanRest(w: World, write: RestWrite) {
    write.RestCreate? ==> write.key !in w.owner
  }

  ghost function DoRestWrite(w: World, write: RestWrite): World {
    w.(server := RestStep(w.server, write),
       owner := if write.RestCreate? then w.owner[write.key := Rest] else w.owner)
  }

  ghost function Minting(w: World, id: ChangeId, c: ClientId): World {
    w.(minted := w.minted[id := c])
  }

  ghost function Claiming(w: World, k: Key, c: ClientId): World {
    if k in w.owner then w else w.(owner := w.owner[k := Device(c)])
  }

  /** One client's next world and node, when the step is enabled. */
  ghost function ClientStep(w: World, n: Node, step: Step): Option<(World, Node)>
    requires !step.DoProcess? && !step.DoRest?
  {
    match step
    case DoSave(c, k, r, editorBase, id) =>
      if CanSave(w, c, n, k, r, editorBase, id)
      then Some((Minting(Claiming(w, k, c), id, c), Save(n, k, r, editorBase, id))) else None
    case DoDelete(c, k, id) =>
      if CanDelete(w, n, k, id) then Some((Minting(w, id, c), n.(db := DeleteRow(n.db, k, id)))) else None
    case DoSend(c, ids) =>
      if CanSend(n, ids) then Some((w, Send(n, ids))) else None
    case DoDeliver(c, reply) =>
      if CanDeliver(n, reply) then Some((w, Deliver(n, reply))) else None
    case DoLose(c, kind) =>
      if n.phase.Pushing? && !kind.Conflicting? then Some((w, Lose(n, kind))) else None
    case DoSettle(c, i) =>
      if n.phase.Settling? && i < |n.phase.todo| then Some((w, Settle(n, i))) else None
    case DoStop(c) => Some((w, Stop(n)))
    case DoStartPull(c) =>
      if CanPull(w, n) then Some((w, StartPull(w, n))) else None
    case DoPullKind(c, feed, limit) =>
      if CanPullKind(w, n, feed, limit) then Some((w, PullKind(w, n, feed, limit))) else None
    case DoApplyPull(c) =>
      if CanApplyPull(n) then Some((w, ApplyPull(n))) else None
    case DoReleaseAuthentication(c) =>
      Some((w, n.(db := n.db.(outbox := ReleaseAuthenticationBlocks(n.db.outbox)))))
    case DoKeepMine(c, id, newId) =>
      if newId !in w.minted && CanResolve(n, id) && KeepMine(n.db, id, newId).Some?
      then Some((Minting(w, newId, c), n.(db := KeepMine(n.db, id, newId).value))) else None
    case DoUseServer(c, id) =>
      if CanResolve(n, id) && UseServer(n.db, id).Some?
      then Some((w, n.(db := UseServer(n.db, id).value))) else None
    case DoMerge(c, id, r, newId) =>
      if newId !in w.minted && CanResolve(n, id) && CanMergeInto(n, id, r)
      then Some((Minting(w, newId, c), n.(db := Merge(n.db, id, r, newId).value))) else None
  }

  ghost predicate CanMergeInto(n: Node, id: ChangeId, r: Record)
    requires OpenConflict(n.db, id)
  {
    var k := n.db.outbox[id].key;
    && Merge(n.db, id, r, id).Some?
    && (!Scored(k.kind) ==> r.code.Absent?)
    && (r.code.Given? ==> CodeFree(PutCopy(n.db.local, k, n.db.outbox[id].status.saved.value), k, r.code.code))
  }

  ghost predicate Next(s: Sys, t: Sys, step: Step) {
    if step.DoRest? then
      CanRest(s.world, step.write) && t == s.(world := DoRestWrite(s.world, step.write))
    else if step.DoProcess? then
      step.c in s.nodes && CanProcess(s.nodes[step.c], step.batch, step.verdicts)
      && t == Process(s, step.c, step.role, step.batch, step.verdicts)
    else
      step.c in s.nodes &&
      var next := ClientStep(s.world, s.nodes[step.c], step);
      next.Some? && t == Sys(next.value.0, s.nodes[step.c := next.value.1])
  }

  ghost predicate Steps(s: Sys, t: Sys) {
    exists step :: Next(s, t, step)
  }

  const NewNode := Node(EmptyDb, Idle, {}, {})

  /** A fresh project and any clients with empty databases. */
  ghost predicate Init(s: Sys) {
    s.world == World(FreshProject, map[], map[]) && forall c :: c in s.nodes ==> s.nodes[c] == NewNode
  }

  ghost predicate Run(trace: seq<Sys>) {
    |trace| > 0 && Init(trace[0]) &&
    forall i :: 0 <= i < |trace| - 1 ==> Steps(trace[i], trace[i + 1])
  }
}
