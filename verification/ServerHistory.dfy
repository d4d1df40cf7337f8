/** What every server run keeps: the counter, the versions, the receipts and the codes. */
module ServerHistory {
  import opened Protocol
  import opened PushRules

  // ----- The counter against the versions -----

  ghost function VersionSum(rows: map<Key, Row>): nat {
    if rows == map[] then 0
    else
      var k :| k in rows;
      rows[k].copy.version + VersionSum(rows - {k})
  }

  lemma {:induction false} SumWithout(rows: map<Key, Row>, k: Key)
    requires k in rows
    ensures VersionSum(rows) == rows[k].copy.version + VersionSum(rows - {k})
    decreases |rows|
  {
    var j :| j in rows && VersionSum(rows) == rows[j].copy.version + VersionSum(rows - {j});
    if j != k {
      SumWithout(rows - {j}, k);
      SumWithout(rows - {k}, j);
      assert (rows - {j}) - {k} == (rows - {k}) - {j};
    }
  }

  lemma SumAfterWrite(rows: map<Key, Row>, k: Key, row: Row)
    ensures VersionSum(rows[k := row])
         == VersionSum(rows) + row.copy.version - (if k in rows then rows[k].copy.version else 0)
  {
    var after := rows[k := row];
    SumWithout(after, k);
    if k in rows {
      SumWithout(rows, k);
      assert after - {k} == rows - {k};
    } else {
      assert after - {k} == rows;
    }
  }

  // ----- Invariant -----

  ghost predicate RowsStamped(s: Server) {
    && (forall k :: k in s.rows ==>
        s.rows[k].copy.version >= 1 && 1 <= s.rows[k].sequence <= s.last)
    && (forall j, k :: j in s.rows && k in s.rows && j != k ==>
        s.rows[j].sequence != s.rows[k].sequence)
  }

  ghost predicate CodesUnique(rows: map<Key, Row>) {
    && (forall k :: k in rows && !Scored(k.kind) ==> rows[k].copy.code.None?)
    && (forall j, k ::
        (j in rows && k in rows && j != k && Scored(j.kind) && Scored(k.kind) && rows[j].copy.code.Some?)
        ==> rows[j].copy.code != rows[k].copy.code)
  }

  ghost predicate ArchiveCurrent(s: Server) {
    forall k :: k in s.rows ==>
      VersionOf(k, s.rows[k].copy.version) in s.archive
      && s.archive[VersionOf(k, s.rows[k].copy.version)].copy == s.rows[k].copy
  }

  /** No version is missing from the history. */
  ghost predicate ArchiveFull(s: Server) {
    forall k, v :: k in s.rows && 1 <= v <= s.rows[k].copy.version ==> VersionOf(k, v) in s.archive
  }

  /** Archived versions belong to rows, from one to the current; only scored rows have codes. */
  ghost predicate ArchiveWithin(s: Server) {
    forall x :: x in s.archive ==>
      x.key in s.rows && 1 <= x.version <= s.rows[x.key].copy.version
      && s.archive[x].copy.version == x.version
      && (!Scored(x.key.kind) ==> s.archive[x].copy.code.None?)
  }

  ghost predicate Mutated(s: Server, id: ChangeId) {
    id in s.receipts && s.receipts[id].result.outcome.Accepted? && s.receipts[id].result.version.Some?
  }

  /** Each applied change is audited once, and exactly when its receipt carries server state. */
  ghost predicate AuditOk(s: Server) {
    && (forall i, j :: 0 <= i < j < |s.audit| ==> s.audit[i] != s.audit[j])
    && (forall id :: id in s.audit <==> Mutated(s, id))
  }

  ghost predicate TablesGood(s: Server) {
    && RowsStamped(s)
    && CodesUnique(s.rows)
    && ArchiveCurrent(s)
    && ArchiveFull(s)
    && ArchiveWithin(s)
    && VersionSum(s.rows) == s.last
  }

  ghost function PushedVersions(s: Server): set<VersionOf> {
    set x | x in s.archive && s.archive[x].writer.Device?
  }

  /** As many versions were ever written by pushes as changes were ever audited. */
  ghost predicate WritesAudited(s: Server) {
    |PushedVersions(s)| == |s.audit|
  }

  ghost predicate Good(s: Server) {
    TablesGood(s) && AuditOk(s) && WritesAudited(s)
  }

  // ----- One write -----

  predicate NextVersion(rows: map<Key, Row>, k: Key, copy: Copy) {
    copy.version == if k in rows then rows[k].copy.version + 1 else 1
  }

  /** What every accepted write does, and all it does, to rows, counter and history. */
  ghost predicate OneWrite(s: Server, t: Server, k: Key, copy: Copy, writer: Writer) {
    && NextVersion(s.rows, k, copy)
    && t.rows == s.rows[k := Row(copy, s.last + 1)]
    && t.last == s.last + 1
    && t.archive == s.archive[VersionOf(k, copy.version) := Archived(copy, writer)]
  }

  ghost predicate SameTables(s: Server, t: Server) {
    t.rows == s.rows && t.last == s.last && t.archive == s.archive
  }

  predicate CodeFits(rows: map<Key, Row>, k: Key, copy: Copy) {
    !CodeTaken(rows, k, copy.code) && (!Scored(k.kind) ==> copy.code.None?)
  }

  lemma WriteKeepsStamps(s: Server, t: Server, k: Key, copy: Copy, writer: Writer)
    requires RowsStamped(s) && OneWrite(s, t, k, copy, writer)
    ensures RowsStamped(t)
  {
  }

  lemma WriteKeepsCodes(s: Server, t: Server, k: Key, copy: Copy, writer: Writer)
    requires CodesUnique(s.rows) && OneWrite(s, t, k, copy, writer) && CodeFits(s.rows, k, copy)
    ensures CodesUnique(t.rows)
  {
  }

  lemma WriteKeepsCurrent(s: Server, t: Server, k: Key, copy: Copy, writer: Writer)
    requires ArchiveCurrent(s) && ArchiveWithin(s) && OneWrite(s, t, k, copy, writer)
    ensures ArchiveCurrent(t)
  {
  }

  lemma WriteKeepsFirst(s: Server, t: Server, k: Key, copy: Copy, writer: Writer)
    requires ArchiveFull(s) && OneWrite(s, t, k, copy, writer)
    ensures ArchiveFull(t)
  {
  }

  lemma WriteKeepsWithin(s: Server, t: Server, k: Key, copy: Copy, writer: Writer)
    requires ArchiveWithin(s) && OneWrite(s, t, k, copy, writer) && CodeFits(s.rows, k, copy)
    ensures ArchiveWithin(t)
  {
  }

  lemma WriteKeepsTables(s: Server, t: Server, k: Key, copy: Copy, writer: Writer)
    requires TablesGood(s) && OneWrite(s, t, k, copy, writer) && CodeFits(s.rows, k, copy)
    ensures TablesGood(t)
  {
    hide RowsStamped, CodesUnique, ArchiveCurrent, ArchiveFull, ArchiveWithin;
    WriteKeepsStamps(s, t, k, copy, writer);
    WriteKeepsCodes(s, t, k, copy, writer);
    WriteKeepsCurrent(s, t, k, copy, writer);
    WriteKeepsFirst(s, t, k, copy, writer);
    WriteKeepsWithin(s, t, k, copy, writer);
    SumAfterWrite(s.rows, k, Row(copy, s.last + 1));
  }

  /** A write adds one version nobody wrote before. */
  lemma WriteAddsVersion(s: Server, t: Server, k: Key, copy: Copy, writer: Writer)
    requires ArchiveWithin(s) && OneWrite(s, t, k, copy, writer)
    ensures VersionOf(k, copy.version) !in s.archive
    ensures |PushedVersions(t)| == |PushedVersions(s)| + if writer.Device? then 1 else 0
  {
    var x := VersionOf(k, copy.version);
    if writer.Device? {
      assert PushedVersions(t) == PushedVersions(s) + {x};
      assert x !in PushedVersions(s);
    } else {
      assert PushedVersions(t) == PushedVersions(s);
    }
  }

  lemma NewCodeFree(rows: map<Key, Row>, k: Key, code: CodeField)
    ensures !CodeTaken(rows, k, NewCode(rows, k, code))
  {
    var c := NewCode(rows, k, code);
    if j :| c.Some? && j in rows && j != k && Scored(j.kind) && rows[j].copy.code == c {
      assert c.value in HeldCodes(rows);
    }
  }

  // ----- One change -----

  /** A fresh change either writes exactly one row, once, audited under its id, or nothing. */
  lemma DecideEffect(s: Server, user: ClientId, role: Role, ch: Change, verdict: Verdict)
    requires CodesUnique(s.rows)
    ensures var d := DecideAndStore(s, user, role, ch, verdict);
      var t := d.server;
      && (d.stored ==> t.receipts == s.receipts[ch.id := Receipt(user, Some(ch), d.result)])
      && (!d.stored ==> t == s && d.result.outcome == Error(Transient, true))
      && (if d.result.outcome.Accepted? && d.result.version.Some?
          then d.stored && t.audit == s.audit + [ch.id] && ch.key in t.rows
            && d.result.record == Some(t.rows[ch.key].copy)
            && OneWrite(s, t, ch.key, t.rows[ch.key].copy, Device(user))
            && CodeFits(s.rows, ch.key, t.rows[ch.key].copy)
            && (ch.key in s.rows ==> BaseMatches(s.rows[ch.key].copy, ch.base))
          else t.audit == s.audit && SameTables(s, t))
  {
    hide Created, Updated, SoftDeleted, CodeTaken, BaseMatches, Allowed, NextVersion, CodeFits, CodesUnique;
    CreatedFits(s.rows, ch.key, ch.record);
    if ch.key in s.rows {
      UpdatedFits(s.rows, ch.key, ch.record);
      DeletedFits(s.rows, ch.key);
    }
  }

  lemma CreatedFits(rows: map<Key, Row>, k: Key, r: Record)
    ensures k !in rows ==> NextVersion(rows, k, Created(rows, k, r)) && CodeFits(rows, k, Created(rows, k, r))
  {
    hide NewCode;
    NewCodeFree(rows, k, r.code);
    UnscoredHasNoNewCode(rows, k, r.code);
  }

  lemma UnscoredHasNoNewCode(rows: map<Key, Row>, k: Key, code: CodeField)
    ensures !Scored(k.kind) ==> NewCode(rows, k, code).None?
  {
  }

  lemma UpdatedFits(rows: map<Key, Row>, k: Key, r: Record)
    requires CodesUnique(rows) && k in rows
    ensures var u := Updated(k.kind, rows[k].copy, r);
      NextVersion(rows, k, u) && (!CodeTaken(rows, k, u.code) ==> CodeFits(rows, k, u))
  {
    hide CodeTaken;
  }

  lemma DeletedFits(rows: map<Key, Row>, k: Key)
    requires CodesUnique(rows) && k in rows
    ensures var d := SoftDeleted(k.kind, rows[k].copy); NextVersion(rows, k, d) && CodeFits(rows, k, d)
  {
  }

  /** An accepted upsert stores exactly what it carried over what was there; a delete keeps the content. */
  lemma AcceptedContent(s: Server, user: ClientId, role: Role, ch: Change, verdict: Verdict)
    requires DecideAndStore(s, user, role, ch, verdict).result.outcome.Accepted?
    ensures var t := DecideAndStore(s, user, role, ch, verdict).server;
      && (ch.op.Upsert? ==> ch.key in t.rows)
      && (ch.key in t.rows && ch.op.Upsert? ==>
          (forall f :: f in ch.record.fields && f != "status" ==>
             f in t.rows[ch.key].copy.fields && t.rows[ch.key].copy.fields[f] == ch.record.fields[f])
          && (forall f :: f !in ch.record.fields && f != "status" ==>
             if ch.key in s.rows && f in s.rows[ch.key].copy.fields
             then f in t.rows[ch.key].copy.fields && t.rows[ch.key].copy.fields[f] == s.rows[ch.key].copy.fields[f]
             else f !in t.rows[ch.key].copy.fields)
          && t.rows[ch.key].copy.deleted == (if ch.record.deletes.Some? then ch.record.deletes.value
                                              else ch.key in s.rows && s.rows[ch.key].copy.deleted))
      && (ch.op.Delete? && ch.key in s.rows ==> ch.key in t.rows && t.rows[ch.key].copy.deleted)
  {
    hide NewCode, CodeTaken, Allowed, BaseMatches;
  }

  /** The ids already answered are those with a receipt plus those met in this request. */
  ghost predicate PushOk(p: PushState) {
    && Good(p.server)
    && (forall id :: id in p.existing ==>
        id in p.server.receipts && p.server.receipts[id] == p.existing[id])
    && (forall id :: id in p.server.receipts ==> Seen(p, id))
  }

  lemma AuditAppended(s: Server, t: Server, id: ChangeId, receipt: Receipt)
    requires AuditOk(s) && id !in s.receipts
    requires t.receipts == s.receipts[id := receipt]
    requires t.audit == if Mutated(t, id) then s.audit + [id] else s.audit
    ensures AuditOk(t)
  {
    assert !Mutated(s, id) && id !in s.audit;
    forall i ensures i in t.audit <==> Mutated(t, i) {
      assert i in t.audit <==> i in s.audit || (i == id && Mutated(t, id));
    }
  }

  lemma FreshChangeKeeps(s: Server, user: ClientId, role: Role, ch: Change, verdict: Verdict)
    requires Good(s) && ch.id !in s.receipts
    ensures Good(DecideAndStore(s, user, role, ch, verdict).server)
    ensures Evolves(s, DecideAndStore(s, user, role, ch, verdict).server)
    ensures DecideAndStore(s, user, role, ch, verdict).server.receipts.Keys <= s.receipts.Keys + {ch.id}
  {
    hide DecideAndStore, RowsStamped, ArchiveCurrent, ArchiveFull, ArchiveWithin, VersionSum, CodesUnique;
    var d := DecideAndStore(s, user, role, ch, verdict);
    DecideEffect(s, user, role, ch, verdict);
    if d.stored {
      AuditAppended(s, d.server, ch.id, Receipt(user, Some(ch), d.result));
    }
    if d.result.outcome.Accepted? && d.result.version.Some? {
      WriteKeepsTables(s, d.server, ch.key, d.server.rows[ch.key].copy, Device(user));
      WriteAddsVersion(s, d.server, ch.key, d.server.rows[ch.key].copy, Device(user));
      WriteEvolves(s, d.server, ch.key, d.server.rows[ch.key].copy, Device(user));
    } else if d.stored {
      SameTablesKeep(s, d.server);
    }
  }

  lemma SameTablesKeep(s: Server, t: Server)
    requires TablesGood(s) && SameTables(s, t)
    ensures TablesGood(t)
  {
  }

  lemma WriteEvolves(s: Server, t: Server, k: Key, copy: Copy, writer: Writer)
    requires ArchiveWithin(s) && OneWrite(s, t, k, copy, writer)
    requires forall id :: id in s.receipts ==> id in t.receipts && t.receipts[id] == s.receipts[id]
    ensures Evolves(s, t)
  {
  }

  lemma PushOneKeeps(p: PushState, user: ClientId, role: Role, ch: Change, verdict: Verdict)
    requires PushOk(p)
    ensures PushOk(PushOne(p, user, role, ch, verdict))
    ensures Evolves(p.server, PushOne(p, user, role, ch, verdict).server)
  {
    hide TablesGood, AuditOk, Decide;
    if !Seen(p, ch.id) {
      FreshChangeKeeps(p.server, user, role, ch, verdict);
    }
  }

  lemma {:induction false} PushFirstKeeps(
    s: Server, user: ClientId, role: Role, batch: seq<Change>, verdicts: seq<Verdict>, n: nat)
    requires Good(s) && n <= |batch| == |verdicts|
    ensures PushOk(PushFirst(s, user, role, batch, verdicts, n))
    ensures Evolves(s, PushFirst(s, user, role, batch, verdicts, n).server)
  {
    hide Good, PushOne;
    if n > 0 {
      PushFirstKeeps(s, user, role, batch, verdicts, n - 1);
      PushOneKeeps(PushFirst(s, user, role, batch, verdicts, n - 1), user, role, batch[n - 1], verdicts[n - 1]);
    }
  }

  lemma RestKeeps(s: Server, w: RestWrite)
    requires Good(s)
    ensures Good(RestStep(s, w)) && Evolves(s, RestStep(s, w))
  {
    hide RowsStamped, ArchiveCurrent, ArchiveFull, ArchiveWithin, VersionSum;
    var c := RestCopy(s.rows, w);
    if c.Some? {
      var t := RestStep(s, w);
      WriteKeepsTables(s, t, w.key, c.value, Rest);
      WriteAddsVersion(s, t, w.key, c.value, Rest);
      WriteEvolves(s, t, w.key, c.value, Rest);
    }
  }

  // ----- A delete that read its row earlier -----

  /** A copy the row once had. */
  ghost predicate WasCopy(s: Server, k: Key, read: Copy) {
    VersionOf(k, read.version) in s.archive && s.archive[VersionOf(k, read.version)].copy == read
  }

  lemma CurrentRead(kind: Kind, read: Copy)
    ensures ColumnsSet(read, read, SoftDeleted(kind, read)) == SoftDeleted(kind, read)
  {
    var changed := SoftDeleted(kind, read);
    assert read.fields + FieldsSet(read.fields, changed.fields) == changed.fields;
  }

  /** A version is written a second time exactly if the row has moved on since it was read. */
  lemma LateDeleteRewrites(s: Server, k: Key, read: Copy)
    requires Good(s) && k in s.rows && WasCopy(s, k, read)
    ensures VersionOf(k, LateDelete(s, k, read).rows[k].copy.version) in s.archive <==> read.version < s.rows[k].copy.version
  {
    hide RowsStamped, CodesUnique, VersionSum, AuditOk, WritesAudited, FieldsSet;
  }

  lemma LateDeleteCounts(s: Server, k: Key, read: Copy)
    requires Good(s) && k in s.rows && WasCopy(s, k, read)
    ensures VersionSum(LateDelete(s, k, read).rows) == LateDelete(s, k, read).last
            <==> read.version == s.rows[k].copy.version
  {
    hide RowsStamped, CodesUnique, ArchiveFull, ArchiveWithin, ArchiveCurrent, AuditOk, WritesAudited, FieldsSet;
    SumAfterWrite(s.rows, k, LateDelete(s, k, read).rows[k]);
  }

  lemma CurrentDeleteKeeps(s: Server, k: Key)
    requires Good(s) && k in s.rows
    ensures Good(LateDelete(s, k, s.rows[k].copy))
  {
    hide RowsStamped, ArchiveCurrent, ArchiveFull, ArchiveWithin, VersionSum;
    var copy := SoftDeleted(k.kind, s.rows[k].copy);
    CurrentRead(k.kind, s.rows[k].copy);
    DeletedFits(s.rows, k);
    hide CodesUnique, SoftDeleted, ColumnsSet;
    var t := LateDelete(s, k, s.rows[k].copy);
    WriteKeepsTables(s, t, k, copy, Rest);
    WriteAddsVersion(s, t, k, copy, Rest);
  }

  /** A REST delete keeps counter, versions and history iff the version it read is still current. */
  lemma LateDeleteKeeps(s: Server, k: Key, read: Copy)
    requires Good(s) && k in s.rows && WasCopy(s, k, read)
    ensures Good(LateDelete(s, k, read)) <==> read.version == s.rows[k].copy.version
  {
    LateDeleteCounts(s, k, read);
    if read.version == s.rows[k].copy.version {
      assert read == s.rows[k].copy by { hide VersionSum, LateDelete; }
      CurrentDeleteKeeps(s, k);
    }
    hide LateDelete, RowsStamped, CodesUnique, ArchiveFull, ArchiveWithin, ArchiveCurrent, AuditOk, WritesAudited;
  }

  // ----- Later states -----

  /** Rows only move to sequences above the counter they were read at; history only grows. */
  ghost predicate Evolves(s: Server, t: Server) {
    && s.last <= t.last
    && (forall k :: k in s.rows ==> k in t.rows)
    && (forall k :: k in t.rows && t.rows[k].sequence <= s.last ==> k in s.rows && t.rows[k] == s.rows[k])
    && (forall x :: x in s.archive ==> x in t.archive && t.archive[x] == s.archive[x])
    && (forall id :: id in s.receipts ==> id in t.receipts && t.receipts[id] == s.receipts[id])
  }

  lemma EvolvesRefl(s: Server)
    ensures Evolves(s, s)
  {
  }

  lemma EvolvesTransitive(s: Server, t: Server, u: Server)
    requires Evolves(s, t) && Evolves(t, u)
    ensures Evolves(s, u)
  {
  }

  // ----- Whole runs -----

  datatype Request = Pushed(user: ClientId, role: Role, batch: seq<Change>, verdicts: seq<Verdict>)
                   | Written(write: RestWrite)

  predicate WellFormed(r: Request) {
    r.Pushed? ==> |r.batch| == |r.verdicts|
  }

  function Serve(s: Server, r: Request): Server
    requires WellFormed(r)
  {
    match r
    case Pushed(user, role, batch, verdicts) => Push(s, user, role, batch, verdicts).server
    case Written(w) => RestStep(s, w)
  }

  /** Any requests from anyone, honest or not, in any order, with any resends. */
  function ServeAll(requests: seq<Request>): Server
    requires forall r :: r in requests ==> WellFormed(r)
  {
    if requests == [] then FreshProject
    else Serve(ServeAll(requests[..|requests| - 1]), requests[|requests| - 1])
  }

  lemma NoneMutated()
    ensures forall id :: !Mutated(FreshProject, id)
  {
  }

  lemma FreshIsGood()
    ensures Good(FreshProject)
  {
    assert AuditOk(FreshProject) by { NoneMutated(); }
    assert WritesAudited(FreshProject) by { assert PushedVersions(FreshProject) == {}; }
    FreshTables();
    hide AuditOk, WritesAudited, TablesGood;
  }

  lemma FreshTables()
    ensures TablesGood(FreshProject)
  {
    hide VersionSum, RowsStamped, CodesUnique, ArchiveCurrent, ArchiveFull, ArchiveWithin;
    EmptyTables(FreshProject);
    NothingSums();
  }

  lemma EmptyTables(s: Server)
    requires s.rows == map[] && s.archive == map[]
    ensures RowsStamped(s) && CodesUnique(s.rows) && ArchiveCurrent(s) && ArchiveFull(s) && ArchiveWithin(s)
  {
  }

  lemma NothingSums()
    ensures VersionSum(map[]) == 0
  {
  }

  /** Conservation, exactly-once and uniqueness in every server run from a fresh project. */
  lemma {:induction false} EveryRunIsGood(requests: seq<Request>)
    requires forall r :: r in requests ==> WellFormed(r)
    ensures Good(ServeAll(requests))
  {
    hide Good, PushFirst, RestStep;
    if requests == [] {
      FreshIsGood();
    } else {
      var n := |requests| - 1;
      EveryRunIsGood(requests[..n]);
      var s := ServeAll(requests[..n]);
      assert WellFormed(requests[n]);
      match requests[n]
      case Pushed(user, role, batch, verdicts) =>
        PushFirstKeeps(s, user, role, batch, verdicts, |batch|);
      case Written(w) =>
        RestKeeps(s, w);
    }
  }
}
