/** From any reachable state a client without a stuck delete can bring its own edits to the server. */
module SyncKeepMine {
  import opened Protocol
  import opened PushRules
  import opened LocalDb
  import opened SyncModel
  import opened SyncInvariant
  import opened SyncPreservation
  import opened SyncTheorems
  import opened SyncProgress
  import ServerHistory

  // ----- What landing means -----

  /** The row holds every field of the edit and no code it clears, or is deleted as the user wished. */
  ghost predicate Lands(rows: map<Key, Row>, k: Key, op: Op, r: Record) {
    if op.Upsert? then
      && k in rows
      && (forall f :: f in r.fields && (f == "status" ==> r.deletes != Some(true)) ==>
          f in rows[k].copy.fields && rows[k].copy.fields[f] == r.fields[f])
      && (Scored(k.kind) && r.code == Given(None) ==> rows[k].copy.code.None?)
    else k in rows ==> rows[k].copy.deleted
  }

  ghost predicate EntryLands(rows: map<Key, Row>, e: Entry) {
    Lands(rows, e.key, e.op, e.record)
  }

  /** A delete of an earlier request that the server has already carried out. */
  ghost predicate AlreadyApplied(s: Server, id: ChangeId, e: Entry) {
    e.op.Delete? && id in s.receipts && s.receipts[id].result.outcome.Accepted?
  }

  ghost predicate OtherRows(a: map<Key, Row>, b: map<Key, Row>, k: Key) {
    forall j :: j != k ==> Lookup(b, j) == Lookup(a, j)
  }

  // ----- The server on a fresh change -----

  ghost predicate Current(rows: map<Key, Row>, k: Key, base: Option<int>) {
    k in rows ==> BaseMatches(rows[k].copy, base)
  }

  lemma FreshUpsert(s: Server, c: ClientId, ch: Change)
    requires ServerHistory.CodesUnique(s.rows) && ch.op.Upsert? && !CarriesNewCode(ch.record)
    ensures var d := DecideAndStore(s, c, Admin, ch, Fine);
      && OtherRows(s.rows, d.server.rows, ch.key)
      && (if Current(s.rows, ch.key, ch.base)
          then d.result.outcome.Accepted? && Lands(d.server.rows, ch.key, Upsert, ch.record)
          else d.result.outcome.Conflict? && d.result.record == Some(s.rows[ch.key].copy) && d.server.rows == s.rows)
  {
    if ch.key in s.rows {
      KeptCodeIsFree(s, ch);
    }
    hide NewCode, CodeTaken, CarriesNewCode;
  }

  lemma FreshDelete(s: Server, c: ClientId, ch: Change)
    requires ch.op.Delete?
    ensures var d := DecideAndStore(s, c, Admin, ch, Fine);
      && OtherRows(s.rows, d.server.rows, ch.key)
      && (if Current(s.rows, ch.key, ch.base)
          then d.result.outcome.Accepted? && Lands(d.server.rows, ch.key, Delete, ch.record)
          else d.result.outcome.Conflict? && d.result.record == Some(s.rows[ch.key].copy) && d.server.rows == s.rows)
  {
  }

  /** A fresh change is accepted on a current base and lands; else it meets the current row. */
  lemma FreshOnce(s: Server, t: Server, c: ClientId, ch: Change, r: Result)
    requires ServerHistory.CodesUnique(s.rows) && PushedOnce(s, t, c, ch, r) && ch.id !in s.receipts
    requires !(ch.op.Upsert? && CarriesNewCode(ch.record))
    ensures OtherRows(s.rows, t.rows, ch.key)
    ensures if Current(s.rows, ch.key, ch.base)
      then r.outcome.Accepted? && Lands(t.rows, ch.key, ch.op, ch.record)
      else r.outcome.Conflict? && ch.key in s.rows && r.record == Some(s.rows[ch.key].copy) && t.rows == s.rows
  {
    hide DecideAndStore, CarriesNewCode, Lands, OtherRows;
    assert r == [r][0] == PushOne(Begin(s), c, Admin, ch, Fine).results[0];
    if ch.op.Upsert? {
      FreshUpsert(s, c, ch);
    } else {
      FreshDelete(s, c, ch);
    }
  }

  /** A repeated change writes nothing, and is accepted only if it was before. */
  lemma RepeatedOnce(s: Server, t: Server, c: ClientId, ch: Change, r: Result)
    requires PushedOnce(s, t, c, ch, r) && ch.id in s.receipts
    ensures t == s && (r.outcome.Accepted? ==> s.receipts[ch.id].result.outcome.Accepted?)
  {
    hide DuplicateReason;
    assert r == [r][0] == PushOne(Begin(s), c, Admin, ch, Fine).results[0];
  }

  // ----- One fresh change there and back -----

  ghost predicate Fresh(s: Sys, c: ClientId, id: ChangeId)
    requires c in s.nodes
  {
    && id in s.nodes[c].db.outbox && id !in s.world.server.receipts
    && Answerable(s.world.server, id, s.nodes[c].db.outbox[id])
  }

  /** What one entry's way to the server leaves alone. */
  ghost predicate Apart(t: Sys, u: Sys, c: ClientId, k: Key, id: ChangeId)
    requires c in t.nodes && c in u.nodes
  {
    && OtherRows(t.world.server.rows, u.world.server.rows, k)
    && OtherReceipts(t.world.server, u.world.server, id)
  }

  lemma StampedCodes(t: Sys)
    requires Inv(t)
    ensures ServerHistory.CodesUnique(t.world.server.rows)
  {
    hide WorldOk, NodeOk, ServerHistory.RowsStamped, ServerHistory.CodesUnique, ServerHistory.ArchiveWithin;
    StampsAndCodes(t.world);
  }

  lemma FreshTrip(s: Sys, t: Sys, c: ClientId, id: ChangeId) returns (u: Sys)
    requires At(s, t, c) && Fresh(t, c, id)
    ensures At(s, u, c) && EntryHandled(t.nodes[c].db.outbox, u.nodes[c].db.outbox, id)
    ensures var e := t.nodes[c].db.outbox[id]; var rows := t.world.server.rows;
      && Apart(t, u, c, e.key, id)
      && (if Current(rows, e.key, e.base)
          then id !in u.nodes[c].db.outbox && EntryLands(u.world.server.rows, e)
          else e.key in rows && u.world.server.rows == rows && id in u.nodes[c].db.outbox
               && u.nodes[c].db.outbox[id] == e.(status := Blocked(Conflicting, Some(rows[e.key].copy)), attempted := true))
  {
    hide Inv, Leads, EntryHandled, OtherReceipts, PushedOnce, CarriesNewCode, WasRefused, Lands, Current, OtherRows;
    var e := t.nodes[c].db.outbox[id];
    StampedCodes(t);
    var r;
    u, r := RoundTrip(s, t, c, id);
    FreshOnce(t.world.server, u.world.server, c, ChangeOf(id, e), r);
  }

  // ----- Keeping mine -----

  lemma KeepMineStep(w: World, n: Node, c: ClientId, id: ChangeId, newId: ChangeId)
    requires newId !in w.minted && OpenConflict(n.db, id) && CanResolve(n, id) && KeepMine(n.db, id, newId).Some?
    ensures ClientStep(w, n, DoKeepMine(c, id, newId)) ==
      Some((Minting(w, newId, c), n.(db := KeepMine(n.db, id, newId).value)))
  {
    hide KeepMine, CanResolve, Minting;
  }

  lemma KeepMineIs(w: World, c: ClientId, n: Node, id: ChangeId, newId: ChangeId)
    requires CoreOk(w, c, n) && OpenConflict(n.db, id) && newId !in n.db.outbox && ServerHistory.ArchiveWithin(w.server)
    ensures KeepMine(n.db, id, newId).Some? && n.db.outbox[id].key in n.db.local
    ensures n.db.outbox[id].status.saved.Some? && n.db.outbox[id].status.saved.value.version >= 1
    ensures var o, q := n.db.outbox, KeepMine(n.db, id, newId).value.outbox;
      && q.Keys == o.Keys - {id} + {newId}
      && (forall i :: i in o && i != id ==> i in q && q[i] == o[i])
      && q[newId] == Entry(o[id].key, o[id].op,
           Some(Max(o[id].status.saved.value.version, n.db.local[o[id].key].copy.version)), o[id].record, Pending, false)
  {
    hide LocalOk, BoundaryOk, PayloadsOk, LocalCodesUnique, BaseOk;
    assert SavedOk(w, n.seen, n.db.outbox[id]) && EntryRowOk(n.db.local, n.db.outbox[id]);
    assert n.db.outbox[id].status.saved.Some?;
    var k, saved := n.db.outbox[id].key, n.db.outbox[id].status.saved.value;
    assert InArchive(w.server, k, saved) && VersionOf(k, saved.version) in w.server.archive;
    OnlyEntry(n.db.outbox, id);
  }

  /** The local version of a row the server has is never ahead of the server. */
  lemma LocalNotAhead(w: World, c: ClientId, n: Node, k: Key)
    requires CoreOk(w, c, n) && ServerHistory.ArchiveWithin(w.server) && k in n.db.local && k in w.server.rows
    ensures n.db.local[k].copy.version <= w.server.rows[k].copy.version
  {
    hide OutboxOk, BasesOk, BoundaryOk, PayloadsOk, LocalCodesUnique;
    assert LocalRowOk(w, c, n.seen, k, n.db.local[k]);
  }

  lemma Within(t: Sys)
    requires Inv(t)
    ensures ServerHistory.ArchiveWithin(t.world.server)
  {
    hide WorldOk, NodeOk, ServerHistory.RowsStamped, ServerHistory.CodesUnique, ServerHistory.ArchiveWithin;
    StampsAndCodes(t.world);
  }

  /** "Keep mine" requeues the edit unsent, under a new id; on the current version if the saved copy is current. */
  lemma KeptMine(s: Sys, t: Sys, c: ClientId, id: ChangeId) returns (u: Sys, newId: ChangeId)
    requires At(s, t, c) && OpenConflict(t.nodes[c].db, id)
    ensures At(s, u, c) && u.world.server == t.world.server
    ensures newId !in t.nodes[c].db.outbox && newId !in t.world.server.receipts
    ensures var o, q := t.nodes[c].db.outbox, u.nodes[c].db.outbox;
      && q.Keys == o.Keys - {id} + {newId}
      && (forall i :: i in o && i != id ==> i in q && q[i] == o[i])
      && q[newId].key == o[id].key && q[newId].op == o[id].op && q[newId].record == o[id].record
      && q[newId].status.Pending?
      && (o[id].key in t.world.server.rows && o[id].status.saved == Some(t.world.server.rows[o[id].key].copy)
          ==> Current(t.world.server.rows, o[id].key, q[newId].base))
  {
    hide Inv, Leads, WorldOk, NodeOk, CoreOk, PayloadsOk, BoundaryOk, BasesOk, ClientStep, KeepMine, OnePerKey, Minting,
         EntryRowOk, ServerHistory.ArchiveWithin;
    newId := Bound(t.world.minted.Keys);
    assert newId !in t.world.minted;
    var n := t.nodes[c];
    NodeInv(t, c);
    Within(t);
    FreshlyMinted(t.world, c, n, newId);
    KeepMineIs(t.world, c, n, id, newId);
    KeepMineStep(t.world, n, c, id, newId);
    var w, m := Minting(t.world, newId, c), n.(db := KeepMine(n.db, id, newId).value);
    OwnStep(s, t, c, DoKeepMine(c, id, newId), w, m);
    u := Moved(t, c, w, m);
    SameServer(t.world, n.db.outbox[id].key, newId, c);
    MintingKeepsServer(t.world, newId, c);
    if n.db.outbox[id].key in t.world.server.rows {
      LocalNotAhead(t.world, c, n, n.db.outbox[id].key);
    }
  }

  lemma MintingKeepsServer(w: World, id: ChangeId, c: ClientId)
    ensures Minting(w, id, c).server == w.server
  {
  }

  // ----- One entry to the server -----

  /** The entry is gone, and nothing else the client waits for has moved. */
  ghost predicate Through(t: Sys, u: Sys, c: ClientId, id: ChangeId)
    requires c in t.nodes && c in u.nodes && id in t.nodes[c].db.outbox
  {
    && u.nodes[c].db.outbox == t.nodes[c].db.outbox - {id}
    && OtherRows(t.world.server.rows, u.world.server.rows, t.nodes[c].db.outbox[id].key)
    && forall i :: i in u.nodes[c].db.outbox ==>
         Lookup(u.world.server.receipts, i) == Lookup(t.world.server.receipts, i)
  }

  lemma HandledAndGone(o: Outbox, q: Outbox, id: ChangeId)
    requires EntryHandled(o, q, id) && id !in q
    ensures q == o - {id}
  {
  }

  lemma SwappedAndGone(o: Outbox, p: Outbox, id: ChangeId, newId: ChangeId)
    requires p.Keys == o.Keys - {id} + {newId} && newId !in o && forall i :: i in o && i != id ==> i in p && p[i] == o[i]
    ensures p - {newId} == o - {id}
  {
  }

  lemma RowsTwice(a: map<Key, Row>, b: map<Key, Row>, d: map<Key, Row>, k: Key)
    requires OtherRows(a, b, k) && OtherRows(b, d, k)
    ensures OtherRows(a, d, k)
  {
  }

  /** A fresh change lands, if need be on the version that its conflict reports. */
  lemma LandFresh(s: Sys, t: Sys, c: ClientId, id: ChangeId) returns (u: Sys)
    requires At(s, t, c) && Fresh(t, c, id)
    ensures At(s, u, c) && Through(t, u, c, id)
    ensures EntryLands(u.world.server.rows, t.nodes[c].db.outbox[id])
  {
    hide Inv, Leads, CarriesNewCode, WasRefused, Lands, Current, EntryHandled, OtherRows;
    var o, e := t.nodes[c].db.outbox, t.nodes[c].db.outbox[id];
    u := FreshTrip(s, t, c, id);
    if id in u.nodes[c].db.outbox {
      var mid := u;
      HandledStays(o, mid.nodes[c].db.outbox, id);
      var two, newId := KeptMine(s, mid, c, id);
      FreshIsAnswerable(two.world.server, newId, two.nodes[c].db.outbox[newId]);
      u := FreshTrip(s, two, c, newId);
      HandledAndGone(two.nodes[c].db.outbox, u.nodes[c].db.outbox, newId);
      SwappedAndGone(mid.nodes[c].db.outbox, two.nodes[c].db.outbox, id, newId);
      SameWithout(o, mid.nodes[c].db.outbox, id);
      RowsTwice(t.world.server.rows, mid.world.server.rows, u.world.server.rows, e.key);
    } else {
      HandledAndGone(o, u.nodes[c].db.outbox, id);
    }
  }

  lemma HandledStays(o: Outbox, q: Outbox, id: ChangeId)
    requires EntryHandled(o, q, id) && id in o && id in q
    ensures q.Keys == o.Keys && forall i :: i in o && i != id ==> q[i] == o[i]
  {
  }

  lemma SameWithout(o: Outbox, q: Outbox, id: ChangeId)
    requires q.Keys == o.Keys && forall i :: i in o && i != id ==> q[i] == o[i]
    ensures q - {id} == o - {id}
  {
  }

  lemma FreshIsAnswerable(s: Server, id: ChangeId, e: Entry)
    requires id !in s.receipts && Sendable(e) && !(e.op.Upsert? && CarriesNewCode(e.record))
    ensures Answerable(s, id, e)
  {
  }

  /** An edit is saved again under a new id, without a code of its own, and lands. */
  lemma LandUpsert(s: Sys, t: Sys, c: ClientId, id: ChangeId) returns (u: Sys)
    requires At(s, t, c) && id in t.nodes[c].db.outbox
    requires t.nodes[c].db.outbox[id].op.Upsert? && !IsConflict(t.nodes[c].db.outbox[id])
    ensures At(s, u, c) && Through(t, u, c, id)
    ensures EntryLands(u.world.server.rows, t.nodes[c].db.outbox[id])
  {
    hide Inv, Leads, WasRefused, OtherRows;
    var mid, newId := SavedAgain(s, t, c, id);
    u := LandFresh(s, mid, c, newId);
    SwappedAndGone(t.nodes[c].db.outbox, mid.nodes[c].db.outbox, id, newId);
  }

  lemma LandConflict(s: Sys, t: Sys, c: ClientId, id: ChangeId) returns (u: Sys)
    requires At(s, t, c) && OpenConflict(t.nodes[c].db, id)
    ensures At(s, u, c) && Through(t, u, c, id)
    ensures EntryLands(u.world.server.rows, t.nodes[c].db.outbox[id])
  {
    hide Inv, Leads, CarriesNewCode, WasRefused, OtherRows, Lands, Current;
    var mid, newId := KeptMine(s, t, c, id);
    if t.nodes[c].db.outbox[id].op.Upsert? {
      u := LandUpsert(s, mid, c, newId);
    } else {
      FreshIsAnswerable(mid.world.server, newId, mid.nodes[c].db.outbox[newId]);
      u := LandFresh(s, mid, c, newId);
    }
    SwappedAndGone(t.nodes[c].db.outbox, mid.nodes[c].db.outbox, id, newId);
  }

  /** A delete that left before: it was carried out, or it is kept against the conflict it met. */
  lemma LandRepeated(s: Sys, t: Sys, c: ClientId, id: ChangeId) returns (u: Sys)
    requires At(s, t, c) && id in t.nodes[c].db.outbox && t.nodes[c].db.outbox[id].op.Delete?
    requires Answerable(t.world.server, id, t.nodes[c].db.outbox[id]) && id in t.world.server.receipts
    ensures At(s, u, c) && Through(t, u, c, id)
    ensures EntryLands(u.world.server.rows, t.nodes[c].db.outbox[id])
         || AlreadyApplied(t.world.server, id, t.nodes[c].db.outbox[id])
  {
    hide Inv, Leads, CarriesNewCode, WasRefused, Lands, EntryHandled, PushedOnce, OtherRows;
    var o, e := t.nodes[c].db.outbox, t.nodes[c].db.outbox[id];
    var r;
    u, r := RoundTrip(s, t, c, id);
    RepeatedOnce(t.world.server, u.world.server, c, ChangeOf(id, e), r);
    SameRows(t.world.server.rows, e.key);
    if id in u.nodes[c].db.outbox {
      var mid := u;
      HandledStays(o, mid.nodes[c].db.outbox, id);
      HandledConflicts(o, mid.nodes[c].db.outbox, id);
      u := LandConflict(s, mid, c, id);
      SameWithout(o, mid.nodes[c].db.outbox, id);
    } else {
      HandledAndGone(o, u.nodes[c].db.outbox, id);
    }
  }

  lemma SameRows(a: map<Key, Row>, k: Key)
    ensures OtherRows(a, a, k)
  {
  }

  lemma HandledConflicts(o: Outbox, q: Outbox, id: ChangeId)
    requires EntryHandled(o, q, id) && id in q
    ensures IsConflict(q[id])
  {
  }

  /** Whatever state an entry is in, it reaches the server. */
  lemma Landed(s: Sys, t: Sys, c: ClientId, id: ChangeId) returns (u: Sys)
    requires At(s, t, c) && Clear(t.world.server, t.nodes[c].db.outbox) && id in t.nodes[c].db.outbox
    ensures At(s, u, c) && Through(t, u, c, id)
    ensures EntryLands(u.world.server.rows, t.nodes[c].db.outbox[id])
         || AlreadyApplied(t.world.server, id, t.nodes[c].db.outbox[id])
  {
    hide Inv, Leads, CarriesNewCode, WasRefused, Lands, Through;
    var e := t.nodes[c].db.outbox[id];
    if IsConflict(e) {
      u := LandConflict(s, t, c, id);
    } else if e.op.Upsert? {
      u := LandUpsert(s, t, c, id);
    } else if id in t.world.server.receipts {
      u := LandRepeated(s, t, c, id);
    } else {
      u := LandFresh(s, t, c, id);
    }
  }

  // ----- All of them -----

  ghost predicate Waits(o: Outbox, k: Key) {
    exists id :: id in o && o[id].key == k
  }

  ghost predicate AllLand(s: Server, rows: map<Key, Row>, o: Outbox) {
    forall id :: id in o ==> EntryLands(rows, o[id]) || AlreadyApplied(s, id, o[id])
  }

  lemma ThroughStaysClear(t: Sys, u: Sys, c: ClientId, id: ChangeId)
    requires c in t.nodes && c in u.nodes && id in t.nodes[c].db.outbox && Through(t, u, c, id)
    requires Clear(t.world.server, t.nodes[c].db.outbox)
    ensures Clear(u.world.server, u.nodes[c].db.outbox) && |u.nodes[c].db.outbox| < |t.nodes[c].db.outbox|
  {
    var o, q := t.nodes[c].db.outbox, u.nodes[c].db.outbox;
    forall i | i in q && q[i].op.Delete? && !IsConflict(q[i]) ensures Sendable(q[i]) && !WasRefused(u.world.server, i) {
      assert Lookup(u.world.server.receipts, i) == Lookup(t.world.server.receipts, i);
      assert i in o && q[i] == o[i];
    }
    assert q.Keys == o.Keys - {id};
    assert |q| == |q.Keys| && |o| == |o.Keys|;
  }

  lemma LandsTogether(t: Sys, mid: Sys, c: ClientId, id: ChangeId, rows: map<Key, Row>)
    requires c in t.nodes && c in mid.nodes && id in t.nodes[c].db.outbox && Through(t, mid, c, id)
    requires OnePerKey(t.nodes[c].db.outbox)
    requires EntryLands(mid.world.server.rows, t.nodes[c].db.outbox[id])
          || AlreadyApplied(t.world.server, id, t.nodes[c].db.outbox[id])
    requires AllLand(mid.world.server, rows, mid.nodes[c].db.outbox)
    requires forall k :: !Waits(mid.nodes[c].db.outbox, k) ==> Lookup(rows, k) == Lookup(mid.world.server.rows, k)
    ensures AllLand(t.world.server, rows, t.nodes[c].db.outbox)
    ensures forall k :: !Waits(t.nodes[c].db.outbox, k) ==> Lookup(rows, k) == Lookup(t.world.server.rows, k)
  {
    var o, q := t.nodes[c].db.outbox, mid.nodes[c].db.outbox;
    forall i | i in o ensures EntryLands(rows, o[i]) || AlreadyApplied(t.world.server, i, o[i]) {
      if i == id {
        assert !Waits(q, o[id].key);
        assert Lookup(rows, o[id].key) == Lookup(mid.world.server.rows, o[id].key);
      } else {
        assert i in q && q[i] == o[i];
        assert Lookup(mid.world.server.receipts, i) == Lookup(t.world.server.receipts, i);
      }
    }
    forall k | !Waits(o, k) ensures Lookup(rows, k) == Lookup(t.world.server.rows, k) {
      assert !Waits(q, k) && k != o[id].key;
      assert Lookup(mid.world.server.rows, k) == Lookup(t.world.server.rows, k);
    }
  }

  lemma {:induction false} DrainedMine(s: Sys, t: Sys, c: ClientId) returns (u: Sys)
    requires At(s, t, c) && Clear(t.world.server, t.nodes[c].db.outbox)
    ensures At(s, u, c) && u.nodes[c].db.outbox == map[]
    ensures AllLand(t.world.server, u.world.server.rows, t.nodes[c].db.outbox)
    ensures forall k :: !Waits(t.nodes[c].db.outbox, k) ==>
      Lookup(u.world.server.rows, k) == Lookup(t.world.server.rows, k)
    decreases |t.nodes[c].db.outbox|
  {
    var o := t.nodes[c].db.outbox;
    assert OnePerKey(o) by { hide Inv, Leads, Clear, OnePerKey; NodeInv(t, c); }
    hide Inv, Leads, Clear, Through, EntryLands, AlreadyApplied, OnePerKey, Waits;
    if o == map[] {
      u := t;
    } else {
      var id :| id in o;
      var mid := Landed(s, t, c, id);
      ThroughStaysClear(t, mid, c, id);
      u := DrainedMine(s, mid, c);
      LandsTogether(t, mid, c, id, u.world.server.rows);
    }
  }

  lemma ReleasedLands(s: Server, rows: map<Key, Row>, o: Outbox)
    requires AllLand(s, rows, ReleaseAuthenticationBlocks(o))
    ensures AllLand(s, rows, o)
  {
    var q := ReleaseAuthenticationBlocks(o);
    forall id | id in o ensures EntryLands(rows, o[id]) || AlreadyApplied(s, id, o[id]) {
      assert id in q && q[id] == o[id].(status := q[id].status);
    }
  }

  /** Whatever happened so far, a client without a stuck delete has a continuation that keeps its own side
    * of every conflict: each waiting edit ends in its server row and each waiting delete is carried out,
    * and then both sides agree. */
  lemma CanKeepMine(s: Sys, c: ClientId) returns (t: Sys)
    requires Reachable(s) && c in s.nodes && NoneStuck(s, c)
    ensures Leads(s, t) && Reachable(t) && c in t.nodes && Converged(t, c)
    ensures AllLand(s.world.server, t.world.server.rows, s.nodes[c].db.outbox)
    ensures forall k :: Live(t.nodes[c].db, k) <==> k in t.world.server.rows && !t.world.server.rows[k].copy.deleted
  {
    hide Inv, Leads, Clear, Reachable, NoneStuck, AllLand, ReleaseAuthenticationBlocks;
    ReachableInv(s);
    var ready := Ready(s, c);
    var drained := DrainedMine(s, ready, c);
    ReleasedLands(s.world.server, drained.world.server.rows, s.nodes[c].db.outbox);
    t := CaughtUp(s, drained, c);
    LeadsReaches(s, t);
    Convergence(t, c);
  }
}
