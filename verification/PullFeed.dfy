/** The change feed of one project, read in pages under a fixed snapshot. */
module PullFeed {
  import opened Protocol
  import opened PushRules

  type Rows = map<Key, Row>

  datatype Item = Item(key: Key, row: Row)

  datatype Page = Page(items: seq<Item>, more: bool, cursor: nat)

  predicate DistinctSequences(rows: Rows) {
    forall j, k :: j in rows && k in rows && j != k ==> rows[j].sequence != rows[k].sequence
  }

  predicate Within(rows: Rows, kind: Kind, lo: nat, hi: nat, k: Key) {
    k in rows && k.kind == kind && lo < rows[k].sequence <= hi
  }

  /** The rows of one kind with lo < sequence <= hi, in sequence order. */
  function Feed(rows: Rows, kind: Kind, lo: nat, hi: nat): seq<Item>
    requires DistinctSequences(rows)
  {
    if hi <= lo then []
    else Feed(rows, kind, lo, hi - 1) + RowAt(rows, kind, hi)
  }

  function RowAt(rows: Rows, kind: Kind, sequence: nat): seq<Item>
    requires DistinctSequences(rows)
  {
    if k :| k in rows && k.kind == kind && rows[k].sequence == sequence then [Item(k, rows[k])] else []
  }

  predicate Holds(rows: Rows, kind: Kind, lo: nat, hi: nat, it: Item) {
    Within(rows, kind, lo, hi, it.key) && rows[it.key] == it.row
  }

  ghost predicate Ordered(items: seq<Item>) {
    forall i, j :: 0 <= i < j < |items| ==> items[i].row.sequence < items[j].row.sequence
  }

  lemma OrderedConcat(a: seq<Item>, b: seq<Item>, mid: nat)
    requires Ordered(a) && Ordered(b)
    requires forall it :: it in a ==> it.row.sequence <= mid
    requires forall it :: it in b ==> mid < it.row.sequence
    ensures Ordered(a + b)
  {
    forall i, j | 0 <= i < j < |a + b| ensures (a + b)[i].row.sequence < (a + b)[j].row.sequence {
      if i < |a| <= j {
        assert (a + b)[i] in a && (a + b)[j] in b;
      }
    }
  }

  lemma {:induction false} FeedExact(rows: Rows, kind: Kind, lo: nat, hi: nat)
    requires DistinctSequences(rows)
    ensures forall it :: it in Feed(rows, kind, lo, hi) <==> Holds(rows, kind, lo, hi, it)
    ensures Ordered(Feed(rows, kind, lo, hi))
  {
    if hi > lo {
      FeedExact(rows, kind, lo, hi - 1);
      OrderedConcat(Feed(rows, kind, lo, hi - 1), RowAt(rows, kind, hi), hi - 1);
    }
  }

  lemma {:induction false} FeedSplit(rows: Rows, kind: Kind, lo: nat, mid: nat, hi: nat)
    requires DistinctSequences(rows) && lo <= mid <= hi
    ensures Feed(rows, kind, lo, hi) == Feed(rows, kind, lo, mid) + Feed(rows, kind, mid, hi)
  {
    if hi > mid {
      FeedSplit(rows, kind, lo, mid, hi - 1);
    }
  }

  // ----- One page -----

  function Cursor(items: seq<Item>, lo: nat): nat {
    if items == [] then lo else items[|items| - 1].row.sequence
  }

  /** Fetch one row beyond the limit to learn whether more remain, then drop it. */
  function PullPage(rows: Rows, kind: Kind, lo: nat, hi: nat, limit: Option<nat>): Page
    requires DistinctSequences(rows)
  {
    var matching := Feed(rows, kind, lo, hi);
    var fetched := if limit.Some? && limit.value + 1 < |matching| then matching[..limit.value + 1] else matching;
    var more := limit.Some? && |fetched| > limit.value;
    var items := if more then fetched[..limit.value] else fetched;
    Page(items, more, Cursor(items, lo))
  }

  lemma {:induction false} PrefixIsFeed(rows: Rows, kind: Kind, lo: nat, hi: nat, n: nat)
    requires DistinctSequences(rows) && lo <= hi && n <= |Feed(rows, kind, lo, hi)|
    ensures var prefix := Feed(rows, kind, lo, hi)[..n];
      && lo <= Cursor(prefix, lo) <= hi
      && (n > 0 ==> lo < Cursor(prefix, lo))
      && prefix == Feed(rows, kind, lo, Cursor(prefix, lo))
  {
    var feed := Feed(rows, kind, lo, hi);
    if hi > lo {
      var shorter := Feed(rows, kind, lo, hi - 1);
      if n <= |shorter| {
        PrefixIsFeed(rows, kind, lo, hi - 1, n);
        assert feed[..n] == shorter[..n];
      } else {
        assert feed[..n] == feed;
      }
    }
  }

  /** A page is exactly the feed up to its cursor; the last page reaches the snapshot. */
  lemma PageExact(rows: Rows, kind: Kind, lo: nat, hi: nat, limit: Option<nat>)
    requires DistinctSequences(rows) && lo <= hi && (limit.Some? ==> limit.value >= 1)
    ensures var p := PullPage(rows, kind, lo, hi, limit);
      && lo <= p.cursor <= hi
      && p.items == Feed(rows, kind, lo, p.cursor)
      && (p.more ==> lo < p.cursor)
      && (!p.more ==> Feed(rows, kind, p.cursor, hi) == [])
  {
    var p := PullPage(rows, kind, lo, hi, limit);
    var feed := Feed(rows, kind, lo, hi);
    assert p.items == feed[..|p.items|];
    PrefixIsFeed(rows, kind, lo, hi, |p.items|);
    FeedSplit(rows, kind, lo, p.cursor, hi);
  }

  // ----- A pull of every kind, page by page -----

  datatype Progress = Progress(cursor: nat, items: seq<Item>, more: bool)

  /** `at` is history only: the rows as they stood when the snapshot was fixed. */
  datatype Pull = Pull(since: nat, snapshot: nat, feeds: map<Kind, Progress>, at: Rows)

  function Kinds(): set<Kind> {
    {Risk, Opportunity, Action, Assessment, Ticket}
  }

  lemma EveryKind(kind: Kind)
    ensures kind in Kinds()
  {
    match kind
    case _ =>
  }

  /** The counter has been read and fixes the snapshot; no row has. */
  function Opened(rows: Rows, last: nat, since: nat): Pull {
    Pull(since, last, map kind | kind in Kinds() :: Progress(since, [], true), rows)
  }

  /** One kind read on from its cursor, among the rows that query sees. */
  function NextOf(p: Pull, kind: Kind, rows: Rows, limit: Option<nat>): Progress
    requires kind in p.feeds && DistinctSequences(rows)
  {
    var page := PullPage(rows, kind, p.feeds[kind].cursor, p.snapshot, limit);
    Progress(page.cursor, p.feeds[kind].items + page.items, page.more)
  }

  function KindPage(p: Pull, kind: Kind, rows: Rows, limit: Option<nat>): Pull
    requires kind in p.feeds && DistinctSequences(rows)
  {
    p.(feeds := p.feeds[kind := NextOf(p, kind, rows, limit)])
  }

  /** The rows as each kind's query of one request sees them. */
  type Views = map<Kind, Rows>

  predicate Readable(views: Views) {
    views.Keys == Kinds() && forall kind :: kind in views ==> DistinctSequences(views[kind])
  }

  function NextPage(p: Pull, views: Views, limit: Option<nat>): Pull
    requires p.feeds.Keys == Kinds() && Readable(views)
  {
    p.(feeds := map kind | kind in p.feeds :: NextOf(p, kind, views[kind], limit))
  }

  predicate Finished(p: Pull) {
    forall kind :: kind in p.feeds ==> !p.feeds[kind].more
  }

  // ----- What every page keeps while other writers run -----

  /** Between two reads rows only move to sequences above the first read's counter. */
  ghost predicate Later(at: Rows, snapshot: nat, now: Rows) {
    && (forall k :: k in at ==> k in now && at[k].sequence <= snapshot)
    && (forall k :: k in now && now[k].sequence <= snapshot ==> k in at && at[k] == now[k])
  }

  ghost predicate FeedSound(p: Pull, kind: Kind)
    requires kind in p.feeds
  {
    var f := p.feeds[kind];
    && p.since <= f.cursor <= p.snapshot
    && (forall it :: it in f.items ==> Holds(p.at, kind, p.since, f.cursor, it))
    && Ordered(f.items)
  }

  ghost predicate FeedComplete(p: Pull, kind: Kind, now: Rows)
    requires kind in p.feeds
  {
    var f := p.feeds[kind];
    && (forall k :: Within(now, kind, p.since, f.cursor, k) ==> Item(k, now[k]) in f.items)
    && (!f.more ==> forall k :: !Within(now, kind, f.cursor, p.snapshot, k))
  }

  ghost predicate PullOk(p: Pull, now: Rows) {
    && p.since <= p.snapshot
    && p.feeds.Keys == Kinds()
    && Later(p.at, p.snapshot, now)
    && (forall kind :: kind in p.feeds ==> FeedSound(p, kind) && FeedComplete(p, kind, now))
  }

  /** The rows a query saw, as far as the snapshot's rows still stand, stand in `now` too. */
  ghost predicate Before(seen: Rows, snapshot: nat, now: Rows) {
    forall k :: k in now && now[k].sequence <= snapshot ==> k in seen && seen[k] == now[k]
  }

  lemma CompleteStays(p: Pull, kind: Kind, seen: Rows, now: Rows)
    requires kind in p.feeds && p.since <= p.feeds[kind].cursor <= p.snapshot && FeedComplete(p, kind, seen)
    requires Before(seen, p.snapshot, now)
    ensures FeedComplete(p, kind, now)
  {
    var f := p.feeds[kind];
    forall k | Within(now, kind, p.since, f.cursor, k) ensures Item(k, now[k]) in f.items {
      assert Within(seen, kind, p.since, f.cursor, k);
    }
    forall k | !f.more ensures !Within(now, kind, f.cursor, p.snapshot, k) {
      assert !Within(seen, kind, f.cursor, p.snapshot, k);
    }
  }

  /** Other writers running between two requests never spoil the pages already read. */
  lemma WritersKeepPull(p: Pull, now: Rows, last: nat, later: Rows)
    requires PullOk(p, now) && Later(now, last, later) && p.snapshot <= last
    ensures PullOk(p, later)
  {
    hide Within, Ordered;
    forall kind | kind in p.feeds ensures FeedComplete(p, kind, later) {
      assert FeedSound(p, kind);
      CompleteStays(p, kind, now, later);
    }
  }

  ghost predicate ReadSoFar(p: Pull, kind: Kind, now: Rows)
    requires kind in p.feeds
  {
    && FeedSound(p, kind)
    && (forall k :: Within(now, kind, p.since, p.feeds[kind].cursor, k) ==> Item(k, now[k]) in p.feeds[kind].items)
  }

  lemma PageKeepsSound(p: Pull, kind: Kind, now: Rows, q: Pull, page: seq<Item>)
    requires kind in p.feeds && kind in q.feeds && FeedSound(p, kind) && Later(p.at, p.snapshot, now)
    requires q.at == p.at && q.since == p.since && q.snapshot == p.snapshot
    requires p.feeds[kind].cursor <= q.feeds[kind].cursor <= p.snapshot
    requires forall it :: it in page ==> Holds(now, kind, p.feeds[kind].cursor, q.feeds[kind].cursor, it)
    requires Ordered(page) && q.feeds[kind].items == p.feeds[kind].items + page
    ensures FeedSound(q, kind)
  {
    OrderedConcat(p.feeds[kind].items, page, p.feeds[kind].cursor);
    forall it | it in q.feeds[kind].items
      ensures Holds(q.at, kind, q.since, q.feeds[kind].cursor, it)
    {
      assert it in p.feeds[kind].items || it in page;
    }
  }

  lemma PageKeepsComplete(p: Pull, kind: Kind, now: Rows, q: Pull, page: seq<Item>)
    requires kind in p.feeds && kind in q.feeds && ReadSoFar(p, kind, now)
    requires q.since == p.since && q.snapshot == p.snapshot
    requires q.feeds[kind].items == p.feeds[kind].items + page
    requires forall it :: Holds(now, kind, p.feeds[kind].cursor, q.feeds[kind].cursor, it) ==> it in page
    requires !q.feeds[kind].more ==> forall k :: !Within(now, kind, q.feeds[kind].cursor, p.snapshot, k)
    ensures FeedComplete(q, kind, now)
  {
    var f, g := p.feeds[kind], q.feeds[kind];
    forall k | Within(now, kind, p.since, g.cursor, k) ensures Item(k, now[k]) in g.items {
      assert Within(now, kind, p.since, f.cursor, k) || Holds(now, kind, f.cursor, g.cursor, Item(k, now[k]));
    }
  }

  lemma PageKeepsFeed(p: Pull, kind: Kind, now: Rows, limit: Option<nat>, q: Pull)
    requires DistinctSequences(now) && (limit.Some? ==> limit.value >= 1)
    requires kind in p.feeds && Later(p.at, p.snapshot, now) && ReadSoFar(p, kind, now)
    requires q == p.(feeds := q.feeds) && kind in q.feeds && q.feeds[kind] == NextOf(p, kind, now, limit)
    ensures FeedSound(q, kind) && FeedComplete(q, kind, now)
  {
    hide DistinctSequences, Later, Ordered, FeedComplete, PullPage, Feed, Holds, Within;
    var f := p.feeds[kind];
    var page := PullPage(now, kind, f.cursor, p.snapshot, limit);
    PageExact(now, kind, f.cursor, p.snapshot, limit);
    FeedExact(now, kind, f.cursor, page.cursor);
    PageKeepsSound(p, kind, now, q, page.items);
    if !page.more {
      NoneWithin(now, kind, page.cursor, p.snapshot);
    }
    PageKeepsComplete(p, kind, now, q, page.items);
  }

  lemma NoneWithin(rows: Rows, kind: Kind, lo: nat, hi: nat)
    requires DistinctSequences(rows) && Feed(rows, kind, lo, hi) == []
    ensures forall k :: !Within(rows, kind, lo, hi, k)
  {
    FeedExact(rows, kind, lo, hi);
    forall k ensures !Within(rows, kind, lo, hi, k) {
      if Within(rows, kind, lo, hi, k) {
        assert Holds(rows, kind, lo, hi, Item(k, rows[k]));
      }
    }
  }

  lemma OpenedOk(rows: Rows, last: nat, since: nat)
    requires since <= last && forall k :: k in rows ==> rows[k].sequence <= last
    ensures PullOk(Opened(rows, last, since), rows)
  {
  }

  /** One query of one kind, among the rows of that moment. */
  lemma KindPageKeeps(p: Pull, kind: Kind, now: Rows, limit: Option<nat>)
    requires PullOk(p, now) && kind in p.feeds && DistinctSequences(now) && (limit.Some? ==> limit.value >= 1)
    ensures PullOk(KindPage(p, kind, now, limit), now)
  {
    hide DistinctSequences, PullPage, NextOf, Later, Within, Holds, Ordered;
    var q := KindPage(p, kind, now, limit);
    PageKeepsFeed(p, kind, now, limit, q);
    forall other | other in q.feeds && other != kind ensures FeedSound(q, other) && FeedComplete(q, other, now) {
      assert FeedSound(p, other) && FeedComplete(p, other, now);
    }
  }

  /** One more page of every kind, each kind read at a moment of its own. */
  lemma NextPageKeeps(p: Pull, views: Views, now: Rows, limit: Option<nat>)
    requires p.since <= p.snapshot && p.feeds.Keys == Kinds() && Readable(views) && (limit.Some? ==> limit.value >= 1)
    requires forall kind :: kind in p.feeds ==>
      Later(p.at, p.snapshot, views[kind]) && ReadSoFar(p, kind, views[kind]) && Before(views[kind], p.snapshot, now)
    requires Later(p.at, p.snapshot, now)
    ensures PullOk(NextPage(p, views, limit), now)
  {
    hide NextOf, Later, DistinctSequences, Within, Holds, Ordered;
    var q := NextPage(p, views, limit);
    forall kind | kind in p.feeds ensures FeedSound(q, kind) && FeedComplete(q, kind, now) {
      PageKeepsFeed(p, kind, views[kind], limit, q);
      CompleteStays(q, kind, views[kind], now);
    }
  }

  /** What a kind holds stood so at the snapshot. */
  lemma ItemsStood(p: Pull, kind: Kind, it: Item)
    requires kind in p.feeds && FeedSound(p, kind) && it in p.feeds[kind].items
    ensures it.key in p.at && it.key.kind == kind && p.at[it.key] == it.row && p.since < it.row.sequence <= p.snapshot
  {
    hide Ordered;
  }

  lemma ItemsApart(p: Pull, kind: Kind, i: int, j: int)
    requires kind in p.feeds && FeedSound(p, kind) && 0 <= i < j < |p.feeds[kind].items|
    ensures p.feeds[kind].items[i].row.sequence < p.feeds[kind].items[j].row.sequence
    ensures p.feeds[kind].items[i].key != p.feeds[kind].items[j].key
  {
    var items := p.feeds[kind].items;
    assert items[i] in items && items[j] in items;
  }

  lemma NoneMissed(p: Pull, now: Rows, k: Key)
    requires k.kind in p.feeds && FeedComplete(p, k.kind, now) && !p.feeds[k.kind].more && Later(p.at, p.snapshot, now)
    requires k in p.at && p.since < p.at[k].sequence && k in now && now[k].sequence <= p.snapshot
    ensures Item(k, p.at[k]) in p.feeds[k.kind].items
  {
    assert !Within(now, k.kind, p.feeds[k.kind].cursor, p.snapshot, k);
    assert Within(now, k.kind, p.since, p.feeds[k.kind].cursor, k);
  }

  /** A finished pull holds only rows as they stood at the snapshot, each once and in sequence
    * order; a row of that snapshot it does not hold has moved to a later sequence. */
  lemma FinishedPull(p: Pull, now: Rows)
    requires PullOk(p, now) && Finished(p)
    ensures forall kind, it :: kind in p.feeds && it in p.feeds[kind].items ==>
      it.key in p.at && it.key.kind == kind && p.at[it.key] == it.row && p.since < it.row.sequence <= p.snapshot
    ensures forall kind, i, j :: kind in p.feeds && 0 <= i < j < |p.feeds[kind].items| ==>
      p.feeds[kind].items[i].row.sequence < p.feeds[kind].items[j].row.sequence
      && p.feeds[kind].items[i].key != p.feeds[kind].items[j].key
    ensures forall k :: k in p.at && p.since < p.at[k].sequence <= p.snapshot ==>
      Item(k, p.at[k]) in p.feeds[k.kind].items || (k in now && now[k].sequence > p.snapshot)
  {
    hide FeedSound, FeedComplete;
    forall kind, it | kind in p.feeds && it in p.feeds[kind].items
      ensures it.key in p.at && it.key.kind == kind && p.at[it.key] == it.row && p.since < it.row.sequence <= p.snapshot
    {
      ItemsStood(p, kind, it);
    }
    forall kind, i, j | kind in p.feeds && 0 <= i < j < |p.feeds[kind].items|
      ensures p.feeds[kind].items[i].row.sequence < p.feeds[kind].items[j].row.sequence
      ensures p.feeds[kind].items[i].key != p.feeds[kind].items[j].key
    {
      ItemsApart(p, kind, i, j);
    }
    forall kind: Kind ensures kind in p.feeds {
      EveryKind(kind);
    }
    forall k | k in p.at && p.since < p.at[k].sequence <= p.snapshot && k in now && now[k].sequence <= p.snapshot
      ensures Item(k, p.at[k]) in p.feeds[k.kind].items
    {
      NoneMissed(p, now, k);
    }
  }
}
