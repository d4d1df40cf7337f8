/** Paging over the wire: cursors as text, the server's checks and the client's loop. */
module PagedPull {
  import opened Protocol
  import opened PushRules
  import opened PullFeed
  import Decimal

  // ----- Cursors -----

  function CursorText(sequence: nat): string {
    "seq:" + Decimal.Print(sequence)
  }

  /** A missing cursor starts at `since`; any other must be `seq:<n>` within the snapshot. */
  function ParseCursor(cur: Option<string>, since: nat, snapshot: nat): Option<nat> {
    if cur.None? || cur.value == "" then Some(since)
    else if |cur.value| > 4 && cur.value[..4] == "seq:" && Decimal.AllDigits(cur.value[4..]) then
      var n := Decimal.Value(cur.value[4..]);
      if since <= n <= snapshot then Some(n) else None
    else None
  }

  /** What the server prints, it accepts: the same number, if that lies in the snapshot. */
  lemma PrintedCursorParses(n: nat, since: nat, snapshot: nat)
    ensures ParseCursor(Some(CursorText(n)), since, snapshot) == if since <= n <= snapshot then Some(n) else None
  {
    Decimal.PrintedValue(n, 0);
    assert CursorText(n)[4..] == Decimal.Print(n);
  }

  lemma CursorTextsDiffer(m: nat, n: nat)
    requires CursorText(m) == CursorText(n)
    ensures m == n
  {
    var high := if m <= n then n else m;
    PrintedCursorParses(m, 0, high);
    PrintedCursorParses(n, 0, high);
  }

  // ----- One request -----

  /** The project at one moment. */
  datatype Moment = Moment(rows: Rows, last: nat)

  /** The project as one request sees it: the counter first, then each kind by a query of its own. */
  datatype View = View(views: Views, last: nat)

  datatype Request = Request(since: int, limit: Option<nat>, cursors: map<Kind, string>, snapshot: Option<int>)

  datatype PageOut = PageOut(items: seq<Item>, more: bool, cursor: string)

  datatype Reply = Pages(sequence: nat, pages: map<Kind, PageOut>) | Refusal(status: nat)

  function CursorOf(cursors: map<Kind, string>, kind: Kind): Option<string> {
    if kind in cursors then Some(cursors[kind]) else None
  }

  predicate InSnapshot(view: View, req: Request) {
    && req.since >= 0
    && (req.snapshot.Some? ==> req.since <= req.snapshot.value <= view.last)
    && (req.snapshot.None? ==> req.since <= view.last)
  }

  function SnapshotOf(view: View, req: Request): nat
    requires InSnapshot(view, req)
  {
    if req.snapshot.Some? then req.snapshot.value else view.last
  }

  /** One page per kind, or 400 for a request outside the feed, or 413 above the cap. */
  function ServePull(view: View, req: Request, cap: nat): Reply
    requires Readable(view.views)
  {
    if !InSnapshot(view, req) then Refusal(400)
    else
      var snapshot := SnapshotOf(view, req);
      if exists kind :: kind in Kinds() && ParseCursor(CursorOf(req.cursors, kind), req.since, snapshot).None?
      then Refusal(400)
      else
        var limit := if req.limit.Some? then req.limit else Some(cap);
        var pages := map kind | kind in Kinds() ::
          var lo := ParseCursor(CursorOf(req.cursors, kind), req.since, snapshot).value;
          var page := PullPage(view.views[kind], kind, lo, snapshot, limit);
          PageOut(page.items, page.more, CursorText(page.cursor));
        if req.limit.None? && exists kind :: kind in pages && pages[kind].more then Refusal(413)
        else Pages(snapshot, pages)
  }

  /** The request that continues pull `p`; the first page carries no cursors. */
  ghost predicate Continues(p: Pull, req: Request, limit: nat) {
    && req.since == p.since && req.limit == Some(limit)
    && (forall kind :: kind in req.cursors ==> kind in p.feeds && req.cursors[kind] == CursorText(p.feeds[kind].cursor))
    && (forall kind :: kind in p.feeds && kind !in req.cursors ==> p.feeds[kind].cursor == p.since)
  }

  /** Over text cursors the server returns exactly the pages of the feed model. */
  lemma ServedPages(view: View, p: Pull, req: Request, limit: nat, cap: nat)
    requires Readable(view.views) && p.feeds.Keys == Kinds() && Continues(p, req, limit)
    requires p.since <= p.snapshot <= view.last
    requires req.snapshot == Some(p.snapshot) || (req.snapshot.None? && p.snapshot == view.last)
    requires forall kind :: kind in p.feeds ==> p.since <= p.feeds[kind].cursor <= p.snapshot
    ensures var reply := ServePull(view, req, cap);
      && reply.Pages? && reply.sequence == p.snapshot && reply.pages.Keys == Kinds()
      && (forall kind :: kind in Kinds() ==>
          var page := PullPage(view.views[kind], kind, p.feeds[kind].cursor, p.snapshot, Some(limit));
          reply.pages[kind] == PageOut(page.items, page.more, CursorText(page.cursor)))
  {
    hide PullPage, DistinctSequences, ParseCursor, CursorText;
    forall kind | kind in Kinds()
      ensures ParseCursor(CursorOf(req.cursors, kind), req.since, p.snapshot) == Some(p.feeds[kind].cursor)
    {
      PrintedCursorParses(p.feeds[kind].cursor, p.since, p.snapshot);
      NoCursor(p.since, p.snapshot);
    }
  }

  lemma NoCursor(since: nat, snapshot: nat)
    ensures ParseCursor(None, since, snapshot) == Some(since)
  {
  }

  // ----- The client's loop -----

  /** The feed a client may meet: other writers run between any two queries. */
  ghost predicate Writers(world: nat -> Moment) {
    && (forall i :: DistinctSequences(world(i).rows) && forall k :: k in world(i).rows ==> world(i).rows[k].sequence <= world(i).last)
    && (forall i, j :: i <= j ==> world(i).last <= world(j).last && Later(world(i).rows, world(i).last, world(j).rows))
  }

  function Place(kind: Kind): nat {
    match kind
    case Risk => 1
    case Opportunity => 2
    case Action => 3
    case Assessment => 4
    case Ticket => 5
  }

  /** The n-th request runs six queries, each at a moment of its own. */
  function Seen(world: nat -> Moment, n: nat): View {
    View(map kind | kind in Kinds() :: world(6 * n + Place(kind)).rows, world(6 * n).last)
  }

  function Left(p: Pull, kind: Kind): int {
    if kind in p.feeds then p.snapshot - p.feeds[kind].cursor else 0
  }

  /** Sequences the cursors still have to cross. */
  function Remaining(p: Pull): int {
    Left(p, Risk) + Left(p, Opportunity) + Left(p, Action) + Left(p, Assessment) + Left(p, Ticket)
  }

  lemma PageAdvances(p: Pull, views: Views, limit: nat)
    requires Readable(views) && p.feeds.Keys == Kinds() && limit >= 1
    requires forall kind :: kind in p.feeds ==> p.feeds[kind].cursor <= p.snapshot
    ensures var q := NextPage(p, views, Some(limit));
      && (forall kind :: kind in q.feeds ==> p.feeds[kind].cursor <= q.feeds[kind].cursor <= p.snapshot)
      && (forall kind :: kind in q.feeds && q.feeds[kind].more ==> p.feeds[kind].cursor < q.feeds[kind].cursor)
      && 0 <= Remaining(q) <= Remaining(p)
      && (!Finished(q) ==> Remaining(q) < Remaining(p))
  {
    hide PullPage, DistinctSequences;
    var q := NextPage(p, views, Some(limit));
    forall kind | kind in q.feeds
      ensures p.feeds[kind].cursor <= q.feeds[kind].cursor <= p.snapshot
      ensures q.feeds[kind].more ==> p.feeds[kind].cursor < q.feeds[kind].cursor
    {
      PageExact(views[kind], kind, p.feeds[kind].cursor, p.snapshot, Some(limit));
    }
    assert Risk in p.feeds && Opportunity in p.feeds && Action in p.feeds && Assessment in p.feeds && Ticket in p.feeds;
    if !Finished(q) {
      var kind :| kind in q.feeds && q.feeds[kind].more;
      assert kind in Kinds();
    }
  }

  /** What the client has after some pages. */
  datatype Progressed = Progressed(cursors: map<Kind, string>, snapshot: Option<int>, items: map<Kind, seq<Item>>)

  datatype Turn = More(next: Progressed) | Done(all: Progressed) | Failed(status: nat) | SnapshotMoved | Stalled

  const NoPages := Progressed(map[], None, map kind | kind in Kinds() :: [])

  /** Check one reply against the snapshot and the cursors, and merge its rows. */
  function TakePage(c: Progressed, reply: Reply): Turn
    requires c.items.Keys == Kinds() && (reply.Pages? ==> reply.pages.Keys == Kinds())
  {
    if reply.Refusal? then Failed(reply.status)
    else if c.snapshot.Some? && c.snapshot.value != reply.sequence then SnapshotMoved
    else
      var items := map kind | kind in Kinds() :: c.items[kind] + reply.pages[kind].items;
      var cursors := map kind | kind in Kinds() :: reply.pages[kind].cursor;
      if forall kind :: kind in Kinds() ==> !reply.pages[kind].more
      then Done(Progressed(c.cursors, Some(reply.sequence), items))
      else if Stalls(reply.pages, c.cursors) then Stalled
      else More(Progressed(cursors, Some(reply.sequence), items))
  }

  ghost function StartOf(since: nat, first: Moment): Pull {
    Opened(first.rows, first.last, since)
  }

  predicate Stalls(pages: map<Kind, PageOut>, cursors: map<Kind, string>) {
    exists kind :: kind in pages && pages[kind].more
      && (pages[kind].cursor == "" || CursorOf(cursors, kind) == Some(pages[kind].cursor))
  }

  lemma NeverStalls(p: Pull, views: Views, req: Request, limit: nat, pages: map<Kind, PageOut>)
    requires Readable(views) && p.feeds.Keys == Kinds() && Continues(p, req, limit) && limit >= 1
    requires pages.Keys == Kinds() && forall kind :: kind in p.feeds ==> p.feeds[kind].cursor <= p.snapshot
    requires forall kind :: kind in Kinds() ==>
      var page := PullPage(views[kind], kind, p.feeds[kind].cursor, p.snapshot, Some(limit));
      pages[kind] == PageOut(page.items, page.more, CursorText(page.cursor))
    ensures !Stalls(pages, req.cursors)
  {
    hide PullPage, DistinctSequences, CursorText;
    forall kind | kind in pages && pages[kind].more
      ensures pages[kind].cursor != "" && CursorOf(req.cursors, kind) != Some(pages[kind].cursor)
    {
      var lo := p.feeds[kind].cursor;
      PageExact(views[kind], kind, lo, p.snapshot, Some(limit));
      var hi := PullPage(views[kind], kind, lo, p.snapshot, Some(limit)).cursor;
      assert CursorText(hi) != "" by { NotEmpty(hi); }
      if CursorText(lo) == CursorText(hi) {
        CursorTextsDiffer(lo, hi);
      }
    }
  }

  lemma NotEmpty(n: nat)
    ensures CursorText(n) != ""
  {
  }

  /** With no writers at all, the pages so far are one uncapped read up to their cursors. */
  ghost predicate AllFeeds(p: Pull, rows: Rows)
    requires DistinctSequences(rows)
  {
    forall kind :: kind in p.feeds ==>
      p.feeds[kind].cursor >= p.since && p.feeds[kind].items == Feed(rows, kind, p.since, p.feeds[kind].cursor)
  }

  lemma PageKeepsFeeds(p: Pull, views: Views, rows: Rows, limit: nat)
    requires p.feeds.Keys == Kinds() && Readable(views) && forall kind :: kind in views ==> views[kind] == rows
    requires DistinctSequences(rows) && AllFeeds(p, rows) && limit >= 1
    requires forall kind :: kind in p.feeds ==> p.feeds[kind].cursor <= p.snapshot
    ensures AllFeeds(NextPage(p, views, Some(limit)), rows)
    ensures var q := NextPage(p, views, Some(limit));
      forall kind :: kind in q.feeds && !q.feeds[kind].more ==> q.feeds[kind].items == Feed(rows, kind, p.since, p.snapshot)
  {
    hide DistinctSequences, PullPage, Feed;
    var q := NextPage(p, views, Some(limit));
    forall kind | kind in p.feeds
      ensures q.feeds[kind].cursor >= p.since
      ensures q.feeds[kind].items == Feed(rows, kind, p.since, q.feeds[kind].cursor)
      ensures !q.feeds[kind].more ==> q.feeds[kind].items == Feed(rows, kind, p.since, p.snapshot)
    {
      PageExact(rows, kind, p.feeds[kind].cursor, p.snapshot, Some(limit));
      FeedSplit(rows, kind, p.since, p.feeds[kind].cursor, q.feeds[kind].cursor);
      FeedSplit(rows, kind, p.since, q.feeds[kind].cursor, p.snapshot);
    }
  }

  /** The loop's state stands for pull `p` after `n` requests. */
  ghost predicate Reading(world: nat -> Moment, p: Pull, c: Progressed, n: nat, limit: nat)
    requires Writers(world)
  {
    && p.at == world(0).rows && p.since <= p.snapshot == world(0).last && p.feeds.Keys == Kinds()
    && Continues(p, Request(p.since, Some(limit), c.cursors, c.snapshot), limit)
    && c.items == (map kind | kind in Kinds() :: p.feeds[kind].items)
    && c.snapshot == (if n == 0 then None else Some(p.snapshot))
    && PullOk(p, world(if n == 0 then 0 else 6 * n - 1).rows)
    && (n == 0 ==> p == StartOf(p.since, world(0)))
  }

  lemma MomentIsOk(world: nat -> Moment, i: nat)
    requires Writers(world)
    ensures DistinctSequences(world(i).rows) && forall k :: k in world(i).rows ==> world(i).rows[k].sequence <= world(i).last
  {
    hide DistinctSequences;
  }

  lemma LaterMoment(world: nat -> Moment, i: nat, j: nat)
    requires Writers(world) && i <= j
    ensures world(i).last <= world(j).last && Later(world(i).rows, world(i).last, world(j).rows)
  {
    hide DistinctSequences, Later;
  }

  lemma StartIsReading(world: nat -> Moment, since: nat, limit: nat)
    requires Writers(world) && since <= world(0).last
    ensures DistinctSequences(world(0).rows) && Reading(world, StartOf(since, world(0)), NoPages, 0, limit)
    ensures AllFeeds(StartOf(since, world(0)), world(0).rows)
    ensures var p := StartOf(since, world(0));
      p.since == since && p.at == world(0).rows && p.snapshot == world(0).last && p.feeds.Keys == Kinds()
  {
    hide Writers, DistinctSequences, PullOk;
    MomentIsOk(world, 0);
    OpenedOk(world(0).rows, world(0).last, since);
  }

  lemma SeenIsReadable(world: nat -> Moment, n: nat)
    requires Writers(world)
    ensures Readable(Seen(world, n).views)
    ensures forall kind :: kind in Kinds() ==> Seen(world, n).views[kind] == world(6 * n + Place(kind)).rows
  {
    hide Writers, DistinctSequences, Place;
    forall kind | kind in Kinds() ensures DistinctSequences(Seen(world, n).views[kind]) {
      MomentIsOk(world, 6 * n + Place(kind));
    }
  }

  /** What each query of the n-th request finds is what the pull has read so far, up to its cursors. */
  lemma ReadBefore(world: nat -> Moment, p: Pull, c: Progressed, n: nat, limit: nat, at: nat)
    requires Writers(world) && Reading(world, p, c, n, limit) && at >= (if n == 0 then 0 else 6 * n - 1)
    ensures Later(p.at, p.snapshot, world(at).rows) && p.snapshot <= world(at).last
    ensures forall kind :: kind in p.feeds ==> ReadSoFar(p, kind, world(at).rows)
    ensures forall kind :: kind in p.feeds ==> p.since <= p.feeds[kind].cursor <= p.snapshot
  {
    hide Writers, DistinctSequences, Continues;
    var before := if n == 0 then 0 else 6 * n - 1;
    LaterMoment(world, before, at);
    SnapshotWithin(world, p, c, n, limit);
    WritersKeepPull(p, world(before).rows, world(before).last, world(at).rows);
  }

  lemma SnapshotWithin(world: nat -> Moment, p: Pull, c: Progressed, n: nat, limit: nat)
    requires Writers(world) && Reading(world, p, c, n, limit)
    ensures p.snapshot <= world(if n == 0 then 0 else 6 * n - 1).last
  {
    hide Writers, PullOk, Continues;
    LaterMoment(world, 0, if n == 0 then 0 else 6 * n - 1);
  }

  /** The reply holds the next pages of `p`. */
  ghost predicate Answers(p: Pull, views: Views, limit: nat, reply: Reply)
    requires Readable(views) && p.feeds.Keys == Kinds()
  {
    && reply.Pages? && reply.sequence == p.snapshot && reply.pages.Keys == Kinds()
    && (forall kind :: kind in Kinds() ==>
        var page := PullPage(views[kind], kind, p.feeds[kind].cursor, p.snapshot, Some(limit));
        reply.pages[kind] == PageOut(page.items, page.more, CursorText(page.cursor)))
  }

  lemma ReplyAnswers(world: nat -> Moment, p: Pull, c: Progressed, n: nat, limit: nat, cap: nat)
    requires Writers(world) && Reading(world, p, c, n, limit) && limit >= 1 && Readable(Seen(world, n).views)
    ensures var reply := ServePull(Seen(world, n), Request(p.since, Some(limit), c.cursors, c.snapshot), cap);
      Answers(p, Seen(world, n).views, limit, reply) && !Stalls(reply.pages, c.cursors)
  {
    hide Writers, DistinctSequences, ServePull, PullPage, PullOk, Later, ReadSoFar, Stalls, CursorText;
    var view, req := Seen(world, n), Request(p.since, Some(limit), c.cursors, c.snapshot);
    ReadBefore(world, p, c, n, limit, 6 * n);
    ServedPages(view, p, req, limit, cap);
    NeverStalls(p, view.views, req, limit, ServePull(view, req, cap).pages);
  }

  /** The reply's rows and cursors are those of the next pull. */
  lemma AnswersNext(p: Pull, views: Views, limit: nat, reply: Reply)
    requires Readable(views) && p.feeds.Keys == Kinds() && Answers(p, views, limit, reply)
    ensures var q := NextPage(p, views, Some(limit));
      && q.since == p.since && q.at == p.at && q.snapshot == p.snapshot && q.feeds.Keys == Kinds()
      && (forall kind :: kind in Kinds() ==>
          && reply.pages[kind].more == q.feeds[kind].more
          && reply.pages[kind].cursor == CursorText(q.feeds[kind].cursor)
          && q.feeds[kind].items == p.feeds[kind].items + reply.pages[kind].items)
  {
    hide DistinctSequences, PullPage, CursorText;
  }

  /** An accepted page either ends the pull or continues it. */
  lemma TakenPage(p: Pull, q: Pull, c: Progressed, limit: nat, reply: Reply)
    requires p.feeds.Keys == Kinds() && c.items == (map kind | kind in Kinds() :: p.feeds[kind].items)
    requires c.snapshot.Some? ==> c.snapshot.value == p.snapshot
    requires q.feeds.Keys == Kinds() && q.since == p.since && q.snapshot == p.snapshot
    requires reply.Pages? && reply.sequence == p.snapshot && reply.pages.Keys == Kinds() && !Stalls(reply.pages, c.cursors)
    requires forall kind :: kind in Kinds() ==>
      && reply.pages[kind].more == q.feeds[kind].more
      && reply.pages[kind].cursor == CursorText(q.feeds[kind].cursor)
      && q.feeds[kind].items == p.feeds[kind].items + reply.pages[kind].items
    ensures match TakePage(c, reply)
      case Done(all) => Finished(q) && all.snapshot == Some(p.snapshot)
                        && all.items == map kind | kind in Kinds() :: q.feeds[kind].items
      case More(next) => !Finished(q) && next.snapshot == Some(p.snapshot)
                         && next.items == (map kind | kind in Kinds() :: q.feeds[kind].items)
                         && Continues(q, Request(q.since, Some(limit), next.cursors, next.snapshot), limit)
      case _ => false
  {
    hide Stalls, CursorText, Kinds;
  }

  /** Each of the request's queries reads on soundly, and what they read still stands after the last. */
  lemma QueriesKeep(world: nat -> Moment, p: Pull, c: Progressed, n: nat, limit: nat)
    requires Writers(world) && Reading(world, p, c, n, limit) && limit >= 1 && Readable(Seen(world, n).views)
    ensures PullOk(NextPage(p, Seen(world, n).views, Some(limit)), world(6 * n + 5).rows)
  {
    hide Writers, DistinctSequences, PullOk, NextPage, Continues, ReadSoFar, Place, Later, Seen, Before;
    var views := Seen(world, n).views;
    SeenIsReadable(world, n);
    forall kind | kind in p.feeds
      ensures Later(p.at, p.snapshot, views[kind]) && ReadSoFar(p, kind, views[kind])
      ensures Before(views[kind], p.snapshot, world(6 * n + 5).rows)
    {
      QueryKeeps(world, p, c, n, limit, kind);
    }
    ReadBefore(world, p, c, n, limit, 6 * n + 5);
    NextPageKeeps(p, views, world(6 * n + 5).rows, Some(limit));
  }

  lemma QueryKeeps(world: nat -> Moment, p: Pull, c: Progressed, n: nat, limit: nat, kind: Kind)
    requires Writers(world) && Reading(world, p, c, n, limit) && kind in p.feeds
    ensures var seen := world(6 * n + Place(kind)).rows;
      Later(p.at, p.snapshot, seen) && ReadSoFar(p, kind, seen) && Before(seen, p.snapshot, world(6 * n + 5).rows)
  {
    hide Writers, PullOk, Continues, ReadSoFar, Reading;
    var at := 6 * n + Place(kind);
    ReadBefore(world, p, c, n, limit, at);
    LaterMoment(world, at, 6 * n + 5);
  }

  /** One more page: the server answers, the client accepts, and the measure falls. */
  lemma OnePage(world: nat -> Moment, p: Pull, c: Progressed, n: nat, limit: nat, cap: nat)
    requires Writers(world) && Reading(world, p, c, n, limit) && limit >= 1 && Readable(Seen(world, n).views)
    ensures var reply := ServePull(Seen(world, n), Request(p.since, Some(limit), c.cursors, c.snapshot), cap);
      var q := NextPage(p, Seen(world, n).views, Some(limit));
      && reply.Pages? && reply.pages.Keys == Kinds() && c.items.Keys == Kinds()
      && PullOk(q, world(6 * n + 5).rows) && 0 <= Remaining(q) <= Remaining(p)
      && q.since == p.since && q.at == p.at && q.snapshot == p.snapshot && q.feeds.Keys == Kinds()
      && (match TakePage(c, reply)
          case Done(all) => Finished(q) && all.snapshot == Some(p.snapshot)
                            && all.items == map kind | kind in Kinds() :: q.feeds[kind].items
          case More(next) => Reading(world, q, next, n + 1, limit) && Remaining(q) < Remaining(p)
          case _ => false)
  {
    hide Writers, DistinctSequences, ServePull, PullPage, PullOk, Later, ReadSoFar, Stalls, Remaining, NextPage,
         Finished, TakePage, Continues, Kinds, Answers, Seen;
    var views, q := Seen(world, n).views, NextPage(p, Seen(world, n).views, Some(limit));
    var reply := ServePull(Seen(world, n), Request(p.since, Some(limit), c.cursors, c.snapshot), cap);
    ReplyAnswers(world, p, c, n, limit, cap);
    ReadBefore(world, p, c, n, limit, 6 * n);
    QueriesKeep(world, p, c, n, limit);
    PageAdvances(p, views, limit);
    AnswersNext(p, views, limit, reply);
    AnswersPages(p, views, limit, reply);
    TakenPage(p, q, c, limit, reply);
  }

  lemma AnswersPages(p: Pull, views: Views, limit: nat, reply: Reply)
    requires Readable(views) && p.feeds.Keys == Kinds() && Answers(p, views, limit, reply)
    ensures reply.Pages? && reply.sequence == p.snapshot && reply.pages.Keys == Kinds()
  {
    hide DistinctSequences, PullPage, CursorText;
  }

  ghost predicate Quiet(world: nat -> Moment) {
    forall i :: world(i) == world(0)
  }

  /** Nobody writes: one more page is still the uncapped read. */
  lemma QuietPage(world: nat -> Moment, p: Pull, c: Progressed, n: nat, limit: nat)
    requires Writers(world) && Reading(world, p, c, n, limit) && limit >= 1 && DistinctSequences(world(0).rows)
    requires Quiet(world) && AllFeeds(p, world(0).rows)
    ensures Readable(Seen(world, n).views) && p.feeds.Keys == Kinds()
    ensures var q := NextPage(p, Seen(world, n).views, Some(limit));
      AllFeeds(q, world(0).rows)
      && forall kind :: kind in q.feeds && !q.feeds[kind].more ==> q.feeds[kind].items == Feed(world(0).rows, kind, p.since, p.snapshot)
  {
    hide Writers, DistinctSequences, PullOk, NextPage, AllFeeds, Seen, Continues, ReadSoFar, Later, Feed;
    SeenIsReadable(world, n);
    ReadBefore(world, p, c, n, limit, 6 * n);
    PageKeepsFeeds(p, Seen(world, n).views, world(0).rows, limit);
  }

  /** Pages are fetched until no kind has more. Against this server, with writers running between any
    * two of its queries, the loop ends, never fails or stalls, and merges a complete pull of one snapshot. */
  method PullPaginated(world: nat -> Moment, since: nat, limit: nat, cap: nat)
    returns (all: Progressed, requests: nat, ghost p: Pull)
    requires Writers(world) && since <= world(0).last && limit >= 1
    ensures requests >= 1 && p.since == since && p.at == world(0).rows && p.snapshot == world(0).last
    ensures PullOk(p, world(6 * requests - 1).rows) && Finished(p)
    ensures all.snapshot == Some(p.snapshot) && all.items == map kind | kind in Kinds() :: p.feeds[kind].items
    ensures Quiet(world) ==>
      forall kind :: kind in Kinds() ==> all.items[kind] == Feed(world(0).rows, kind, since, world(0).last)
  {
    hide Writers, DistinctSequences, ServePull, PullOk, Reading, Remaining, TakePage, NextPage, Feed, Seen, AllFeeds, Quiet,
         Kinds, Opened, Readable;
    var c := NoPages;
    requests := 0;
    p := StartOf(since, world(0));
    MomentIsOk(world, 0);
    StartIsReading(world, since, limit);
    while true
      invariant Reading(world, p, c, requests, limit)
      invariant p.since == since && p.at == world(0).rows && p.snapshot == world(0).last && p.feeds.Keys == Kinds()
      invariant Quiet(world) ==> AllFeeds(p, world(0).rows)
      decreases Remaining(p)
    {
      SeenIsReadable(world, requests);
      OnePage(world, p, c, requests, limit, cap);
      var view := Seen(world, requests);
      if Quiet(world) {
        QuietPage(world, p, c, requests, limit);
      }
      var reply := ServePull(view, Request(since, Some(limit), c.cursors, c.snapshot), cap);
      p := NextPage(p, view.views, Some(limit));
      requests := requests + 1;
      match TakePage(c, reply)
      case Done(merged) =>
        return merged, requests, p;
      case More(next) =>
        c := next;
    }
  }
}
