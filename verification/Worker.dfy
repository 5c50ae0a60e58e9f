/** The poller: it advances a cursor over one table and dispatches every row it passes
    (pkg/mls/api/v1/worker.go). */
module Worker {
  import opened Rows
  import opened WaveScan
  import opened Frames
  import opened Writer
  import opened StreamSystem
  import opened Dispatcher
  import TopicView

  const NUM_ROWS := 500

  type Mail = Envelope<Topic, Row>

  /** The envelope of a row: its content topic is built from the row's own id. */
  function MailOf(r: Row): Mail { Envelope(r.topic, true, r) }

  function Mails(rows: seq<Row>): seq<Mail> {
    if rows == [] then [] else Mails(rows[..|rows| - 1]) + [MailOf(rows[|rows| - 1])]
  }

  /** The rows of a table with lo < id <= hi, in the table's order. */
  function Window(tab: seq<Row>, lo: nat, hi: nat): seq<Row> {
    if tab == [] then []
    else if lo < tab[0].id <= hi then [tab[0]] + Window(tab[1..], lo, hi)
    else Window(tab[1..], lo, hi)
  }

  /** The poll query: rows above the cursor in id order, at most `n`. */
  function Poll(tab: seq<Row>, cursor: nat, n: nat): seq<Row> {
    Limited(Window(tab, cursor, MaxId(tab)), n)
  }

  lemma {:induction false} WindowMember(tab: seq<Row>, lo: nat, hi: nat, r: Row)
    ensures r in Window(tab, lo, hi) <==> r in tab && lo < r.id <= hi
  {
    if tab != [] {
      WindowMember(tab[1..], lo, hi, r);
      assert tab == [tab[0]] + tab[1..];
    }
  }

  lemma {:induction false} WindowAscending(tab: seq<Row>, lo: nat, hi: nat)
    requires Ascending(tab)
    ensures Ascending(Window(tab, lo, hi))
  {
    if tab != [] {
      WindowAscending(tab[1..], lo, hi);
      var p := Window(tab[1..], lo, hi);
      forall j | 0 <= j < |p| ensures tab[0].id < p[j].id {
        assert p[j] in p;
        WindowMember(tab[1..], lo, hi, p[j]);
      }
    }
  }

  lemma WindowIs(tab: seq<Row>, lo: nat, hi: nat, s: seq<Row>)
    requires Ascending(tab) && Ascending(s)
    requires forall r :: r in s <==> r in tab && lo < r.id <= hi
    ensures s == Window(tab, lo, hi)
  {
    WindowAscending(tab, lo, hi);
    forall r ensures r in s <==> r in Window(tab, lo, hi) { WindowMember(tab, lo, hi, r); }
    AscendingUnique(s, Window(tab, lo, hi));
  }

  /** Windows that meet join up. */
  lemma WindowJoin(tab: seq<Row>, lo: nat, mid: nat, hi: nat)
    requires Ascending(tab) && lo <= mid <= hi
    ensures Window(tab, lo, mid) + Window(tab, mid, hi) == Window(tab, lo, hi)
  {
    var a, b := Window(tab, lo, mid), Window(tab, mid, hi);
    WindowAscending(tab, lo, mid);
    WindowAscending(tab, mid, hi);
    forall r ensures r in a + b <==> r in tab && lo < r.id <= hi {
      WindowMember(tab, lo, mid, r);
      WindowMember(tab, mid, hi, r);
    }
    var c: seq<Row> := a + b;
    forall i, j | 0 <= i < j < |c| ensures c[i].id < c[j].id {
      if i < |a| <= j {
        assert a[i] in a && b[j - |a|] in b;
        WindowMember(tab, lo, mid, a[i]);
        WindowMember(tab, mid, hi, b[j - |a|]);
      }
    }
    WindowIs(tab, lo, hi, a + b);
  }

  /** A window below what was once the newest id looks the same in the grown table. */
  lemma SameWindow(early: seq<Row>, tab: seq<Row>, lo: nat, hi: nat)
    requires Ascending(tab) && early <= tab && (hi == lo || hi <= MaxId(early))
    ensures Ascending(early) && Window(early, lo, hi) == Window(tab, lo, hi)
  {
    assert forall i :: 0 <= i < |early| ==> early[i] == tab[i];
    var w := Window(early, lo, hi);
    WindowAscending(early, lo, hi);
    forall r ensures r in w <==> r in tab && lo < r.id <= hi {
      WindowMember(early, lo, hi, r);
      OlderRows(early, tab, hi, r);
    }
    WindowIs(tab, lo, hi, w);
  }

  /** Rows become visible in id order: a row at or below what was once the newest was there. */
  lemma OlderRows(early: seq<Row>, tab: seq<Row>, id: nat, r: Row)
    requires Ascending(tab) && early <= tab
    ensures r in early ==> r in tab
    ensures r in tab && 0 < r.id <= id && id <= MaxId(early) ==> r in early
    ensures early == [] ==> r !in early
  {
    if r in early {
      var i :| 0 <= i < |early| && early[i] == r;
      assert tab[i] == r;
    }
    if r in tab && 0 < r.id <= id && id <= MaxId(early) {
      var i :| 0 <= i < |tab| && tab[i] == r;
      assert tab[|early| - 1] == early[|early| - 1];
      assert early[i] == r;
    }
  }

  /** The first rows of an ascending list are those up to the last of them. */
  lemma PrefixByLast(all: seq<Row>, k: nat, cursor: nat, r: Row)
    requires Ascending(all) && k <= |all| && forall x :: x in all ==> cursor < x.id
    ensures r in all[..k] <==> r in all && r.id <= LastId(all[..k], cursor)
  {
    PrefixUpTo(all, k, r);
  }

  lemma AllAbove(tab: seq<Row>, cursor: nat)
    requires Ascending(tab)
    ensures var all := Window(tab, cursor, MaxId(tab));
            Ascending(all) && forall r :: r in all <==> r in tab && cursor < r.id
  {
    WindowAscending(tab, cursor, MaxId(tab));
    forall r ensures r in Window(tab, cursor, MaxId(tab)) <==> r in tab && cursor < r.id {
      WindowMember(tab, cursor, MaxId(tab), r);
      if r in tab { MaxIdBounds(tab, r); }
    }
  }

  /** A poll returns exactly the rows between the cursor and the last row it returns. */
  lemma PollWindow(tab: seq<Row>, cursor: nat, n: nat)
    requires Ascending(tab)
    ensures var rows := Poll(tab, cursor, n);
            var last := LastId(rows, cursor);
            && cursor <= last && (last == cursor || last <= MaxId(tab))
            && rows == Window(tab, cursor, last)
            && |rows| <= n
            && (|rows| < n ==> forall r :: r in tab ==> r.id <= last)
  {
    hide Window;
    var all := Window(tab, cursor, MaxId(tab));
    var rows := Poll(tab, cursor, n);
    var last := LastId(rows, cursor);
    AllAbove(tab, cursor);
    assert rows == all[..Min(|all|, n)];
    forall r ensures r in rows <==> r in tab && cursor < r.id <= last { PrefixByLast(all, |rows|, cursor, r); }
    WindowIs(tab, cursor, last, rows);
    if rows != [] {
      assert rows[|rows| - 1] in all;
      MaxIdBounds(tab, rows[|rows| - 1]);
    }
    if |rows| < n {
      assert rows == all;
    }
  }

  /** The stream system's next row to dispatch is the first row of a poll. */
  lemma {:induction false} NextIsFirst(tab: seq<Row>, seen: nat)
    requires Ascending(tab)
    ensures NextRow(tab, seen)
         == if Window(tab, seen, MaxId(tab)) == [] then None else Some(Window(tab, seen, MaxId(tab))[0])
  {
    NextOfWindow(tab, seen, MaxId(tab));
  }

  lemma {:induction false} NextOfWindow(tab: seq<Row>, seen: nat, hi: nat)
    requires forall r :: r in tab ==> r.id <= hi
    requires Ascending(tab)
    ensures NextRow(tab, seen) == if Window(tab, seen, hi) == [] then None else Some(Window(tab, seen, hi)[0])
  {
    if tab != [] {
      assert tab == [tab[0]] + tab[1..];
      assert tab[0] in tab;
      NextOfWindow(tab[1..], seen, hi);
    }
  }

  lemma {:induction false} WindowRest(tab: seq<Row>, lo: nat, hi: nat)
    requires Ascending(tab) && Window(tab, lo, hi) != []
    ensures var w := Window(tab, lo, hi); Window(tab, w[0].id, hi) == w[1..]
  {
    var w := Window(tab, lo, hi);
    WindowAscending(tab, lo, hi);
    forall r ensures r in w[1..] <==> r in tab && w[0].id < r.id <= hi {
      WindowMember(tab, lo, hi, r);
      WindowMember(tab, lo, hi, w[0]);
      assert w == [w[0]] + w[1..];
      if r in w[1..] { var i :| 0 <= i < |w[1..]| && w[1..][i] == r; assert w[i + 1] == r; }
    }
    WindowIs(tab, w[0].id, hi, w[1..]);
  }

  /** Offering rows to the stream one after the other. */
  function OfferRows(world: World, s: Sys, rows: seq<Row>): Sys
    decreases |rows|
  {
    if rows == [] then s else OfferRows(world, DispatchRow(world, s, rows[0]), rows[1..])
  }

  function Dispatches(k: Kind, n: nat): seq<Step> {
    if n == 0 then [] else [Dispatch(k)] + Dispatches(k, n - 1)
  }

  lemma {:induction false} ClosedStays(world: World, s: Sys, rows: seq<Row>)
    requires !s.open
    ensures !OfferRows(world, s, rows).open
    decreases |rows|
  {
    if rows != [] { ClosedStays(world, DispatchRow(world, s, rows[0]), rows[1..]); }
  }

  /** A tick's page is, in the stream system, so many Dispatch steps: as long as the subscription
      keeps up, they are possible, offer the page's rows in its order, and leave the poller's
      cursor at the page's last row. */
  lemma {:induction false} PageIsDispatches(world: World, s: Sys, k: Kind, n: nat)
    requires TableOk(Table(s, k), k)
    requires var page := Poll(Table(s, k), Seen(s, k), n); OfferRows(world, s, page).open
    ensures var page := Poll(Table(s, k), Seen(s, k), n);
            && Possible(world, s, Dispatches(k, |page|))
            && StreamSystem.After(world, s, Dispatches(k, |page|)) == OfferRows(world, s, page)
            && Seen(OfferRows(world, s, page), k) == LastId(page, Seen(s, k))
    decreases n
  {
    hide DispatchRow, Poll, NextRow, TableOk;
    var page := Poll(Table(s, k), Seen(s, k), n);
    if !s.open { ClosedStays(world, s, page); }
    if page != [] {
      var s1 := DispatchRow(world, s, page[0]);
      PollRest(s, k, n);
      FirstOffer(world, s, k, page[0]);
      if !s1.open { ClosedStays(world, s1, page[1..]); }
      PageIsDispatches(world, s1, k, n - 1);
      assert Dispatches(k, |page|)[1..] == Dispatches(k, |page| - 1);
    }
  }

  /** The first row of a poll is the next row to dispatch, and the others are the next poll. */
  lemma PollRest(s: Sys, k: Kind, n: nat)
    requires TableOk(Table(s, k), k) && Poll(Table(s, k), Seen(s, k), n) != []
    ensures var page := Poll(Table(s, k), Seen(s, k), n);
            && n > 0 && page[0] in Table(s, k) && NextRow(Table(s, k), Seen(s, k)) == Some(page[0])
            && Poll(Table(s, k), page[0].id, n - 1) == page[1..]
  {
    var tab, seen := Table(s, k), Seen(s, k);
    var page := Poll(tab, seen, n);
    NextIsFirst(tab, seen);
    WindowRest(tab, seen, MaxId(tab));
    WindowMember(tab, seen, MaxId(tab), page[0]);
  }

  lemma FirstOffer(world: World, s: Sys, k: Kind, r: Row)
    requires s.open && NextRow(Table(s, k), Seen(s, k)) == Some(r) && TableOk(Table(s, k), k)
    requires r in Table(s, k)
    ensures Enabled(world, s, Dispatch(k)) && Apply(world, s, Dispatch(k)) == DispatchRow(world, s, r)
    ensures DispatchRow(world, s, r).open ==> Seen(DispatchRow(world, s, r), k) == r.id
    ensures Table(DispatchRow(world, s, r), k) == Table(s, k)
  {
  }

  /** Dispatching a row in the stream system is the dispatcher's offer of its envelope to the
      stream's own subscription, in both the channel and whether it stays open. */
  lemma DispatchIsOffer(world: World, s: Sys, r: Row, channel: seq<Mail>)
    requires s.open && r.known && channel == Mails(s.queue)
    ensures var before := SubState(false, s.w.live, world.capacity, channel, false, true);
            var after := Offer(before, MailOf(r));
            var s' := DispatchRow(world, s, r);
            && after.channel == Mails(s'.queue)
            && (after.closed <==> !s'.open) && (after.registered <==> s'.open)
  {
    MailsSize(s.queue);
    assert (s.queue + [r])[..|s.queue|] == s.queue;
  }

  lemma {:induction false} MailsSize(rows: seq<Row>)
    ensures |Mails(rows)| == |rows|
  {
    if rows != [] { MailsSize(rows[..|rows| - 1]); }
  }

  // ----- the polling loops -----

  /** One tick: the table as its query sees it, and the ids of rows that cannot be marshalled. */
  datatype Tick = Tick(tab: seq<Row>, broken: set<nat>)

  /** A growing table; None is a tick whose query failed. */
  ghost predicate Ticks(ticks: seq<Option<Tick>>, final: seq<Row>, k: Kind) {
    && TableOk(final, k)
    && (forall i :: 0 <= i < |ticks| && ticks[i].Some? ==> ticks[i].value.tab <= final)
  }

  /** Dispatches `rows` one by one to every subscription of `d`, up to the first it cannot
      marshal; `n` rows were passed. A row of unknown type is skipped before it is marshalled. */
  method DispatchRows(d: SubscriptionDispatcher<Topic, Row>, rows: seq<Row>, broken: set<nat>) returns (n: nat)
    requires d.Valid()
    modifies d, d.subscriptions
    ensures d.Valid() && d.subscriptions <= old(d.subscriptions)
    ensures n <= |rows| && (n < |rows| ==> rows[n].known && rows[n].id in broken)
    ensures forall j :: 0 <= j < n && rows[j].known ==> rows[j].id !in broken
    ensures forall s :: s in old(d.subscriptions) ==>
              s.dispatcher == d && s.State() == OfferAll(old(s.State()), Mails(Known(rows[..n])))
  {
    hide OfferAll, Mails, Known;
    n := 0;
    NothingOffered(d, rows);
    while n < |rows|
      invariant n <= |rows|
      invariant forall j :: 0 <= j < n && rows[j].known ==> rows[j].id !in broken
      invariant d.Valid() && d.subscriptions <= old(d.subscriptions)
      invariant forall s :: s in old(d.subscriptions) ==>
                  s.dispatcher == d && s.State() == OfferAll(old(s.State()), Mails(Known(rows[..n])))
    {
      ghost var sent := Mails(Known(rows[..n]));
      MailsStep(rows, n);
      if rows[n].known {
        if rows[n].id in broken {
          return;
        }
        d.HandleEnvelope(MailOf(rows[n]));
        forall s | s in old(d.subscriptions)
          ensures OfferAll(old(s.State()), sent + [MailOf(rows[n])])
               == Offer(OfferAll(old(s.State()), sent), MailOf(rows[n]))
        {
          OfferNext(old(s.State()), sent, MailOf(rows[n]));
        }
      }
      n := n + 1;
    }
  }

  lemma NothingOffered(d: SubscriptionDispatcher<Topic, Row>, rows: seq<Row>)
    ensures forall s: SubState<Topic, Row> :: OfferAll(s, Mails(Known(rows[..0]))) == s
  {
  }

  lemma OfferNext(s: SubState<Topic, Row>, sent: seq<Mail>, m: Mail)
    ensures OfferAll(s, sent + [m]) == Offer(OfferAll(s, sent), m)
  {
    assert (sent + [m])[..|sent|] == sent;
  }

  lemma MailsStep(rows: seq<Row>, i: nat)
    requires i < |rows|
    ensures Mails(Known(rows[..i + 1])) ==
            if rows[i].known then Mails(Known(rows[..i])) + [MailOf(rows[i])] else Mails(Known(rows[..i]))
  {
    assert rows[..i + 1] == rows[..i] + [rows[i]];
    KnownConcat(rows[..i], [rows[i]]);
    assert [rows[i]][1..] == [];
    var k := Known(rows[..i]);
    if rows[i].known {
      assert (k + [rows[i]])[..|k|] == k;
    } else {
      assert k + [] == k;
    }
  }

  /** The first `n` rows of a tick's page are a window above the cursor. */
  lemma PageWindow(tab: seq<Row>, final: seq<Row>, cursor: nat, n: nat)
    requires Ascending(final) && tab <= final && n <= |Poll(tab, cursor, NUM_ROWS)|
    ensures var page := Poll(tab, cursor, NUM_ROWS);
            var last := LastId(page[..n], cursor);
            cursor <= last <= LastId(page, cursor) && page[..n] == Window(final, cursor, last)
  {
    SameWindow(tab, final, cursor, cursor);
    PollWindow(tab, cursor, n);
    PollWindow(tab, cursor, NUM_ROWS);
    var page := Poll(tab, cursor, NUM_ROWS);
    assert page[..n] == Poll(tab, cursor, n);
    SameWindow(tab, final, cursor, LastId(page[..n], cursor));
    WindowAscending(tab, cursor, LastId(page, cursor));
    hide Window, Poll;
  }

  /** Offering a window again, from a cursor already passed, adds after the dedup exactly what
      it reaches beyond what was offered before. */
  lemma Reoffer(tab: seq<Row>, startId: nat, cursor: nat, upTo: nat, mid: nat, offered: seq<Row>)
    requires Ascending(tab) && startId <= cursor <= upTo && cursor <= mid
    requires Rise(startId, offered) == Known(Window(tab, startId, upTo))
    ensures Rise(startId, offered + Known(Window(tab, cursor, mid))) == Known(Window(tab, startId, Max(upTo, mid)))
  {
    var h, more := LastId(Known(Window(tab, startId, upTo)), startId), Known(Window(tab, cursor, mid));
    RiseConcat(startId, offered, more);
    RiseOnward(tab, startId, cursor, upTo, mid, h);
    WindowJoin(tab, startId, upTo, Max(upTo, mid));
    KnownConcat(Window(tab, startId, upTo), Window(tab, upTo, Max(upTo, mid)));
  }

  lemma RiseOnward(tab: seq<Row>, startId: nat, cursor: nat, upTo: nat, mid: nat, h: nat)
    requires Ascending(tab) && startId <= cursor <= upTo && cursor <= mid
    requires h == LastId(Known(Window(tab, startId, upTo)), startId)
    ensures Rise(h, Known(Window(tab, cursor, mid))) == Known(Window(tab, upTo, Max(upTo, mid)))
  {
    var seen, more, next := Known(Window(tab, startId, upTo)), Known(Window(tab, cursor, mid)),
                            Known(Window(tab, upTo, Max(upTo, mid)));
    WindowAscending(tab, startId, upTo);
    WindowAscending(tab, cursor, mid);
    WindowAscending(tab, upTo, Max(upTo, mid));
    KnownAscending(Window(tab, startId, upTo));
    KnownAscending(Window(tab, cursor, mid));
    KnownAscending(Window(tab, upTo, Max(upTo, mid)));
    RiseOfAscending(h, more);
    RiseRows(h, more);
    KnownWindow(tab, startId, upTo);
    KnownWindow(tab, cursor, mid);
    KnownWindow(tab, upTo, Max(upTo, mid));
    hide Rise, Known, Window;
    if seen != [] { assert seen[|seen| - 1] in seen; }
    forall r ensures r in Rise(h, more) <==> r in next {
      if r in seen { TopicView.LastIsGreatest(seen, r, startId); }
    }
    AscendingUnique(Rise(h, more), next);
  }

  lemma KnownWindow(tab: seq<Row>, lo: nat, hi: nat)
    ensures forall r :: r in Known(Window(tab, lo, hi)) <==> r in tab && r.known && lo < r.id <= hi
  {
    forall r ensures r in Known(Window(tab, lo, hi)) <==> r in tab && r.known && lo < r.id <= hi {
      KnownMember(Window(tab, lo, hi), r);
      WindowMember(tab, lo, hi, r);
    }
  }

  lemma {:induction false} OfferAllConcat(s: SubState<Topic, Row>, a: seq<Mail>, b: seq<Mail>)
    ensures OfferAll(s, a + b) == OfferAll(OfferAll(s, a), b)
  {
    if b == [] {
      assert a + b == a;
    } else {
      assert (a + b)[..|a + b| - 1] == a + b[..|b| - 1];
      OfferAllConcat(s, a, b[..|b| - 1]);
    }
  }

  lemma {:induction false} MailsConcat(a: seq<Row>, b: seq<Row>)
    ensures Mails(a + b) == Mails(a) + Mails(b)
  {
    if b == [] {
      assert a + b == a;
    } else {
      assert (a + b)[..|a + b| - 1] == a + b[..|b| - 1];
      MailsConcat(a, b[..|b| - 1]);
    }
  }

  /** What a poller's ticks have offered: up to repetitions, which the writer's dedup discards,
      exactly the parseable rows above the start up to `upTo`, in id order; none repeated as long
      as every row could be marshalled. */
  ghost predicate Polled(final: seq<Row>, startId: nat, currentId: nat, offered: seq<Row>, upTo: nat, clean: bool) {
    && startId <= currentId <= upTo
    && Rise(startId, offered) == Known(Window(final, startId, upTo))
    && (clean ==> upTo == currentId && offered == Known(Window(final, startId, currentId)))
  }

  lemma PolledStart(final: seq<Row>, startId: nat)
    ensures Polled(final, startId, startId, [], startId, true)
  {
    WindowEmpty(final, startId);
  }

  /** A tick that passed `n` rows of its page; the cursor moves only behind a whole page. */
  lemma TickPolled(final: seq<Row>, startId: nat, cursor: nat, offered: seq<Row>, upTo: nat, clean: bool, tab: seq<Row>,
                   n: nat)
    requires Ascending(final) && tab <= final && Polled(final, startId, cursor, offered, upTo, clean)
    requires n <= |Poll(tab, cursor, NUM_ROWS)|
    ensures var page := Poll(tab, cursor, NUM_ROWS);
            Polled(final, startId, if n == |page| then LastId(page, cursor) else cursor, offered + Known(page[..n]),
                   Max(upTo, LastId(page[..n], cursor)), clean && n == |page|)
  {
    var page := Poll(tab, cursor, NUM_ROWS);
    var mid := LastId(page[..n], cursor);
    PageWindow(tab, final, cursor, n);
    Reoffer(final, startId, cursor, upTo, mid, offered);
    hide Window, Known, Rise, Poll;
    if n == |page| { assert page[..n] == page; }
    if clean && n == |page| {
      WindowJoin(final, startId, cursor, mid);
      KnownConcat(Window(final, startId, cursor), Window(final, cursor, mid));
    }
  }

  /** Where the cursor stands after these ticks: behind each page that could all be marshalled. */
  ghost function CursorAfter(ticks: seq<Option<Tick>>, startId: nat): nat {
    if ticks == [] then startId
    else
      var cursor := CursorAfter(ticks[..|ticks| - 1], startId);
      match ticks[|ticks| - 1]
      case None => cursor
      case Some(tick) =>
        var page := Poll(tick.tab, cursor, NUM_ROWS);
        if exists r :: r in page && r.known && r.id in tick.broken then cursor else LastId(page, cursor)
  }

  lemma {:induction false} WindowShorter(tab: seq<Row>, lo: nat, mid: nat, hi: nat)
    requires mid <= hi
    ensures |Window(tab, lo, mid)| <= |Window(tab, lo, hi)|
  {
    if tab != [] { WindowShorter(tab[1..], lo, mid, hi); }
  }

  /** A row is on a page of `n` when at most `n` rows stand above the cursor up to it. */
  lemma OnPage(tab: seq<Row>, cursor: nat, n: nat, r: Row)
    requires Ascending(tab) && r in tab && cursor < r.id
    ensures r in Poll(tab, cursor, n) <==> |Window(tab, cursor, r.id)| <= n
  {
    var page := Poll(tab, cursor, n);
    PollWindow(tab, cursor, n);
    WindowMember(tab, cursor, LastId(page, cursor), r);
    if r in page {
      WindowShorter(tab, cursor, r.id, LastId(page, cursor));
    } else {
      var last := LastId(page, cursor);
      WindowJoin(tab, cursor, last, r.id);
      WindowMember(tab, last, r.id, r);
    }
  }

  lemma CursorStep(ticks: seq<Option<Tick>>, i: nat, startId: nat, n: nat)
    requires i < |ticks|
    requires var cursor := CursorAfter(ticks[..i], startId);
             ticks[i].Some? ==>
               var page := Poll(ticks[i].value.tab, cursor, NUM_ROWS);
               && n <= |page| && (n < |page| ==> page[n].known && page[n].id in ticks[i].value.broken)
               && forall j :: 0 <= j < n && page[j].known ==> page[j].id !in ticks[i].value.broken
    ensures var cursor := CursorAfter(ticks[..i], startId);
            CursorAfter(ticks[..i + 1], startId) ==
            if ticks[i].Some? && n == |Poll(ticks[i].value.tab, cursor, NUM_ROWS)|
            then LastId(Poll(ticks[i].value.tab, cursor, NUM_ROWS), cursor) else cursor
  {
    hide Poll;
    assert ticks[..i + 1][..i] == ticks[..i];
    if ticks[i].Some? {
      var page := Poll(ticks[i].value.tab, CursorAfter(ticks[..i], startId), NUM_ROWS);
      if n < |page| { assert page[n] in page; }
    }
  }

  /** What one more tick does to the cursor. A failed query leaves it, and so does a row among the
      next 500 that cannot be marshalled; any other tick moves it over the next 500 rows above it,
      or over all there are. */
  lemma CursorAdvances(ticks: seq<Option<Tick>>, startId: nat, tick: Option<Tick>)
    requires tick.Some? ==> Ascending(tick.value.tab)
    ensures var c, c' := CursorAfter(ticks, startId), CursorAfter(ticks + [tick], startId);
            if tick.None? then c' == c
            else
              var tab := tick.value.tab;
              if exists r :: r in tab && r.known && r.id in tick.value.broken && c < r.id
                             && |Window(tab, c, r.id)| <= 500
              then c' == c
              else
                && c <= c' && |Window(tab, c, c')| <= 500
                && (|Window(tab, c, c')| == 500 || forall r :: r in tab ==> r.id <= c')
  {
    hide Poll, Window;
    assert (ticks + [tick])[..|ticks|] == ticks;
    if tick.Some? {
      var c, tab := CursorAfter(ticks, startId), tick.value.tab;
      var page := Poll(tab, c, NUM_ROWS);
      PollWindow(tab, c, NUM_ROWS);
      forall r ensures r in page <==> r in tab && c < r.id && |Window(tab, c, r.id)| <= 500 {
        WindowMember(tab, c, LastId(page, c), r);
        if r in tab && c < r.id { OnPage(tab, c, NUM_ROWS, r); }
      }
    }
  }

  /** A poller's loop over its ticks. Every subscription is offered the envelopes of exactly the
      parseable rows between the start and the last one passed, in id order, each once; when every
      subscription was already gone, or none of a row's topics is wanted, the cursor moves all the
      same. A failed query costs a tick, not a row; a row that cannot be marshalled holds the
      cursor back, and what is offered again because of it the dedup discards. */
  method Listen(d: SubscriptionDispatcher<Topic, Row>, ghost k: Kind, startId: nat, ticks: seq<Option<Tick>>,
                ghost final: seq<Row>)
    returns (currentId: nat, ghost offered: seq<Row>, ghost upTo: nat)
    requires d.Valid() && Ticks(ticks, final, k)
    modifies d, d.subscriptions
    ensures d.Valid() && currentId == CursorAfter(ticks, startId)
    ensures Polled(final, startId, currentId, offered, upTo,
                   forall i :: 0 <= i < |ticks| && ticks[i].Some? ==> ticks[i].value.broken == {})
    ensures forall s :: s in old(d.subscriptions) ==> s.State() == OfferAll(old(s.State()), Mails(offered))
  {
    hide Polled, Poll, CursorAfter, OfferAll, Mails, Known;
    currentId, offered, upTo := startId, [], startId;
    ghost var clean := true;
    ghost var was := map s | s in d.subscriptions :: s.State();
    PolledStart(final, startId);
    NothingYet(ticks, startId);
    var i := 0;
    while i < |ticks|
      invariant 0 <= i <= |ticks| && currentId == CursorAfter(ticks[..i], startId)
      invariant (forall j :: 0 <= j < i && ticks[j].Some? ==> ticks[j].value.broken == {}) ==> clean
      invariant Polled(final, startId, currentId, offered, upTo, clean)
      invariant d.Valid() && d.subscriptions <= was.Keys
      invariant forall s :: s in was ==> s.dispatcher == d && s.State() == OfferAll(was[s], Mails(offered))
    {
      if ticks[i].Some? {
        var rows := Poll(ticks[i].value.tab, currentId, NUM_ROWS);
        var n := DispatchToAll(d, was, offered, rows, ticks[i].value.broken);
        TickPolled(final, startId, currentId, offered, upTo, clean, ticks[i].value.tab, n);
        CursorStep(ticks, i, startId, n);
        offered, upTo := offered + Known(rows[..n]), Max(upTo, LastId(rows[..n], currentId));
        clean := clean && n == |rows|;
        if n == |rows| && |rows| > 0 {
          currentId := rows[|rows| - 1].id;
        }
      } else {
        CursorStep(ticks, i, startId, 0);
      }
      i := i + 1;
    }
    assert ticks[..i] == ticks;
    PolledWeaker(final, startId, currentId, offered, upTo, clean,
                 forall j :: 0 <= j < |ticks| && ticks[j].Some? ==> ticks[j].value.broken == {});
  }

  lemma NothingYet(ticks: seq<Option<Tick>>, startId: nat)
    ensures CursorAfter(ticks[..0], startId) == startId
    ensures forall s: SubState<Topic, Row> :: OfferAll(s, Mails([])) == s
  {
  }

  /** What was offered, and then offered on top of it. */
  lemma OfferMore(was: map<Subscription<Topic, Row>, SubState<Topic, Row>>,
                  before: map<Subscription<Topic, Row>, SubState<Topic, Row>>, offered: seq<Row>, more: seq<Row>)
    requires forall s :: s in was ==> s in before && before[s] == OfferAll(was[s], Mails(offered))
    ensures forall s :: s in was ==> OfferAll(before[s], Mails(more)) == OfferAll(was[s], Mails(offered + more))
  {
    hide OfferAll, Mails;
    MailsConcat(offered, more);
    forall s | s in was ensures OfferAll(before[s], Mails(more)) == OfferAll(was[s], Mails(offered + more)) {
      OfferAllConcat(was[s], Mails(offered), Mails(more));
    }
  }

  lemma PolledWeaker(final: seq<Row>, startId: nat, currentId: nat, offered: seq<Row>, upTo: nat, a: bool, b: bool)
    requires Polled(final, startId, currentId, offered, upTo, a) && (b ==> a)
    ensures Polled(final, startId, currentId, offered, upTo, b)
  {
  }

  lemma {:induction false} WindowEmpty(tab: seq<Row>, id: nat)
    ensures Window(tab, id, id) == []
  {
    if tab != [] { WindowEmpty(tab[1..], id); }
  }

  /** Dispatching on top of what has been offered; the subscriptions already gone are left alone. */
  method DispatchToAll(d: SubscriptionDispatcher<Topic, Row>,
                       ghost was: map<Subscription<Topic, Row>, SubState<Topic, Row>>, ghost offered: seq<Row>,
                       rows: seq<Row>, broken: set<nat>)
    returns (n: nat)
    requires d.Valid() && d.subscriptions <= was.Keys
    requires forall s :: s in was ==> s.dispatcher == d && s.State() == OfferAll(was[s], Mails(offered))
    modifies d, d.subscriptions
    ensures d.Valid() && d.subscriptions <= old(d.subscriptions)
    ensures n <= |rows| && (n < |rows| ==> rows[n].known && rows[n].id in broken)
    ensures forall j :: 0 <= j < n && rows[j].known ==> rows[j].id !in broken
    ensures forall s :: s in was ==> s.State() == OfferAll(was[s], Mails(offered + Known(rows[..n])))
  {
    hide OfferAll, Mails, Known;
    ghost var registered := d.subscriptions;
    ghost var before := map s | s in was :: s.State();
    n := DispatchRows(d, rows, broken);
    ghost var more := Known(rows[..n]);
    forall s | s in was ensures s.State() == OfferAll(before[s], Mails(more)) {
      if s !in registered { SilentWhenGone(before[s], Mails(more)); }
    }
    OfferMore(was, before, offered, more);
  }
}
