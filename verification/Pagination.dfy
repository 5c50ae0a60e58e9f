/** Keyset pagination of stored envelopes (pkg/store/query.go): the meaning of the generated SQL,
    its equality with "the first k rows after the cursor", and the enumeration a client gets by
    feeding each response's paging info back. */
module Pagination {
  import opened WaveScan

  /** A stored row. Its id is the 32-byte digest of topic and payload, read as a number: equal
      lengths make the byte order the numeric one. */
  datatype Entry = Entry(time: nat, id: nat, topic: nat)

  datatype Direction = Unspecified | Ascending | Descending

  /** The cursor's index; a client may leave the digest out. */
  datatype Cursor = Cursor(senderTimeNs: nat, digest: Option<nat>)

  datatype PagingInfo = PagingInfo(limit: nat, cursor: Option<Cursor>, direction: Direction)

  datatype Query = Query(contentTopics: seq<nat>, startTimeNs: nat, endTimeNs: nat, pagingInfo: Option<PagingInfo>)

  datatype Response = Response(envelopes: seq<Entry>, pagingInfo: PagingInfo)

  const MAX_PAGE_SIZE := 100

  function Paging(q: Query): PagingInfo {
    match q.pagingInfo
    case Some(p) => p
    case None => PagingInfo(0, None, Unspecified)
  }

  function GetDirection(p: PagingInfo): Direction {
    if p.direction == Unspecified then Descending else p.direction
  }

  function GetPageSize(p: PagingInfo): nat {
    if p.limit == 0 then MAX_PAGE_SIZE else p.limit
  }

  // ----- ORDER BY and WHERE -----

  /** Strictly before in the sort order (senderTimestamp, id), either way round. */
  predicate Before(dir: Direction, a: Entry, b: Entry) {
    if dir == Ascending then a.time < b.time || (a.time == b.time && a.id < b.id)
    else b.time < a.time || (b.time == a.time && b.id < a.id)
  }

  function Place(dir: Direction, e: Entry, s: seq<Entry>): seq<Entry> {
    if s == [] || !Before(dir, s[0], e) then [e] + s else [s[0]] + Place(dir, e, s[1..])
  }

  function OrderBy(dir: Direction, s: seq<Entry>): seq<Entry> {
    if s == [] then [] else Place(dir, s[0], OrderBy(dir, s[1..]))
  }

  function Where(s: seq<Entry>, p: Entry -> bool): seq<Entry> {
    if s == [] then []
    else if p(s[0]) then [s[0]] + Where(s[1..], p)
    else Where(s[1..], p)
  }

  function First(s: seq<Entry>, k: nat): seq<Entry> {
    s[..Min(|s|, k)]
  }

  /** SQL UNION: rows of both, each once. */
  function Union(a: seq<Entry>, b: seq<Entry>): seq<Entry> {
    a + Where(b, Outside(a))
  }

  function Outside(a: seq<Entry>): Entry -> bool { e => e !in a }

  predicate Selected(contentTopics: seq<nat>, startTimeNs: nat, endTimeNs: nat, e: Entry) {
    && (|contentTopics| > 0 ==> e.topic in contentTopics)
    && (startTimeNs != 0 ==> e.time >= startTimeNs)
    && (endTimeNs != 0 ==> e.time <= endTimeNs)
  }

  function Selects(contentTopics: seq<nat>, startTimeNs: nat, endTimeNs: nat): Entry -> bool {
    e => Selected(contentTopics, startTimeNs, endTimeNs, e)
  }

  function Filter(q: Query): Entry -> bool { Selects(q.contentTopics, q.startTimeNs, q.endTimeNs) }

  // ----- the query -----

  /** One select with an extra condition: filtered, sorted, limited. */
  function Select(tab: seq<Entry>, q: Query, extra: Entry -> bool): seq<Entry> {
    var dir := GetDirection(Paging(q));
    First(OrderBy(dir, Where(Where(tab, Filter(q)), extra)), GetPageSize(Paging(q)))
  }

  /** The two halves of the union, as the code writes their conditions. */
  predicate LaterTime(dir: Direction, c: Cursor, e: Entry) {
    match c.digest
    case None => true
    case Some(d) =>
      if c.senderTimeNs != 0 then (if dir == Ascending then e.time > c.senderTimeNs else e.time < c.senderTimeNs)
      else if dir == Ascending then e.id > d else e.id < d
  }

  predicate SameTime(dir: Direction, c: Cursor, e: Entry) {
    match c.digest
    case None => true
    case Some(d) =>
      if c.senderTimeNs != 0 then e.time == c.senderTimeNs && (if dir == Ascending then e.id > d else e.id < d)
      else if dir == Ascending then e.id > d else e.id < d
  }

  function Unconditional(): Entry -> bool { e => true }

  function Later(dir: Direction, c: Cursor): Entry -> bool { e => LaterTime(dir, c, e) }

  function Same(dir: Direction, c: Cursor): Entry -> bool { e => SameTime(dir, c, e) }

  function RunQuery(tab: seq<Entry>, q: Query): seq<Entry> {
    var p := Paging(q);
    var dir := GetDirection(p);
    match p.cursor
    case None => Select(tab, q, Unconditional())
    case Some(c) =>
      First(OrderBy(dir, Union(Select(tab, q, Later(dir, c)), Select(tab, q, Same(dir, c)))),
            GetPageSize(p))
  }

  function BuildCursor(e: Entry): Cursor { Cursor(e.time, Some(e.id)) }

  function BuildPagingInfo(envs: seq<Entry>, p: PagingInfo): PagingInfo {
    var size := GetPageSize(p);
    if |envs| < size then PagingInfo(0, None, GetDirection(p))
    else PagingInfo(Min(size, MAX_PAGE_SIZE), if envs == [] then None else Some(BuildCursor(envs[|envs| - 1])),
                    GetDirection(p))
  }

  function Answer(tab: seq<Entry>, q: Query): Response {
    var envs := RunQuery(tab, q);
    Response(envs, BuildPagingInfo(envs, Paging(q)))
  }

  // ----- the reference -----

  /** Everything the query selects, in order. */
  function Matching(tab: seq<Entry>, q: Query): seq<Entry> {
    OrderBy(GetDirection(Paging(q)), Where(tab, Filter(q)))
  }

  /** Strictly after a position in the sort order. A position without an id stands behind all
      rows of its time. */
  predicate Beyond(dir: Direction, c: Cursor, e: Entry) {
    match c.digest
    case Some(d) => Before(dir, Entry(c.senderTimeNs, d, 0), e)
    case None => if dir == Ascending then c.senderTimeNs < e.time else e.time < c.senderTimeNs
  }

  /** A cursor with neither a time nor a digest names no position. */
  predicate NamesNothing(c: Cursor) { c.senderTimeNs == 0 && c.digest.None? }

  /** The reference page: the first k selected rows after the cursor, in lexicographic order. */
  function Page(tab: seq<Entry>, q: Query): seq<Entry> {
    var p := Paging(q);
    var all := Matching(tab, q);
    var ahead := match p.cursor
      case None => all
      case Some(c) => if NamesNothing(c) then all else Where(all, Ahead(GetDirection(p), c));
    First(ahead, GetPageSize(p))
  }

  function Ahead(dir: Direction, c: Cursor): Entry -> bool { e => Beyond(dir, c, e) }

  // ----- sorting facts -----

  ghost predicate Ordered(dir: Direction, s: seq<Entry>) {
    forall i, j :: 0 <= i < j < |s| ==> Before(dir, s[i], s[j])
  }

  /** The table has no two rows with one id. */
  ghost predicate Keyed(s: seq<Entry>) {
    forall i, j :: 0 <= i < j < |s| ==> s[i].id != s[j].id
  }

  lemma {:induction false} WhereMember(s: seq<Entry>, p: Entry -> bool, e: Entry)
    ensures e in Where(s, p) <==> e in s && p(e)
  {
    if s != [] {
      WhereMember(s[1..], p, e);
      assert s == [s[0]] + s[1..];
    }
  }

  lemma {:induction false} WhereKeyed(s: seq<Entry>, p: Entry -> bool)
    requires Keyed(s)
    ensures Keyed(Where(s, p))
  {
    if s != [] {
      WhereKeyed(s[1..], p);
      var w := Where(s[1..], p);
      forall j | 0 <= j < |w| ensures w[j].id != s[0].id {
        assert w[j] in w;
        WhereMember(s[1..], p, w[j]);
        var i :| 0 <= i < |s[1..]| && s[1..][i] == w[j];
        assert s[i + 1] == w[j];
      }
    }
  }

  lemma {:induction false} WhereOrdered(dir: Direction, s: seq<Entry>, p: Entry -> bool)
    requires Ordered(dir, s)
    ensures Ordered(dir, Where(s, p))
  {
    if s != [] {
      WhereOrdered(dir, s[1..], p);
      var w := Where(s[1..], p);
      forall j | 0 <= j < |w| ensures Before(dir, s[0], w[j]) {
        assert w[j] in w;
        WhereMember(s[1..], p, w[j]);
        var i :| 0 <= i < |s[1..]| && s[1..][i] == w[j];
        assert s[i + 1] == w[j];
      }
    }
  }

  lemma {:induction false} PlaceMember(dir: Direction, e: Entry, s: seq<Entry>, x: Entry)
    ensures x in Place(dir, e, s) <==> x == e || x in s
  {
    if s != [] && Before(dir, s[0], e) {
      PlaceMember(dir, e, s[1..], x);
      assert s == [s[0]] + s[1..];
    }
  }

  lemma {:induction false} PlaceOrdered(dir: Direction, e: Entry, s: seq<Entry>)
    requires Ordered(dir, s) && forall x :: x in s ==> x.id != e.id
    ensures Ordered(dir, Place(dir, e, s))
  {
    if s != [] && Before(dir, s[0], e) {
      PlaceOrdered(dir, e, s[1..]);
      var p := Place(dir, e, s[1..]);
      forall j | 0 <= j < |p| ensures Before(dir, s[0], p[j]) {
        assert p[j] in p;
        PlaceMember(dir, e, s[1..], p[j]);
        if p[j] in s[1..] {
          var i :| 0 <= i < |s[1..]| && s[1..][i] == p[j];
          assert s[i + 1] == p[j];
        }
      }
    } else if s != [] {
      assert Before(dir, e, s[0]);
      forall j | 0 <= j < |s| ensures Before(dir, e, s[j]) {
        if j > 0 { assert Before(dir, s[0], s[j]); }
      }
    }
  }

  lemma {:induction false} OrderMember(dir: Direction, s: seq<Entry>, e: Entry)
    ensures e in OrderBy(dir, s) <==> e in s
  {
    if s != [] {
      OrderMember(dir, s[1..], e);
      PlaceMember(dir, s[0], OrderBy(dir, s[1..]), e);
      assert s == [s[0]] + s[1..];
    }
  }

  lemma {:induction false} OrderOrdered(dir: Direction, s: seq<Entry>)
    requires Keyed(s)
    ensures Ordered(dir, OrderBy(dir, s))
  {
    if s != [] {
      OrderOrdered(dir, s[1..]);
      forall x | x in OrderBy(dir, s[1..]) ensures x.id != s[0].id {
        OrderMember(dir, s[1..], x);
        var i :| 0 <= i < |s[1..]| && s[1..][i] == x;
        assert s[i + 1] == x;
      }
      PlaceOrdered(dir, s[0], OrderBy(dir, s[1..]));
    }
  }

  lemma OrderedTail(dir: Direction, s: seq<Entry>)
    requires Ordered(dir, s) && s != []
    ensures Ordered(dir, s[1..]) && s[0] !in s[1..] && forall e :: e in s[1..] <==> e in s && e != s[0]
  {
    assert s == [s[0]] + s[1..];
    assert forall i :: 1 <= i < |s| ==> s[i] != s[0];
  }

  lemma SomeEntry(s: seq<Entry>)
    ensures s != [] ==> exists e :: e in s
  {
    if s != [] { assert s[0] in s; }
  }

  /** A set of rows has one sorted listing. */
  lemma OrderedUnique(dir: Direction, a: seq<Entry>, b: seq<Entry>)
    requires Ordered(dir, a) && Ordered(dir, b) && forall e :: e in a <==> e in b
    ensures a == b
    decreases |a|
  {
    if a == [] {
      SomeEntry(b);
    } else {
      assert a[0] in a && a[0] in b && b[0] in b && b[0] in a;
      assert a[0] == b[0];
      OrderedTail(dir, a);
      OrderedTail(dir, b);
      OrderedUnique(dir, a[1..], b[1..]);
      assert a == [a[0]] + a[1..] && b == [b[0]] + b[1..];
    }
  }

  lemma OrderedIs(dir: Direction, s: seq<Entry>, sorted: seq<Entry>)
    requires Keyed(s) && Ordered(dir, sorted) && forall e :: e in sorted <==> e in s
    ensures OrderBy(dir, s) == sorted
  {
    OrderOrdered(dir, s);
    forall e ensures e in OrderBy(dir, s) <==> e in sorted { OrderMember(dir, s, e); }
    OrderedUnique(dir, OrderBy(dir, s), sorted);
  }

  // ----- the query is the page -----

  lemma FirstMember(s: seq<Entry>, k: nat, e: Entry)
    ensures e in First(s, k) ==> e in s
  {
  }

  lemma FirstOrdered(dir: Direction, s: seq<Entry>, k: nat)
    requires Ordered(dir, s)
    ensures Ordered(dir, First(s, k))
  {
  }

  /** Limiting the parts first does not change the limited whole. */
  lemma FirstConcat(a: seq<Entry>, b: seq<Entry>, k: nat)
    ensures First(First(a, k) + First(b, k), k) == First(a + b, k)
  {
  }

  lemma OrderedKeyed(dir: Direction, s: seq<Entry>, t: seq<Entry>)
    requires Keyed(t) && Ordered(dir, s) && forall e :: e in s ==> e in t
    ensures Keyed(s)
  {
    forall i, j | 0 <= i < j < |s| ensures s[i].id != s[j].id {
      assert Before(dir, s[i], s[j]) && s[i] in t && s[j] in t;
      var x :| 0 <= x < |t| && t[x] == s[i];
      var y :| 0 <= y < |t| && t[y] == s[j];
    }
  }

  lemma Joined(dir: Direction, a: seq<Entry>, b: seq<Entry>)
    requires Ordered(dir, a) && Ordered(dir, b) && forall x, y :: x in a && y in b ==> Before(dir, x, y)
    ensures Ordered(dir, a + b)
  {
    forall i, j | 0 <= i < j < |a + b| ensures Before(dir, (a + b)[i], (a + b)[j]) {
      if i < |a| <= j { assert a[i] in a && b[j - |a|] in b; }
    }
  }

  lemma UnionMember(a: seq<Entry>, b: seq<Entry>, e: Entry)
    ensures e in Union(a, b) <==> e in a || e in b
  {
    WhereMember(b, Outside(a), e);
  }

  lemma UnionKeyed(dir: Direction, a: seq<Entry>, b: seq<Entry>, t: seq<Entry>)
    requires Keyed(t) && Keyed(a) && Keyed(b) && (forall e :: e in a ==> e in t) && (forall e :: e in b ==> e in t)
    ensures Keyed(Union(a, b))
  {
    var w := Where(b, Outside(a));
    WhereKeyed(b, Outside(a));
    forall i, j | 0 <= i < j < |a + w| ensures (a + w)[i].id != (a + w)[j].id {
      if i < |a| <= j {
        var x, y := a[i], w[j - |a|];
        assert x in a && y in w;
        WhereMember(b, Outside(a), y);
        assert x in t && y in t && x != y;
        var m :| 0 <= m < |t| && t[m] == x;
        var n :| 0 <= n < |t| && t[n] == y;
      }
    }
  }

  /** The union of two limited selects, sorted and limited, is the limited concatenation of the
      two selects when the rows of one all come before the rows of the other. */
  lemma UnionPage(dir: Direction, near: seq<Entry>, far: seq<Entry>, t: seq<Entry>, k: nat)
    requires Keyed(t) && Ordered(dir, near) && Ordered(dir, far)
    requires forall e :: e in near || e in far ==> e in t
    requires forall x, y :: x in near && y in far ==> Before(dir, x, y)
    ensures First(OrderBy(dir, Union(First(far, k), First(near, k))), k) == First(near + far, k)
  {
    var a, b := First(near, k), First(far, k);
    FirstOrdered(dir, near, k);
    FirstOrdered(dir, far, k);
    forall e ensures (e in a ==> e in near) && (e in b ==> e in far) {
      FirstMember(near, k, e);
      FirstMember(far, k, e);
    }
    OrderedKeyed(dir, a, t);
    OrderedKeyed(dir, b, t);
    UnionKeyed(dir, b, a, t);
    Joined(dir, a, b);
    forall e ensures e in a + b <==> e in Union(b, a) { UnionMember(b, a, e); }
    OrderedIs(dir, Union(b, a), a + b);
    FirstConcat(near, far, k);
  }

  lemma UnionSelf(dir: Direction, s: seq<Entry>, k: nat, t: seq<Entry>)
    requires Keyed(t) && Ordered(dir, s) && forall e :: e in s ==> e in t
    ensures First(OrderBy(dir, Union(First(s, k), First(s, k))), k) == First(s, k)
  {
    var a := First(s, k);
    FirstOrdered(dir, s, k);
    forall e ensures e in a ==> e in s { FirstMember(s, k, e); }
    OrderedKeyed(dir, a, t);
    UnionKeyed(dir, a, a, t);
    forall e ensures e in a <==> e in Union(a, a) { UnionMember(a, a, e); }
    OrderedIs(dir, Union(a, a), a);
  }

  lemma {:induction false} WhereAll(s: seq<Entry>, p: Entry -> bool)
    requires forall e :: e in s ==> p(e)
    ensures Where(s, p) == s
  {
    if s != [] {
      assert s == [s[0]] + s[1..];
      WhereAll(s[1..], p);
    }
  }

  /** The rows beyond a position are those at its time with a later id, then those at a later
      time; the code's two conditions are exactly these when the time is not zero. */
  lemma BeyondParts(dir: Direction, s: seq<Entry>, c: Cursor)
    requires Keyed(s) && c.digest.Some? && c.senderTimeNs != 0
    ensures var near, far := OrderBy(dir, Where(s, Same(dir, c))), OrderBy(dir, Where(s, Later(dir, c)));
            && Where(OrderBy(dir, s), Ahead(dir, c)) == near + far
            && Ordered(dir, near) && Ordered(dir, far)
            && (forall e :: e in near || e in far ==> e in s)
            && (forall x, y :: x in near && y in far ==> Before(dir, x, y))
  {
    var near, far := OrderBy(dir, Where(s, Same(dir, c))), OrderBy(dir, Where(s, Later(dir, c)));
    var ahead := Where(OrderBy(dir, s), Ahead(dir, c));
    WhereKeyed(s, Same(dir, c));
    WhereKeyed(s, Later(dir, c));
    OrderOrdered(dir, Where(s, Same(dir, c)));
    OrderOrdered(dir, Where(s, Later(dir, c)));
    OrderOrdered(dir, s);
    WhereOrdered(dir, OrderBy(dir, s), Ahead(dir, c));
    forall e
      ensures e in near <==> e in s && SameTime(dir, c, e)
      ensures e in far <==> e in s && LaterTime(dir, c, e)
      ensures e in ahead <==> e in s && Beyond(dir, c, e)
    {
      OrderMember(dir, Where(s, Same(dir, c)), e);
      OrderMember(dir, Where(s, Later(dir, c)), e);
      WhereMember(s, Same(dir, c), e);
      WhereMember(s, Later(dir, c), e);
      WhereMember(OrderBy(dir, s), Ahead(dir, c), e);
      OrderMember(dir, s, e);
    }
    Joined(dir, near, far);
    OrderedUnique(dir, ahead, near + far);
  }

  /** The query the code builds returns the reference page, for every table, every filter, every
      direction, limit and cursor with a time and a digest, and without a cursor. */
  lemma QueryIsPage(tab: seq<Entry>, q: Query)
    requires Keyed(tab)
    requires var c := Paging(q).cursor;
             c.Some? && !NamesNothing(c.value) ==> c.value.digest.Some? && c.value.senderTimeNs != 0
    ensures RunQuery(tab, q) == Page(tab, q)
  {
    var p, s := Paging(q), Where(tab, Filter(q));
    var dir, k := GetDirection(p), GetPageSize(p);
    WhereKeyed(tab, Filter(q));
    OrderOrdered(dir, s);
    forall e ensures e in OrderBy(dir, s) <==> e in s { OrderMember(dir, s, e); }
    match p.cursor
    case None => WhereAll(s, Unconditional());
    case Some(c) =>
      if c.digest.None? {
        WhereAll(s, Later(dir, c));
        WhereAll(s, Same(dir, c));
        UnionSelf(dir, OrderBy(dir, s), k, s);
      } else {
        BeyondParts(dir, s, c);
        UnionPage(dir, OrderBy(dir, Where(s, Same(dir, c))), OrderBy(dir, Where(s, Later(dir, c))), s, k);
      }
  }

  // ----- what a page holds -----

  /** A row the request asks for, on its fields: no list of topics asks for all of them, and a
      zero time is no bound. */
  ghost predicate Asked(q: Query, e: Entry) {
    && (q.contentTopics == [] || e.topic in q.contentTopics)
    && (q.startTimeNs == 0 || q.startTimeNs <= e.time)
    && (q.endTimeNs == 0 || e.time <= q.endTimeNs)
  }

  /** Whether (time, id) stands ahead of a row in the order the request asks for: the first pair
      first when it asks for ascending order, the last pair first when it does not. */
  ghost predicate Leads(q: Query, time: nat, id: nat, e: Entry) {
    if q.pagingInfo.Some? && q.pagingInfo.value.direction == Ascending
    then time < e.time || (time == e.time && id < e.id)
    else time > e.time || (time == e.time && id > e.id)
  }

  ghost predicate Sorted(q: Query, rows: seq<Entry>) {
    forall i, j :: 0 <= i < j < |rows| ==> Leads(q, rows[i].time, rows[i].id, rows[j])
  }

  /** The rows asked for that the request's cursor leaves: all of them without a cursor or with one
      that has no digest; those the cursor's time and digest stand ahead of; and when its time is
      zero, those whose id lies on the far side of the digest, whatever their time. */
  ghost predicate Left(q: Query, e: Entry) {
    && Asked(q, e)
    && (q.pagingInfo.Some? && q.pagingInfo.value.cursor.Some? && q.pagingInfo.value.cursor.value.digest.Some? ==>
          var time, id := q.pagingInfo.value.cursor.value.senderTimeNs, q.pagingInfo.value.cursor.value.digest.value;
          if time != 0 then Leads(q, time, id, e)
          else if q.pagingInfo.value.direction == Ascending then e.id > id else e.id < id)
  }

  lemma SelectedIsAsked(q: Query, e: Entry)
    ensures Selected(q.contentTopics, q.startTimeNs, q.endTimeNs, e) <==> Asked(q, e)
  {
  }

  lemma OrderedIsSorted(q: Query, rows: seq<Entry>)
    ensures Ordered(GetDirection(Paging(q)), rows) <==> Sorted(q, rows)
  {
    forall a: Entry, b: Entry ensures Before(GetDirection(Paging(q)), a, b) <==> Leads(q, a.time, a.id, b) {
    }
    hide Before, Leads, GetDirection, Paging;
  }

  /** All rows from the cursor on, as the code reads it, of which a page is the beginning. */
  ghost function Remaining(tab: seq<Entry>, q: Query): seq<Entry> {
    var dir, c := GetDirection(Paging(q)), Paging(q).cursor;
    if c.None? || c.value.digest.None? then Matching(tab, q)
    else if c.value.senderTimeNs != 0 then Where(Matching(tab, q), Ahead(dir, c.value))
    else OrderBy(dir, Where(Where(tab, Filter(q)), Later(dir, c.value)))
  }

  lemma RunIsFirst(tab: seq<Entry>, q: Query)
    requires Keyed(tab)
    ensures RunQuery(tab, q) == First(Remaining(tab, q), GetPageSize(Paging(q)))
  {
    var p, s := Paging(q), Where(tab, Filter(q));
    var dir, k := GetDirection(p), GetPageSize(p);
    if p.cursor.Some? && (p.cursor.value.digest.None? || p.cursor.value.senderTimeNs == 0) {
      var c := p.cursor.value;
      var rows := Where(s, Later(dir, c));
      WhereKeyed(tab, Filter(q));
      WhereKeyed(s, Later(dir, c));
      OrderOrdered(dir, rows);
      SameWhere(s, Later(dir, c), Same(dir, c));
      forall e ensures e in OrderBy(dir, rows) ==> e in s {
        OrderMember(dir, rows, e);
        WhereMember(s, Later(dir, c), e);
      }
      UnionSelf(dir, OrderBy(dir, rows), k, s);
      if c.digest.None? { WhereAll(s, Later(dir, c)); }
    } else {
      QueryIsPage(tab, q);
    }
  }

  lemma {:induction false} SameWhere(s: seq<Entry>, a: Entry -> bool, b: Entry -> bool)
    requires forall e :: a(e) == b(e)
    ensures Where(s, a) == Where(s, b)
  {
    if s != [] { SameWhere(s[1..], a, b); }
  }

  lemma RemainingMeans(tab: seq<Entry>, q: Query)
    requires Keyed(tab)
    ensures Sorted(q, Remaining(tab, q)) && forall e :: e in Remaining(tab, q) <==> e in tab && Left(q, e)
  {
    var dir, p, s := GetDirection(Paging(q)), Paging(q), Where(tab, Filter(q));
    MatchingFacts(tab, q);
    if p.cursor.Some? {
      var c := p.cursor.value;
      WhereOrdered(dir, Matching(tab, q), Ahead(dir, c));
      WhereKeyed(tab, Filter(q));
      WhereKeyed(s, Later(dir, c));
      OrderOrdered(dir, Where(s, Later(dir, c)));
    }
    OrderedIsSorted(q, Remaining(tab, q));
    forall e ensures e in Remaining(tab, q) <==> e in tab && Left(q, e) {
      if p.cursor.Some? {
        var c := p.cursor.value;
        WhereMember(Matching(tab, q), Ahead(dir, c), e);
        OrderMember(dir, Where(s, Later(dir, c)), e);
        WhereMember(s, Later(dir, c), e);
        WhereMember(tab, Filter(q), e);
      }
      SelectedIsAsked(q, e);
      hide Matching, Selected, Asked, Where, OrderBy;
    }
  }

  /** A query, on its fields, for every request: it returns rows the cursor leaves, in the order
      asked for, at most the limit of them (100 when none is given), and a row it leaves out comes
      after a full page. */
  lemma PageMeans(tab: seq<Entry>, q: Query)
    requires Keyed(tab)
    ensures var rows := RunQuery(tab, q);
            var k := if q.pagingInfo.Some? && q.pagingInfo.value.limit != 0 then q.pagingInfo.value.limit else 100;
            && Sorted(q, rows) && |rows| <= k
            && (forall e :: e in rows ==> e in tab && Left(q, e))
            && (forall e :: e in tab && Left(q, e) && e !in rows ==>
                  |rows| == k && Leads(q, rows[k - 1].time, rows[k - 1].id, e))
  {
    RunIsFirst(tab, q);
    RemainingMeans(tab, q);
    var ahead, k := Remaining(tab, q), GetPageSize(Paging(q));
    hide RunQuery, Remaining, Left, Leads;
    forall e | e in ahead && e !in First(ahead, k)
      ensures k < |ahead| && Leads(q, ahead[k - 1].time, ahead[k - 1].id, e)
    {
      PastFirst(q, ahead, k, e);
    }
  }

  lemma PastFirst(q: Query, ahead: seq<Entry>, k: nat, e: Entry)
    requires Sorted(q, ahead) && k >= 1 && e in ahead && e !in First(ahead, k)
    ensures k < |ahead| && Leads(q, ahead[k - 1].time, ahead[k - 1].id, e)
  {
    hide Leads;
    var i :| 0 <= i < |ahead| && ahead[i] == e;
    var page := First(ahead, k);
    assert forall j :: 0 <= j < |page| ==> page[j] in page && page[j] == ahead[j];
  }

  // ----- exactly when -----

  /** The time range of a request leaves room for some row. */
  predicate SomeTime(q: Query) {
    q.endTimeNs == 0 || q.startTimeNs <= q.endTimeNs
  }

  /** Some time in the request's range is not beyond this time: the code ignores a cursor without
      a digest, so rows up to its time come back. */
  predicate Ignored(q: Query, time: nat) {
    if GetDirection(Paging(q)) == Ascending then q.startTimeNs <= time else q.endTimeNs == 0 || time <= q.endTimeNs
  }

  /** Requests the query handles: those without a cursor, or whose cursor has both a time and a
      digest; and, by luck, those in which no row could be on the wrong side of the cursor. */
  predicate Handled(q: Query) {
    if Paging(q).cursor.None? || NamesNothing(Paging(q).cursor.value) || !SomeTime(q) then true
    else
      var c := Paging(q).cursor.value;
      match c.digest
      case None => !Ignored(q, c.senderTimeNs)
      case Some(d) => c.senderTimeNs != 0 || (GetDirection(Paging(q)) == Descending && d == 0)
  }

  lemma {:induction false} WhereNone(s: seq<Entry>, p: Entry -> bool)
    requires forall e :: e in s ==> !p(e)
    ensures Where(s, p) == []
  {
    if s != [] {
      assert s == [s[0]] + s[1..];
      WhereNone(s[1..], p);
    }
  }

  /** No row is selected, or the code's conditions and the position agree on all of them. */
  lemma HandledByLuck(tab: seq<Entry>, q: Query)
    requires Keyed(tab) && Handled(q) && Paging(q).cursor.Some? && !NamesNothing(Paging(q).cursor.value)
    requires Paging(q).cursor.value.digest.None? || Paging(q).cursor.value.senderTimeNs == 0
    ensures RunQuery(tab, q) == Page(tab, q)
  {
    var p, s := Paging(q), Where(tab, Filter(q));
    var dir, c := GetDirection(p), p.cursor.value;
    forall e ensures e in s ==> Selected(q.contentTopics, q.startTimeNs, q.endTimeNs, e)
             ensures e in OrderBy(dir, s) <==> e in s
    {
      WhereMember(tab, Filter(q), e);
      OrderMember(dir, s, e);
    }
    if SomeTime(q) && c.digest.None? {
      WhereKeyed(tab, Filter(q));
      OrderOrdered(dir, s);
      WhereAll(s, Later(dir, c));
      WhereAll(s, Same(dir, c));
      WhereAll(OrderBy(dir, s), Ahead(dir, c));
      UnionSelf(dir, OrderBy(dir, s), GetPageSize(p), s);
    } else {
      WhereNone(s, Later(dir, c));
      WhereNone(s, Same(dir, c));
      WhereNone(OrderBy(dir, s), Ahead(dir, c));
    }
  }

  /** A row that the query gets wrong: at the cursor's own time when there is no digest, else at
      a time above zero with the wrong id. */
  function Missed(q: Query): Entry
    requires !Handled(q)
  {
    var c, asc := Paging(q).cursor.value, GetDirection(Paging(q)) == Ascending;
    var topic := if |q.contentTopics| > 0 then q.contentTopics[0] else 0;
    match c.digest
    case None => Entry(if asc then q.startTimeNs else Max(c.senderTimeNs, q.startTimeNs), 0, topic)
    case Some(d) => Entry(Max(1, q.startTimeNs), if asc then d else d - 1, topic)
  }

  lemma OneRow(dir: Direction, e: Entry, p: Entry -> bool)
    ensures Where([e], p) == if p(e) then [e] else []
    ensures OrderBy(dir, [e]) == [e] && OrderBy(dir, []) == []
  {
    assert [e][1..] == [];
  }

  lemma MissedBreaks(q: Query)
    requires !Handled(q)
    ensures RunQuery([Missed(q)], q) != Page([Missed(q)], q)
  {
    var e, p := Missed(q), Paging(q);
    var dir, c := GetDirection(p), p.cursor.value;
    OneRow(dir, e, Filter(q));
    OneRow(dir, e, Later(dir, c));
    OneRow(dir, e, Same(dir, c));
    OneRow(dir, e, Ahead(dir, c));
    OneRow(dir, e, Outside([e]));
    assert Selected(q.contentTopics, q.startTimeNs, q.endTimeNs, e);
    assert Union([], []) == [] && Union([e], [e]) == [e];
    if dir == Ascending && c.digest.Some? {
      assert RunQuery([e], q) == [] && Page([e], q) == [e];
    } else {
      assert RunQuery([e], q) == [e] && Page([e], q) == [];
    }
  }

  /** For a given request the query is right on every table exactly when it is a handled one. */
  lemma QueryIsPageExactly(q: Query)
    ensures (forall tab :: Keyed(tab) ==> RunQuery(tab, q) == Page(tab, q)) <==> Handled(q)
  {
    if Handled(q) {
      forall tab | Keyed(tab) ensures RunQuery(tab, q) == Page(tab, q) {
        var c := Paging(q).cursor;
        if c.Some? && !NamesNothing(c.value) && (c.value.digest.None? || c.value.senderTimeNs == 0) {
          HandledByLuck(tab, q);
        } else {
          QueryIsPage(tab, q);
        }
      }
    } else {
      MissedBreaks(q);
      assert Keyed([Missed(q)]);
    }
  }

  // ----- enumeration -----

  lemma NotEarlier(dir: Direction, all: seq<Entry>, i: nat, n: nat)
    requires Ordered(dir, all) && i < |all| && 0 < n <= |all| && Before(dir, all[n - 1], all[i])
    ensures i >= n
  {
  }

  /** The rows after the n-th of a sorted listing are those beyond its position. */
  lemma AheadOfNth(dir: Direction, all: seq<Entry>, n: nat)
    requires Ordered(dir, all) && 0 < n <= |all|
    ensures Where(all, Ahead(dir, BuildCursor(all[n - 1]))) == all[n..]
  {
    var p := Ahead(dir, BuildCursor(all[n - 1]));
    WhereOrdered(dir, all, p);
    forall e ensures e in Where(all, p) <==> e in all[n..] {
      WhereMember(all, p, e);
      if e in all && Beyond(dir, BuildCursor(all[n - 1]), e) {
        var i :| 0 <= i < |all| && all[i] == e;
        assert Before(dir, all[n - 1], all[i]);
        NotEarlier(dir, all, i, n);
        assert all[n..][i - n] == e;
      }
      if e in all[n..] {
        var i :| 0 <= i < |all[n..]| && all[n..][i] == e;
        assert all[n + i] == e && Before(dir, all[n - 1], all[n + i]);
      }
    }
    OrderedUnique(dir, Where(all, p), all[n..]);
  }

  lemma MatchingFacts(tab: seq<Entry>, q: Query)
    requires Keyed(tab)
    ensures Ordered(GetDirection(Paging(q)), Matching(tab, q))
    ensures forall e :: e in Matching(tab, q) <==> e in tab && Selected(q.contentTopics, q.startTimeNs, q.endTimeNs, e)
  {
    WhereKeyed(tab, Filter(q));
    OrderOrdered(GetDirection(Paging(q)), Where(tab, Filter(q)));
    forall e ensures e in Matching(tab, q) <==> e in tab && Selected(q.contentTopics, q.startTimeNs, q.endTimeNs, e) {
      WhereMember(tab, Filter(q), e);
      OrderMember(GetDirection(Paging(q)), Where(tab, Filter(q)), e);
    }
  }

  /** Which request a client has after reading the first n rows: at the start, or at the n-th. */
  ghost predicate At(all: seq<Entry>, q: Query, n: nat) {
    && n <= |all|
    && match Paging(q).cursor
       case None => n == 0
       case Some(c) => n > 0 && c == BuildCursor(all[n - 1])
  }

  /** The next response continues the listing where the client stands, and either puts the
      client after what it returned or says that this was all. */
  lemma NextPage(tab: seq<Entry>, q: Query, n: nat)
    requires Keyed(tab) && At(Matching(tab, q), q, n)
    requires forall e :: e in Matching(tab, q) ==> e.time != 0
    ensures var all, r := Matching(tab, q), Answer(tab, q);
            var q' := q.(pagingInfo := Some(r.pagingInfo));
            && Matching(tab, q') == all
            && r.envelopes == First(all[n..], GetPageSize(Paging(q)))
            && (r.pagingInfo.cursor.None? ==> n + |r.envelopes| == |all|)
            && (r.pagingInfo.cursor.Some? ==> r.envelopes != [] && At(all, q', n + |r.envelopes|))
            && (var k := if q.pagingInfo.Some? && q.pagingInfo.value.limit != 0 then q.pagingInfo.value.limit else 100;
                && |r.envelopes| <= k && (r.pagingInfo.cursor.Some? <==> |r.envelopes| == k)
                && (r.pagingInfo.cursor.Some? ==> r.pagingInfo.limit == if k < 100 then k else 100))
  {
    var all, p := Matching(tab, q), Paging(q);
    MatchingFacts(tab, q);
    if n > 0 {
      assert all[n - 1] in all;
      AheadOfNth(GetDirection(p), all, n);
    } else {
      assert all[0..] == all;
    }
    QueryIsPage(tab, q);
    var r := Answer(tab, q);
    assert r.envelopes == First(all[n..], GetPageSize(p));
    if r.envelopes != [] {
      assert all[n + |r.envelopes| - 1] == r.envelopes[|r.envelopes| - 1];
    }
  }

  lemma StartsAt(tab: seq<Entry>, q: Query)
    requires Paging(q).cursor == None
    ensures At(Matching(tab, q), q, 0)
  {
  }

  lemma SameSelection(tab: seq<Entry>, q: Query, r: Query)
    requires r.contentTopics == q.contentTopics && r.startTimeNs == q.startTimeNs && r.endTimeNs == q.endTimeNs
    ensures forall e ::
              Selected(r.contentTopics, r.startTimeNs, r.endTimeNs, e)
              == Selected(q.contentTopics, q.startTimeNs, q.endTimeNs, e)
  {
  }

  /** A client that feeds each response's paging info back until it carries no cursor receives
      every selected row exactly once, in order, whatever the page size it began with, and
      stops after at most one page more than there are rows. */
  method Enumerate(tab: seq<Entry>, q: Query) returns (all: seq<Entry>, pages: nat)
    requires Keyed(tab) && Paging(q).cursor == None
    requires forall e :: e in tab && Asked(q, e) ==> e.time != 0
    ensures all == Matching(tab, q)
    ensures Sorted(q, all) && forall e :: e in all <==> e in tab && Asked(q, e)
    ensures pages <= |all| + 1
  {
    hide Matching, Answer, Selected, Asked, Sorted, At, GetPageSize, GetDirection;
    ghost var listing := Matching(tab, q);
    MatchingFacts(tab, q);
    OrderedIsSorted(q, listing);
    forall e ensures e in listing <==> e in tab && Asked(q, e) { SelectedIsAsked(q, e); }
    StartsAt(tab, q);
    var request := q;
    NextPage(tab, request, 0);
    var response := Answer(tab, request);
    all, pages := response.envelopes, 1;
    while response.pagingInfo.cursor.Some?
      invariant request.contentTopics == q.contentTopics && request.startTimeNs == q.startTimeNs
      invariant request.endTimeNs == q.endTimeNs
      invariant var next := request.(pagingInfo := Some(response.pagingInfo));
                Matching(tab, next) == listing && (response.pagingInfo.cursor.Some? ==> At(listing, next, |all|))
      invariant |all| <= |listing| && all == listing[..|all|]
      invariant response.pagingInfo.cursor.None? ==> |all| == |listing|
      invariant pages <= |all| + 1 && (response.pagingInfo.cursor.Some? ==> pages <= |all|)
      decreases |listing| - |all|, response.pagingInfo.cursor.Some?
    {
      request := request.(pagingInfo := Some(response.pagingInfo));
      SameSelection(tab, q, request);
      NextPage(tab, request, |all|);
      response := Answer(tab, request);
      assert all + response.envelopes == listing[..|all| + |response.envelopes|];
      all := all + response.envelopes;
      pages := pages + 1;
    }
  }
}
