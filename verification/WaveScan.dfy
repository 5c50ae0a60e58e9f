/** The store's wave-scan query and one turn of the rotating catch-up scan built on it. */
module WaveScan {
  import opened Rows

  datatype Option<+T> = None | Some(value: T)

  /** A topic of a catch-up and the id it resumes from. */
  datatype Add = Add(topic: Topic, cursor: nat)

  function Min(a: nat, b: nat): nat { if a <= b then a else b }

  function Max(a: nat, b: nat): nat { if a <= b then b else a }

  /** A tunable that must not be zero or negative. */
  function AtLeastOne(n: int): (r: nat)
    ensures r >= 1 && (n >= 1 ==> r == n)
  {
    if n < 1 then 1 else n
  }

  function ClampCursor(c: nat): nat {
    if c > MAX_INT64 then MAX_INT64 else c
  }

  function Limited(s: seq<Row>, limit: nat): seq<Row> {
    s[..Min(|s|, limit)]
  }

  /** One LATERAL probe: at most `limit` rows of one topic above its cursor, up to the ceiling. */
  function Probe(tab: seq<Row>, f: Add, scanCursor: nat, ceiling: nat, limit: nat): seq<Row> {
    Limited(Raw(tab, f.topic, Max(ClampCursor(f.cursor), ClampCursor(scanCursor)), ClampCursor(ceiling)), limit)
  }

  function Probes(tab: seq<Row>, filters: seq<Add>, scanCursor: nat, ceiling: nat, limit: nat): seq<Row> {
    if filters == [] then []
    else Probe(tab, filters[0], scanCursor, ceiling, limit) + Probes(tab, filters[1..], scanCursor, ceiling, limit)
  }

  /** The meaning of the wave-scan SQL: every filter's probe, ordered by id. */
  function WaveQuery(tab: seq<Row>, filters: seq<Add>, scanCursor: nat, ceiling: nat, limit: nat): seq<Row> {
    if filters == [] || ceiling == 0 then [] else SortById(Probes(tab, filters, scanCursor, ceiling, limit))
  }

  ghost predicate Distinct(q: seq<Add>) {
    forall i, j :: 0 <= i < j < |q| ==> q[i].topic != q[j].topic
  }

  /** The cursor a scan queue holds for a topic. */
  function Find(q: seq<Add>, t: Topic): Option<nat> {
    if q == [] then None
    else if q[0].topic == t then Some(q[0].cursor)
    else Find(q[1..], t)
  }

  /** How far a scan has replayed a topic: its queued cursor, or `end` once it has retired. */
  function Position(q: seq<Add>, t: Topic, end: nat): nat {
    match Find(q, t)
    case Some(c) => c
    case None => end
  }

  lemma {:induction false} FindMember(q: seq<Add>, t: Topic)
    ensures Find(q, t).Some? ==> Add(t, Find(q, t).value) in q
    ensures Find(q, t).None? ==> forall a :: a in q ==> a.topic != t
  {
    if q != [] {
      assert q == [q[0]] + q[1..];
      if q[0].topic != t {
        FindMember(q[1..], t);
      } else {
        assert q[0] == Add(t, q[0].cursor);
      }
    }
  }

  lemma DistinctTail(q: seq<Add>)
    requires Distinct(q) && q != []
    ensures Distinct(q[1..]) && forall a :: a in q[1..] ==> a.topic != q[0].topic
  {
    forall a | a in q[1..] ensures a.topic != q[0].topic {
      var i :| 0 <= i < |q[1..]| && q[1..][i] == a;
      assert q[i + 1] == a;
    }
  }

  lemma FindDistinct(q: seq<Add>, a: Add)
    requires Distinct(q) && a in q
    ensures Find(q, a.topic) == Some(a.cursor)
  {
    FindMember(q, a.topic);
    var i :| 0 <= i < |q| && q[i] == a;
    if Find(q, a.topic).Some? {
      var j :| 0 <= j < |q| && q[j] == Add(a.topic, Find(q, a.topic).value);
      assert i == j;
    }
  }

  lemma {:induction false} FindConcat(a: seq<Add>, b: seq<Add>, t: Topic)
    ensures Find(a + b, t) == if Find(a, t).Some? then Find(a, t) else Find(b, t)
  {
    if a == [] {
      assert a + b == b;
    } else {
      assert (a + b)[1..] == a[1..] + b;
      FindConcat(a[1..], b, t);
    }
  }

  // ----- the query, one topic at a time -----

  lemma {:induction false} RawClamp(tab: seq<Row>, t: Topic, lo: nat, hi: nat)
    requires forall r :: r in tab ==> r.id <= MAX_INT64
    ensures Raw(tab, t, ClampCursor(lo), ClampCursor(hi)) == Raw(tab, t, lo, hi)
  {
    if tab != [] {
      assert tab == [tab[0]] + tab[1..];
      assert tab[0] in tab;
      RawClamp(tab[1..], t, lo, hi);
    }
  }

  /** A cursor too large for the column saturates, so it matches nothing instead of everything. */
  lemma ProbeIsRaw(tab: seq<Row>, f: Add, ceiling: nat, limit: nat)
    requires forall r :: r in tab ==> r.id <= MAX_INT64
    ensures Probe(tab, f, 0, ceiling, limit) == Limited(Raw(tab, f.topic, f.cursor, ceiling), limit)
  {
    RawClamp(tab, f.topic, f.cursor, ceiling);
  }

  lemma ProbeRows(tab: seq<Row>, f: Add, scanCursor: nat, ceiling: nat, limit: nat)
    requires Ascending(tab)
    ensures Ascending(Probe(tab, f, scanCursor, ceiling, limit))
    ensures forall r :: r in Probe(tab, f, scanCursor, ceiling, limit) ==> r in tab && r.topic == f.topic
    ensures |Probe(tab, f, scanCursor, ceiling, limit)| <= limit
  {
    var lo, hi := Max(ClampCursor(f.cursor), ClampCursor(scanCursor)), ClampCursor(ceiling);
    var raw := Raw(tab, f.topic, lo, hi);
    RawAscending(tab, f.topic, lo, hi);
    forall r | r in Probe(tab, f, scanCursor, ceiling, limit) ensures r in tab && r.topic == f.topic {
      assert r in raw;
      RawMember(tab, f.topic, lo, hi, r);
    }
  }

  /** Among distinct filters, a topic's share of the result is its own probe. */
  lemma {:induction false} ProbesOfTopic(tab: seq<Row>, filters: seq<Add>, sc: nat, ceiling: nat, limit: nat, t: Topic)
    requires Ascending(tab) && Distinct(filters)
    ensures Proj(Probes(tab, filters, sc, ceiling, limit), t) ==
            if Find(filters, t).Some? then Probe(tab, Add(t, Find(filters, t).value), sc, ceiling, limit) else []
  {
    if filters != [] {
      var f := filters[0];
      var head, rest := Probe(tab, f, sc, ceiling, limit), Probes(tab, filters[1..], sc, ceiling, limit);
      ProbesOfTopic(tab, filters[1..], sc, ceiling, limit, t);
      ProjConcat(head, rest, t);
      ProbeRows(tab, f, sc, ceiling, limit);
      if f.topic == t {
        ProjOfTopic(head, t);
        DistinctTail(filters);
        FindMember(filters[1..], t);
        assert f == Add(t, f.cursor);
        assert head + [] == head;
      } else {
        ProjOfOthers(head, t);
      }
    }
  }

  lemma QueryOfTopic(tab: seq<Row>, filters: seq<Add>, sc: nat, ceiling: nat, limit: nat, t: Topic)
    requires Ascending(tab) && Distinct(filters) && ceiling > 0
    ensures Proj(WaveQuery(tab, filters, sc, ceiling, limit), t) ==
            if Find(filters, t).Some? then Probe(tab, Add(t, Find(filters, t).value), sc, ceiling, limit) else []
  {
    ProbesOfTopic(tab, filters, sc, ceiling, limit, t);
    if Find(filters, t).Some? {
      ProbeRows(tab, Add(t, Find(filters, t).value), sc, ceiling, limit);
    }
    ProjSortAscending(Probes(tab, filters, sc, ceiling, limit), t);
  }

  lemma MulStep(n: nat, limit: nat)
    requires n > 0
    ensures n * limit == limit + (n - 1) * limit
  {
  }

  lemma {:induction false} ProbesBounded(tab: seq<Row>, filters: seq<Add>, sc: nat, ceiling: nat, limit: nat)
    requires Ascending(tab)
    ensures |Probes(tab, filters, sc, ceiling, limit)| <= |filters| * limit
    ensures forall r :: r in Probes(tab, filters, sc, ceiling, limit) ==> r in tab
  {
    if filters != [] {
      ProbeRows(tab, filters[0], sc, ceiling, limit);
      ProbesBounded(tab, filters[1..], sc, ceiling, limit);
      MulStep(|filters|, limit);
    }
  }

  /** A turn is at most one page per topic, ascends across its topics and comes from the table. */
  lemma QueryBounded(tab: seq<Row>, filters: seq<Add>, sc: nat, ceiling: nat, limit: nat)
    requires Ascending(tab)
    ensures |WaveQuery(tab, filters, sc, ceiling, limit)| <= |filters| * limit
    ensures NonDescending(WaveQuery(tab, filters, sc, ceiling, limit))
    ensures forall r :: r in WaveQuery(tab, filters, sc, ceiling, limit) ==> r in tab
  {
    var p := Probes(tab, filters, sc, ceiling, limit);
    ProbesBounded(tab, filters, sc, ceiling, limit);
    SortFacts(p);
    forall r | r in WaveQuery(tab, filters, sc, ceiling, limit) ensures r in tab {
      SortMember(p, r);
    }
  }

  // ----- one turn -----

  /** The batch topics that filled their page, moved to the last id it reached. */
  function Rotated(tab: seq<Row>, batch: seq<Add>, ceiling: nat, limit: nat): seq<Add> {
    if batch == [] then []
    else
      var p := Probe(tab, batch[0], 0, ceiling, limit);
      var rest := Rotated(tab, batch[1..], ceiling, limit);
      if |p| < limit then rest else [Add(batch[0].topic, Max(batch[0].cursor, LastId(p, 0)))] + rest
  }

  /** `rows` is everything the turn fetched, parseable or not. */
  datatype Turn = Turn(rows: seq<Row>, queue: seq<Add>)

  function RunTurn(tab: seq<Row>, queue: seq<Add>, ceiling: nat, batchTopics: nat, limit: nat): Turn {
    var n := Min(|queue|, batchTopics);
    Turn(WaveQuery(tab, queue[..n], 0, ceiling, limit), queue[n..] + Rotated(tab, queue[..n], ceiling, limit))
  }

  lemma {:induction false} RotatedOfTopic(tab: seq<Row>, batch: seq<Add>, ceiling: nat, limit: nat, t: Topic)
    requires Distinct(batch)
    ensures Find(batch, t).None? ==> Find(Rotated(tab, batch, ceiling, limit), t).None?
    ensures Find(batch, t).Some? ==>
              var c := Find(batch, t).value;
              var p := Probe(tab, Add(t, c), 0, ceiling, limit);
              Find(Rotated(tab, batch, ceiling, limit), t) ==
                if |p| < limit then None else Some(Max(c, LastId(p, 0)))
  {
    if batch != [] {
      RotatedOfTopic(tab, batch[1..], ceiling, limit, t);
      if batch[0].topic == t {
        assert batch[0] == Add(t, batch[0].cursor);
        DistinctTail(batch);
        FindMember(batch[1..], t);
      }
      var rest := Rotated(tab, batch[1..], ceiling, limit);
      var moved := Add(batch[0].topic, Max(batch[0].cursor, LastId(Probe(tab, batch[0], 0, ceiling, limit), 0)));
      assert ([moved] + rest)[1..] == rest;
    }
  }

  lemma {:induction false} RotatedDistinct(tab: seq<Row>, batch: seq<Add>, ceiling: nat, limit: nat)
    requires Distinct(batch)
    ensures Distinct(Rotated(tab, batch, ceiling, limit))
    ensures forall a :: a in Rotated(tab, batch, ceiling, limit) ==> exists b :: b in batch && b.topic == a.topic
  {
    if batch != [] {
      RotatedDistinct(tab, batch[1..], ceiling, limit);
      assert batch == [batch[0]] + batch[1..];
      var rest := Rotated(tab, batch[1..], ceiling, limit);
      forall j | 0 <= j < |rest| ensures rest[j].topic != batch[0].topic {
        assert rest[j] in rest;
        var b :| b in batch[1..] && b.topic == rest[j].topic;
        var i :| 0 <= i < |batch[1..]| && batch[1..][i] == b;
        assert batch[i + 1] == b;
      }
    }
  }

  lemma TurnDistinct(tab: seq<Row>, queue: seq<Add>, ceiling: nat, batchTopics: nat, limit: nat)
    requires Distinct(queue)
    ensures Distinct(RunTurn(tab, queue, ceiling, batchTopics, limit).queue)
  {
    var n := Min(|queue|, batchTopics);
    RotatedDistinct(tab, queue[..n], ceiling, limit);
    var rot := Rotated(tab, queue[..n], ceiling, limit);
    var q := queue[n..] + rot;
    forall i, j | 0 <= i < j < |q| ensures q[i].topic != q[j].topic {
      if i < |queue| - n <= j {
        var r := rot[j - (|queue| - n)];
        assert r in rot;
        var b :| b in queue[..n] && b.topic == r.topic;
        var m :| 0 <= m < n && queue[m] == b;
      }
    }
  }

  /** A probe that filled its page covers the ids up to its last row; one that did not, all. */
  lemma ProbeExact(tab: seq<Row>, t: Topic, c: nat, ceiling: nat, limit: nat)
    requires TableOk(tab, t.kind) && limit >= 1 && c <= ceiling
    ensures var p := Probe(tab, Add(t, c), 0, ceiling, limit);
            var upTo := if |p| < limit then ceiling else Max(c, LastId(p, 0));
            c <= upTo <= ceiling && Exactly(tab, t, c, upTo, Known(p))
  {
    hide Raw, Known, Probe, Exactly, TableOk;
    var raw, p := Raw(tab, t, c, ceiling), Probe(tab, Add(t, c), 0, ceiling, limit);
    TableFacts(tab, t.kind);
    ProbeIsRaw(tab, Add(t, c), ceiling, limit);
    RawAscending(tab, t, c, ceiling);
    forall r ensures r in raw <==> r in tab && r.topic == t && c < r.id <= ceiling { RawMember(tab, t, c, ceiling, r); }
    if |p| == limit { assert p[limit - 1] in raw; }
    var upTo := if |p| < limit then ceiling else Max(c, LastId(p, 0));
    forall r ensures r in p <==> r in tab && r.topic == t && c < r.id <= upTo { PrefixUpTo(raw, |p|, r); }
    KnownExactly(tab, t, c, upTo, p);
  }

  lemma TableFacts(tab: seq<Row>, k: Kind)
    requires TableOk(tab, k)
    ensures Ascending(tab) && forall r :: r in tab ==> r.id <= MAX_INT64
  {
  }

  /** The first rows of an ascending list are those up to the last of them. */
  lemma PrefixUpTo(all: seq<Row>, n: nat, r: Row)
    requires Ascending(all) && n <= |all|
    ensures r in all[..n] <==> r in all && n > 0 && r.id <= all[n - 1].id
  {
    if r in all {
      var i :| 0 <= i < |all| && all[i] == r;
      if i < n { assert all[..n][i] == r; }
    }
  }

  lemma KnownExactly(tab: seq<Row>, t: Topic, lo: nat, hi: nat, s: seq<Row>)
    requires Ascending(s) && forall r :: r in s <==> r in tab && r.topic == t && lo < r.id <= hi
    ensures Exactly(tab, t, lo, hi, Known(s))
  {
    KnownAscending(s);
    forall r ensures r in Known(s) <==> r in s && r.known { KnownMember(s, r); }
  }

  /** What one turn does to one topic: the rows fetched for it are exactly its rows between
      its old and its new position. Nothing is skipped, nothing is fetched twice. */
  lemma TurnOfTopic(tab: seq<Row>, queue: seq<Add>, ceiling: nat, batchTopics: nat, limit: nat, t: Topic)
    requires TableOk(tab, t.kind) && Distinct(queue) && limit >= 1 && ceiling > 0
    requires Find(queue, t).Some? ==> Find(queue, t).value <= ceiling
    ensures var turn := RunTurn(tab, queue, ceiling, batchTopics, limit);
            var got := Proj(Known(turn.rows), t);
            if Find(queue, t).None? then got == [] && Find(turn.queue, t).None?
            else
              var c := Find(queue, t).value;
              var c' := Position(turn.queue, t, ceiling);
              c <= c' <= ceiling && Exactly(tab, t, c, c', got)
  {
    var n := Min(|queue|, batchTopics);
    var batch, later := queue[..n], queue[n..];
    assert queue == batch + later;
    var turn := RunTurn(tab, queue, ceiling, batchTopics, limit);
    FindConcat(batch, later, t);
    FindConcat(later, Rotated(tab, batch, ceiling, limit), t);
    RotatedOfTopic(tab, batch, ceiling, limit, t);
    ProjKnown(turn.rows, t);
    if batch != [] {
      QueryOfTopic(tab, batch, 0, ceiling, limit, t);
    }
    if Find(batch, t).Some? {
      NotInBoth(batch, later, t);
      ProbeExact(tab, t, Find(batch, t).value, ceiling, limit);
    } else {
      assert Proj(turn.rows, t) == [];
      if Find(queue, t).Some? {
        ExactlyNone(tab, t, Find(queue, t).value, Find(queue, t).value);
      }
    }
  }

  lemma NotInBoth(a: seq<Add>, b: seq<Add>, t: Topic)
    requires Distinct(a + b) && Find(a, t).Some?
    ensures Find(b, t).None?
  {
    FindMember(a, t);
    FindMember(b, t);
    var i :| 0 <= i < |a| && a[i] == Add(t, Find(a, t).value);
    forall x | x in b ensures x.topic != t {
      var j :| 0 <= j < |b| && b[j] == x;
      assert (a + b)[i].topic != (a + b)[|a| + j].topic;
    }
  }
}
