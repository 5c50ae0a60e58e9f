/** The catch-up fetchers: the wave-scan queries as the store runs them, and the loops that
    rotate a wave's topics through those queries. The store keeps growing under a scan, so
    the loops read it through `view`: what the table looks like at the i-th query. */
module Fetcher {
  import opened Rows
  import opened WaveScan

  /** One unit of history handed to the writer; a done marker carries no rows. `kind` names
      the scan that produced it, and the writer never looks at it. */
  datatype Batch = Batch(wave: nat, kind: Kind, rows: seq<Row>, done: bool)

  /** A growing table: later reads see everything earlier reads saw, and newer ids only. */
  ghost predicate Views(view: nat -> seq<Row>, k: Kind) {
    && (forall i :: TableOk(view(i), k))
    && (forall i, j :: i <= j ==> view(i) <= view(j))
  }

  // ----- a fixed ceiling pins the answers -----

  lemma {:induction false} RawConcat(a: seq<Row>, b: seq<Row>, t: Topic, lo: nat, hi: nat)
    ensures Raw(a + b, t, lo, hi) == Raw(a, t, lo, hi) + Raw(b, t, lo, hi)
  {
    if a == [] {
      assert a + b == b;
    } else {
      assert (a + b)[1..] == a[1..] + b;
      RawConcat(a[1..], b, t, lo, hi);
    }
  }

  lemma {:induction false} RawAbove(b: seq<Row>, t: Topic, lo: nat, hi: nat)
    requires forall r :: r in b ==> hi < r.id
    ensures Raw(b, t, lo, hi) == []
  {
    if b != [] {
      assert b == [b[0]] + b[1..];
      RawAbove(b[1..], t, lo, hi);
    }
  }

  lemma RawPinned(a: seq<Row>, b: seq<Row>, t: Topic, lo: nat, hi: nat)
    requires a <= b && TableOk(b, t.kind) && hi <= MaxId(a)
    ensures Raw(b, t, lo, hi) == Raw(a, t, lo, hi)
  {
    var c := b[|a|..];
    assert b == a + c;
    forall r | r in c ensures hi < r.id {
      var i :| 0 <= i < |c| && c[i] == r;
      assert b[|a| + i] == r && r in b;
      assert forall j :: 0 <= j < |a| ==> b[j] == a[j];
    }
    RawConcat(a, c, t, lo, hi);
    RawAbove(c, t, lo, hi);
  }

  lemma ProbePinned(a: seq<Row>, b: seq<Row>, f: Add, ceiling: nat, limit: nat)
    requires a <= b && TableOk(a, f.topic.kind) && TableOk(b, f.topic.kind) && ceiling <= MaxId(a)
    ensures Probe(b, f, 0, ceiling, limit) == Probe(a, f, 0, ceiling, limit)
  {
    ProbeIsRaw(a, f, ceiling, limit);
    ProbeIsRaw(b, f, ceiling, limit);
    RawPinned(a, b, f.topic, f.cursor, ceiling);
  }

  lemma {:induction false} BatchPinned(a: seq<Row>, b: seq<Row>, k: Kind, batch: seq<Add>, ceiling: nat, limit: nat)
    requires a <= b && TableOk(a, k) && TableOk(b, k) && ceiling <= MaxId(a)
    requires forall q :: q in batch ==> q.topic.kind == k
    ensures Probes(b, batch, 0, ceiling, limit) == Probes(a, batch, 0, ceiling, limit)
    ensures Rotated(b, batch, ceiling, limit) == Rotated(a, batch, ceiling, limit)
  {
    if batch != [] {
      assert batch == [batch[0]] + batch[1..];
      ProbePinned(a, b, batch[0], ceiling, limit);
      BatchPinned(a, b, k, batch[1..], ceiling, limit);
    }
  }

  /** A turn pinned by a ceiling is the same whenever it runs. */
  lemma TurnPinned(a: seq<Row>, b: seq<Row>, k: Kind, queue: seq<Add>, ceiling: nat, batchTopics: nat, limit: nat)
    requires a <= b && TableOk(a, k) && TableOk(b, k) && ceiling <= MaxId(a)
    requires forall q :: q in queue ==> q.topic.kind == k
    ensures RunTurn(b, queue, ceiling, batchTopics, limit) == RunTurn(a, queue, ceiling, batchTopics, limit)
  {
    BatchPinned(a, b, k, queue[..Min(|queue|, batchTopics)], ceiling, limit);
  }

  // ----- the scan's own invariant -----

  /** The add floors a snapshot leaves in the scan: topics already at the ceiling are pruned. */
  function Prune(adds: seq<Add>, ceiling: nat): seq<Add> {
    if adds == [] then []
    else if adds[0].cursor < ceiling then [adds[0]] + Prune(adds[1..], ceiling)
    else Prune(adds[1..], ceiling)
  }

  lemma {:induction false} PruneFind(adds: seq<Add>, ceiling: nat, t: Topic)
    requires Distinct(adds)
    ensures Find(Prune(adds, ceiling), t) ==
            if Find(adds, t).Some? && Find(adds, t).value < ceiling then Find(adds, t) else None
    ensures forall a :: a in Prune(adds, ceiling) ==> a in adds
    ensures Distinct(Prune(adds, ceiling))
  {
    if adds != [] {
      hide Find;
      var head, tail, rest := adds[0], adds[1..], Prune(adds[1..], ceiling);
      DistinctTail(adds);
      PruneFind(tail, ceiling, t);
      assert adds == [head] + tail;
      FindMember(tail, t);
      FindHead(head, tail, t);
      FindHead(head, rest, t);
      DistinctHead(head, rest);
    }
  }

  lemma FindHead(head: Add, tail: seq<Add>, t: Topic)
    ensures Find([head] + tail, t) == if head.topic == t then Some(head.cursor) else Find(tail, t)
  {
    assert ([head] + tail)[1..] == tail;
  }

  lemma DistinctHead(head: Add, tail: seq<Add>)
    requires Distinct(tail)
    ensures (forall a :: a in tail ==> a.topic != head.topic) ==> Distinct([head] + tail)
  {
  }

  /** Where a topic's replay ends. A topic pruned by the first snapshot is never scanned, so
      its replay ends at its own cursor; any other ends at the refreshed ceiling. */
  function Bound(cursor: nat, first: nat, ceiling: nat): nat {
    if first <= cursor then cursor else ceiling
  }

  function RowsOf(batches: seq<Batch>): seq<Row> {
    if batches == [] then [] else batches[0].rows + RowsOf(batches[1..])
  }

  lemma {:induction false} RowsOfSnoc(batches: seq<Batch>, b: Batch)
    ensures RowsOf(batches + [b]) == RowsOf(batches) + b.rows
  {
    if batches == [] {
      assert [b][1..] == [];
    } else {
      assert (batches + [b])[1..] == batches[1..] + [b];
      RowsOfSnoc(batches[1..], b);
    }
  }

  /** What a scan has handed over so far: every topic's rows up to the scan's position in it. */
  ghost predicate Scanned(tab: seq<Row>, adds: seq<Add>, first: nat, ceiling: nat, queue: seq<Add>, rows: seq<Row>) {
    && Distinct(queue)
    && (forall q :: q in queue ==> exists a :: a in adds && a.topic == q.topic)
    && (forall a :: a in adds ==> TopicScanned(tab, a, first, ceiling, queue, rows))
  }

  ghost predicate TopicScanned(tab: seq<Row>, a: Add, first: nat, ceiling: nat, queue: seq<Add>, rows: seq<Row>) {
    && (Find(queue, a.topic).Some? ==> a.cursor < first && Find(queue, a.topic).value <= ceiling)
    && a.cursor <= Position(queue, a.topic, Bound(a.cursor, first, ceiling))
    && Exactly(tab, a.topic, a.cursor, Position(queue, a.topic, Bound(a.cursor, first, ceiling)), Proj(rows, a.topic))
  }

  lemma ScanStarts(tab: seq<Row>, adds: seq<Add>, first: nat, ceiling: nat)
    requires Distinct(adds) && first <= ceiling
    ensures Scanned(tab, adds, first, ceiling, Prune(adds, first), [])
  {
    var queue := Prune(adds, first);
    forall a | a in adds ensures TopicScanned(tab, a, first, ceiling, queue, []) {
      PruneFind(adds, first, a.topic);
      FindDistinct(adds, a);
      ExactlyNone(tab, a.topic, a.cursor, a.cursor);
    }
    if adds != [] { PruneFind(adds, first, adds[0].topic); }
  }

  lemma TopicTurns(tab: seq<Row>, k: Kind, a: Add, first: nat, ceiling: nat, queue: seq<Add>, rows: seq<Row>,
                   batchTopics: nat, limit: nat)
    requires TableOk(tab, k) && a.topic.kind == k && Distinct(queue) && limit >= 1 && first <= ceiling && ceiling > 0
    requires TopicScanned(tab, a, first, ceiling, queue, rows)
    ensures var turn := RunTurn(tab, queue, ceiling, batchTopics, limit);
            TopicScanned(tab, a, first, ceiling, turn.queue, rows + Known(turn.rows))
  {
    var turn := RunTurn(tab, queue, ceiling, batchTopics, limit);
    TurnOfTopic(tab, queue, ceiling, batchTopics, limit, a.topic);
    ProjConcat(rows, Known(turn.rows), a.topic);
    if Find(queue, a.topic).Some? {
      var c, c' := Find(queue, a.topic).value, Position(turn.queue, a.topic, ceiling);
      ExactlyAppend(tab, a.topic, a.cursor, c, c', Proj(rows, a.topic), Proj(Known(turn.rows), a.topic));
    } else {
      assert Proj(rows, a.topic) + [] == Proj(rows, a.topic);
    }
  }

  lemma ScanTurns(tab: seq<Row>, k: Kind, adds: seq<Add>, first: nat, ceiling: nat, queue: seq<Add>, rows: seq<Row>,
                  batchTopics: nat, limit: nat)
    requires TableOk(tab, k) && limit >= 1 && first <= ceiling && ceiling > 0
    requires forall a :: a in adds ==> a.topic.kind == k
    requires Scanned(tab, adds, first, ceiling, queue, rows)
    ensures var turn := RunTurn(tab, queue, ceiling, batchTopics, limit);
            Scanned(tab, adds, first, ceiling, turn.queue, rows + Known(turn.rows))
  {
    var turn := RunTurn(tab, queue, ceiling, batchTopics, limit);
    TurnDistinct(tab, queue, ceiling, batchTopics, limit);
    forall a | a in adds ensures TopicScanned(tab, a, first, ceiling, turn.queue, rows + Known(turn.rows)) {
      TopicTurns(tab, k, a, first, ceiling, queue, rows, batchTopics, limit);
    }
    TurnTopics(tab, queue, ceiling, batchTopics, limit);
  }

  lemma TurnTopics(tab: seq<Row>, queue: seq<Add>, ceiling: nat, batchTopics: nat, limit: nat)
    requires Distinct(queue)
    ensures forall q :: q in RunTurn(tab, queue, ceiling, batchTopics, limit).queue ==>
              exists b :: b in queue && b.topic == q.topic
  {
    var n := Min(|queue|, batchTopics);
    RotatedDistinct(tab, queue[..n], ceiling, limit);
    assert queue == queue[..n] + queue[n..];
  }

  // ----- nothing is fetched twice, and the rotation ends -----

  /** Raw rows the queued topics still have ahead of them. */
  function Remaining(tab: seq<Row>, queue: seq<Add>, ceiling: nat): nat {
    if queue == [] then 0
    else |Raw(tab, queue[0].topic, queue[0].cursor, ceiling)| + Remaining(tab, queue[1..], ceiling)
  }

  lemma {:induction false} RemainingConcat(tab: seq<Row>, a: seq<Add>, b: seq<Add>, ceiling: nat)
    ensures Remaining(tab, a + b, ceiling) == Remaining(tab, a, ceiling) + Remaining(tab, b, ceiling)
  {
    if a == [] {
      assert a + b == b;
    } else {
      assert (a + b)[1..] == a[1..] + b;
      RemainingConcat(tab, a[1..], b, ceiling);
    }
  }

  lemma RawRest(tab: seq<Row>, t: Topic, c: nat, ceiling: nat, n: nat)
    requires Ascending(tab) && 0 < n <= |Raw(tab, t, c, ceiling)|
    ensures var p := Raw(tab, t, c, ceiling)[..n];
            Raw(tab, t, Max(c, LastId(p, 0)), ceiling) == Raw(tab, t, c, ceiling)[n..]
  {
    hide Raw;
    var raw := Raw(tab, t, c, ceiling);
    var last := raw[n - 1].id;
    RawAscending(tab, t, c, ceiling);
    RawMember(tab, t, c, ceiling, raw[n - 1]);
    assert Max(c, LastId(raw[..n], 0)) == last;
    RawAscending(tab, t, last, ceiling);
    forall r ensures r in Raw(tab, t, last, ceiling) <==> r in raw[n..] {
      RawMember(tab, t, c, ceiling, r);
      RawMember(tab, t, last, ceiling, r);
      InRest(raw, n, r);
    }
    AscendingUnique(Raw(tab, t, last, ceiling), raw[n..]);
  }

  lemma InRest(s: seq<Row>, n: nat, r: Row)
    requires Ascending(s) && 0 < n <= |s|
    ensures r in s[n..] <==> r in s && s[n - 1].id < r.id
  {
    assert s == s[..n] + s[n..];
    if r in s && s[n - 1].id < r.id {
      var i :| 0 <= i < |s| && s[i] == r;
      assert s[n..][i - n] == r;
    }
  }

  /** A batch's fetched rows and what its rotated topics still have ahead add up to what it had,
      and the batch as a whole gets strictly smaller. */
  lemma {:induction false} BatchConserves(tab: seq<Row>, batch: seq<Add>, ceiling: nat, limit: nat)
    requires Ascending(tab) && limit >= 1
    requires forall r :: r in tab ==> r.id <= MAX_INT64
    ensures |Probes(tab, batch, 0, ceiling, limit)| + Remaining(tab, Rotated(tab, batch, ceiling, limit), ceiling)
            == Remaining(tab, batch, ceiling)
    ensures batch != [] ==>
              Remaining(tab, Rotated(tab, batch, ceiling, limit), ceiling) + |Rotated(tab, batch, ceiling, limit)|
              < Remaining(tab, batch, ceiling) + |batch|
    ensures |Rotated(tab, batch, ceiling, limit)| <= |batch|
  {
    if batch != [] {
      BatchConserves(tab, batch[1..], ceiling, limit);
      var f := batch[0];
      var raw := Raw(tab, f.topic, f.cursor, ceiling);
      ProbeIsRaw(tab, f, ceiling, limit);
      var p := Probe(tab, f, 0, ceiling, limit);
      var rest := Rotated(tab, batch[1..], ceiling, limit);
      if |p| >= limit {
        RawRest(tab, f.topic, f.cursor, ceiling, limit);
        var moved := Add(f.topic, Max(f.cursor, LastId(p, 0)));
        assert ([moved] + rest)[1..] == rest;
      }
    }
  }

  lemma TurnConserves(tab: seq<Row>, queue: seq<Add>, ceiling: nat, batchTopics: nat, limit: nat)
    requires Ascending(tab) && limit >= 1 && batchTopics >= 1 && ceiling > 0 && queue != []
    requires forall r :: r in tab ==> r.id <= MAX_INT64
    ensures var turn := RunTurn(tab, queue, ceiling, batchTopics, limit);
            && |turn.rows| + Remaining(tab, turn.queue, ceiling) == Remaining(tab, queue, ceiling)
            && Remaining(tab, turn.queue, ceiling) + |turn.queue| < Remaining(tab, queue, ceiling) + |queue|
  {
    var n := Min(|queue|, batchTopics);
    var batch, later := queue[..n], queue[n..];
    assert queue == batch + later;
    RemainingConcat(tab, batch, later, ceiling);
    RemainingConcat(tab, later, Rotated(tab, batch, ceiling, limit), ceiling);
    BatchConserves(tab, batch, ceiling, limit);
    SortFacts(Probes(tab, batch, 0, ceiling, limit));
  }

  // ----- per-topic tallies of a result -----

  /** A lookup in a Go map of integers: a missing key reads as zero. */
  function Get(m: map<Topic, nat>, t: Topic): nat {
    if t in m then m[t] else 0
  }

  ghost predicate Tallied(counts: map<Topic, nat>, lastIds: map<Topic, nat>, rows: seq<Row>) {
    forall t :: Get(counts, t) == |Proj(rows, t)| && Get(lastIds, t) == LastId(Proj(rows, t), 0)
  }

  lemma TallyStep(counts: map<Topic, nat>, lastIds: map<Topic, nat>, rows: seq<Row>, r: Row)
    requires Tallied(counts, lastIds, rows)
    ensures Tallied(counts[r.topic := Get(counts, r.topic) + 1], lastIds[r.topic := r.id], rows + [r])
  {
    forall t ensures
      Get(counts[r.topic := Get(counts, r.topic) + 1], t) == |Proj(rows + [r], t)| &&
      Get(lastIds[r.topic := r.id], t) == LastId(Proj(rows + [r], t), 0)
    {
      ProjConcat(rows, [r], t);
      assert [r][1..] == [];
      assert Proj([r], t) == if r.topic == t then [r] else [];
    }
  }

  lemma TallyOfBatch(tab: seq<Row>, batch: seq<Add>, b: Add, ceiling: nat, limit: nat,
                     counts: map<Topic, nat>, lastIds: map<Topic, nat>)
    requires Ascending(tab) && Distinct(batch) && b in batch && ceiling > 0
    requires Tallied(counts, lastIds, WaveQuery(tab, batch, 0, ceiling, limit))
    ensures Get(counts, b.topic) == |Probe(tab, b, 0, ceiling, limit)|
    ensures Get(lastIds, b.topic) == LastId(Probe(tab, b, 0, ceiling, limit), 0)
  {
    QueryOfTopic(tab, batch, 0, ceiling, limit, b.topic);
    FindDistinct(batch, b);
    assert Add(b.topic, b.cursor) == b;
  }

  // ----- the store's queries -----

  /** With unique filters every group's share of the result is its own probe, in id order; the
      shares come merged by id. */
  method QueryGroupMessagesWaveScan(tab: seq<Row>, filters: seq<Add>, scanCursor: nat, ceiling: nat, limit: nat)
    returns (out: seq<Row>)
    requires TableOk(tab, Group)
    ensures out == WaveQuery(tab, filters, scanCursor, ceiling, limit)
    ensures NonDescending(out) && |out| <= |filters| * limit
    ensures Distinct(filters) && ceiling > 0 ==>
              forall f :: f in filters ==> Proj(out, f.topic) == Probe(tab, f, scanCursor, ceiling, limit)
  {
    out := [];
    if |filters| == 0 || ceiling == 0 {
      return;
    }
    out := SortById(Probes(tab, filters, scanCursor, ceiling, limit));
    QueryBounded(tab, filters, scanCursor, ceiling, limit);
    if Distinct(filters) {
      forall f | f in filters ensures Proj(out, f.topic) == Probe(tab, f, scanCursor, ceiling, limit) {
        QueryOfTopic(tab, filters, scanCursor, ceiling, limit, f.topic);
        FindDistinct(filters, f);
        assert Add(f.topic, f.cursor) == f;
      }
    }
  }

  /** Rows of an unknown message_type are skipped from `out` but still counted as progress. */
  method QueryWelcomeMessagesWaveScan(tab: seq<Row>, filters: seq<Add>, scanCursor: nat, ceiling: nat, limit: nat)
    returns (out: seq<Row>, rawCount: map<Topic, nat>, lastRawId: map<Topic, nat>)
    requires TableOk(tab, Welcome)
    ensures out == Known(WaveQuery(tab, filters, scanCursor, ceiling, limit))
    ensures Tallied(rawCount, lastRawId, WaveQuery(tab, filters, scanCursor, ceiling, limit))
  {
    out, rawCount, lastRawId := [], map[], map[];
    if |filters| == 0 || ceiling == 0 {
      return;
    }
    var rows := SortById(Probes(tab, filters, scanCursor, ceiling, limit));
    var i := 0;
    while i < |rows|
      invariant 0 <= i <= |rows| && out == Known(rows[..i])
      invariant Tallied(rawCount, lastRawId, rows[..i])
    {
      var r := rows[i];
      assert rows[..i + 1] == rows[..i] + [r];
      TallyStep(rawCount, lastRawId, rows[..i], r);
      KnownConcat(rows[..i], [r]);
      assert [r][1..] == [];
      assert Known([r]) == if r.known then [r] else [];
      rawCount := rawCount[r.topic := Get(rawCount, r.topic) + 1];
      lastRawId := lastRawId[r.topic := r.id];
      if r.known {
        out := out + [r];
      }
      i := i + 1;
    }
    assert rows[..i] == rows;
  }

  // ----- the fetchers -----

  lemma RotatedStep(tab: seq<Row>, batch: seq<Add>, i: nat, ceiling: nat, limit: nat)
    requires i < |batch|
    ensures var p := Probe(tab, batch[i], 0, ceiling, limit);
            var rest := Rotated(tab, batch[i + 1..], ceiling, limit);
            Rotated(tab, batch[i..], ceiling, limit) ==
            if |p| < limit then rest else [Add(batch[i].topic, Max(batch[i].cursor, LastId(p, 0)))] + rest
  {
    assert batch[i..][1..] == batch[i + 1..];
  }

  lemma RotateStep(tab: seq<Row>, batch: seq<Add>, i: nat, ceiling: nat, limit: nat,
                   counts: map<Topic, nat>, lastIds: map<Topic, nat>)
    requires Ascending(tab) && Distinct(batch) && ceiling > 0 && i < |batch|
    requires Tallied(counts, lastIds, WaveQuery(tab, batch, 0, ceiling, limit))
    ensures var b := batch[i];
            var rest := Rotated(tab, batch[i + 1..], ceiling, limit);
            Rotated(tab, batch[i..], ceiling, limit) ==
              if Get(counts, b.topic) >= limit
              then [Add(b.topic, Max(b.cursor, Get(lastIds, b.topic)))] + rest
              else rest
  {
    hide Rotated, Tallied, WaveQuery, Distinct;
    TallyOfBatch(tab, batch, batch[i], ceiling, limit, counts, lastIds);
    RotatedStep(tab, batch, i, ceiling, limit);
  }

  /** Requeues the batch topics that filled their page, from the per-topic tallies of a result. */
  method Rotate(ghost tab: seq<Row>, later: seq<Add>, batch: seq<Add>, ghost ceiling: nat, limit: nat,
                counts: map<Topic, nat>, lastIds: map<Topic, nat>)
    returns (queue: seq<Add>)
    requires Ascending(tab) && Distinct(batch) && ceiling > 0
    requires Tallied(counts, lastIds, WaveQuery(tab, batch, 0, ceiling, limit))
    ensures queue == later + Rotated(tab, batch, ceiling, limit)
  {
    hide Tallied, WaveQuery, Distinct, Ascending, Get;
    queue := later;
    var i := 0;
    assert batch[0..] == batch;
    while i < |batch|
      invariant 0 <= i <= |batch|
      invariant queue + Rotated(tab, batch[i..], ceiling, limit) == later + Rotated(tab, batch, ceiling, limit)
    {
      hide Rotated;
      var b := batch[i];
      RotateStep(tab, batch, i, ceiling, limit, counts, lastIds);
      if Get(counts, b.topic) >= limit {
        var cursor := if b.cursor < Get(lastIds, b.topic) then Get(lastIds, b.topic) else b.cursor;
        ghost var rest := Rotated(tab, batch[i + 1..], ceiling, limit);
        assert queue + ([Add(b.topic, cursor)] + rest) == (queue + [Add(b.topic, cursor)]) + rest;
        queue := queue + [Add(b.topic, cursor)];
      }
      i := i + 1;
    }
    NothingRotated(tab, ceiling, limit);
    assert queue + [] == queue;
  }

  lemma NothingRotated(tab: seq<Row>, ceiling: nat, limit: nat)
    ensures Rotated(tab, [], ceiling, limit) == []
  {
  }

  method PruneAdds(adds: seq<Add>, ceiling: nat) returns (queue: seq<Add>)
    ensures queue == Prune(adds, ceiling)
  {
    queue := [];
    var i := 0;
    while i < |adds|
      invariant 0 <= i <= |adds|
      invariant queue + Prune(adds[i..], ceiling) == Prune(adds, ceiling)
    {
      assert adds[i..][1..] == adds[i + 1..];
      if adds[i].cursor < ceiling {
        queue := queue + [adds[i]];
      }
      i := i + 1;
    }
  }

  /** What a finished scan has handed to the writer: one done marker at the end; before it,
      non-empty turns of bounded size in ascending id order that together hold, for every added
      topic, exactly its parseable rows above its cursor up to its bound, each once and in
      order; and never more fetched rows than the topics had. */
  ghost predicate ScanResult(tab: seq<Row>, adds: seq<Add>, wave: nat, kind: Kind, batchTopics: nat, limit: nat,
                             first: nat, ceiling: nat, fetched: nat, batches: seq<Batch>)
  {
    && batches != []
    && batches[|batches| - 1] == Batch(wave, kind, [], true)
    && (forall i :: 0 <= i < |batches| - 1 ==> GoodTurn(batches[i], wave, kind, batchTopics, limit))
    && (forall a :: a in adds ==>
          Proj(RowsOf(batches), a.topic) == Between(tab, a.topic, a.cursor, Bound(a.cursor, first, ceiling)))
    && fetched == Remaining(tab, Prune(adds, first), ceiling)
  }

  ghost predicate GoodTurn(b: Batch, wave: nat, kind: Kind, batchTopics: nat, limit: nat) {
    && b.wave == wave && b.kind == kind && !b.done && b.rows != []
    && NonDescending(b.rows) && |b.rows| <= batchTopics * limit
  }

  lemma {:induction false} KnownShorter(s: seq<Row>)
    ensures |Known(s)| <= |s|
    ensures NonDescending(s) ==> NonDescending(Known(s))
  {
    if s != [] {
      KnownShorter(s[1..]);
      if NonDescending(s) {
        forall j | 0 <= j < |Known(s[1..])| ensures s[0].id <= Known(s[1..])[j].id {
          assert Known(s[1..])[j] in Known(s[1..]);
          KnownMember(s[1..], Known(s[1..])[j]);
          var i :| 0 <= i < |s[1..]| && s[1..][i] == Known(s[1..])[j];
          assert s[i + 1] == s[1..][i];
        }
      }
    }
  }

  lemma TurnIsGood(tab: seq<Row>, queue: seq<Add>, ceiling: nat, batchTopics: nat, limit: nat, wave: nat, kind: Kind)
    requires Ascending(tab)
    requires Known(RunTurn(tab, queue, ceiling, batchTopics, limit).rows) != []
    ensures GoodTurn(Batch(wave, kind, Known(RunTurn(tab, queue, ceiling, batchTopics, limit).rows), false),
                     wave, kind, batchTopics, limit)
  {
    var n := Min(|queue|, batchTopics);
    QueryBounded(tab, queue[..n], 0, ceiling, limit);
    KnownShorter(WaveQuery(tab, queue[..n], 0, ceiling, limit));
    MulMono(n, batchTopics, limit);
  }

  lemma MulMono(a: nat, b: nat, c: nat)
    requires a <= b
    ensures a * c <= b * c
  {
  }

  lemma ScanEnds(tab: seq<Row>, adds: seq<Add>, first: nat, ceiling: nat, rows: seq<Row>)
    requires Ascending(tab) && Scanned(tab, adds, first, ceiling, [], rows)
    ensures forall a :: a in adds ==>
              Proj(rows, a.topic) == Between(tab, a.topic, a.cursor, Bound(a.cursor, first, ceiling))
  {
    forall a | a in adds
      ensures Proj(rows, a.topic) == Between(tab, a.topic, a.cursor, Bound(a.cursor, first, ceiling))
    {
      assert TopicScanned(tab, a, first, ceiling, [], rows);
      ExactlyIsBetween(tab, a.topic, a.cursor, Bound(a.cursor, first, ceiling), Proj(rows, a.topic));
    }
  }

  /** The batch the rotation takes next. */
  method NextBatch(queue: seq<Add>, batchTopics: nat) returns (batch: seq<Add>, later: seq<Add>)
    ensures batch == queue[..Min(|queue|, batchTopics)] && later == queue[Min(|queue|, batchTopics)..]
  {
    batch := queue;
    if |batch| > batchTopics {
      batch := queue[..batchTopics];
    }
    later := queue[|batch|..];
  }

  /** The ceiling and queue a scan starts from, after the refresh under its slot. */
  method TakeCeiling(view: nat -> seq<Row>, ghost k: Kind, adds: seq<Add>, refreshFails: bool)
    returns (first: nat, ceiling: nat, queue: seq<Add>)
    requires Views(view, k)
    ensures first == MaxId(view(0)) && first <= ceiling <= MaxId(view(1)) && queue == Prune(adds, first)
    ensures queue != [] && !refreshFails ==> ceiling == MaxId(view(1))
    ensures queue != [] ==> ceiling > 0
  {
    assert view(0) <= view(1);
    MaxIdGrows(view(0), view(1), k);
    ceiling := MaxId(view(0));
    first := ceiling;
    queue := PruneAdds(adds, ceiling);
    PruneSomething(adds, ceiling);
    if |queue| > 0 {
      var c := MaxId(view(1));
      if !refreshFails && c > ceiling {
        ceiling := c;
      }
    }
  }

  ghost predicate Progress(tab: seq<Row>, adds: seq<Add>, wave: nat, kind: Kind, batchTopics: nat, limit: nat,
                           first: nat, ceiling: nat, queue: seq<Add>, fetched: nat, batches: seq<Batch>)
  {
    && (queue != [] ==> ceiling > 0)
    && Scanned(tab, adds, first, ceiling, queue, RowsOf(batches))
    && fetched + Remaining(tab, queue, ceiling) == Remaining(tab, Prune(adds, first), ceiling)
    && (forall i :: 0 <= i < |batches| ==> GoodTurn(batches[i], wave, kind, batchTopics, limit))
  }

  /** Handing over a turn's rows, if it has any, keeps the scan's invariant. */
  function Forward(batches: seq<Batch>, wave: nat, kind: Kind, rows: seq<Row>): seq<Batch> {
    if rows == [] then batches else batches + [Batch(wave, kind, rows, false)]
  }

  lemma ProgressStep(tab: seq<Row>, adds: seq<Add>, wave: nat, kind: Kind, batchTopics: nat, limit: nat,
                     first: nat, ceiling: nat, queue: seq<Add>, fetched: nat, batches: seq<Batch>)
    requires TableOk(tab, kind) && limit >= 1 && batchTopics >= 1 && first <= ceiling && queue != []
    requires forall a :: a in adds ==> a.topic.kind == kind
    requires Progress(tab, adds, wave, kind, batchTopics, limit, first, ceiling, queue, fetched, batches)
    ensures var turn := RunTurn(tab, queue, ceiling, batchTopics, limit);
            && Progress(tab, adds, wave, kind, batchTopics, limit, first, ceiling, turn.queue,
                        fetched + |turn.rows|, Forward(batches, wave, kind, Known(turn.rows)))
            && Remaining(tab, turn.queue, ceiling) + |turn.queue| < Remaining(tab, queue, ceiling) + |queue|
  {
    var turn := RunTurn(tab, queue, ceiling, batchTopics, limit);
    var msgs := Known(turn.rows);
    ScanTurns(tab, kind, adds, first, ceiling, queue, RowsOf(batches), batchTopics, limit);
    TurnConserves(tab, queue, ceiling, batchTopics, limit);
    if msgs != [] {
      TurnIsGood(tab, queue, ceiling, batchTopics, limit, wave, kind);
      RowsOfSnoc(batches, Batch(wave, kind, msgs, false));
    } else {
      assert RowsOf(batches) + [] == RowsOf(batches);
    }
  }

  lemma ProgressStart(tab: seq<Row>, adds: seq<Add>, wave: nat, kind: Kind, batchTopics: nat, limit: nat,
                      first: nat, ceiling: nat)
    requires Distinct(adds) && first <= ceiling && (Prune(adds, first) != [] ==> ceiling > 0)
    ensures Progress(tab, adds, wave, kind, batchTopics, limit, first, ceiling, Prune(adds, first), 0, [])
  {
    ScanStarts(tab, adds, first, ceiling);
  }

  lemma ProgressEnd(tab: seq<Row>, adds: seq<Add>, wave: nat, kind: Kind, batchTopics: nat, limit: nat,
                    first: nat, ceiling: nat, fetched: nat, batches: seq<Batch>)
    requires Ascending(tab)
    requires Progress(tab, adds, wave, kind, batchTopics, limit, first, ceiling, [], fetched, batches)
    ensures ScanResult(tab, adds, wave, kind, batchTopics, limit, first, ceiling, fetched,
                       batches + [Batch(wave, kind, [], true)])
  {
    ScanEnds(tab, adds, first, ceiling, RowsOf(batches));
    RowsOfSnoc(batches, Batch(wave, kind, [], true));
    assert RowsOf(batches) + [] == RowsOf(batches);
  }

  method CatchUpGroups(view: nat -> seq<Row>, adds: seq<Add>, wave: nat, scanBatchTopics: int,
                       scanTopicPageLimit: int, refreshFails: bool)
    returns (batches: seq<Batch>, first: nat, ceiling: nat, ghost fetched: nat)
    requires Views(view, Group) && Distinct(adds)
    requires forall a :: a in adds ==> a.topic.kind == Group
    ensures first == MaxId(view(0)) && first <= ceiling <= MaxId(view(1))
    ensures ScanResult(view(1), adds, wave, Group, AtLeastOne(scanBatchTopics), AtLeastOne(scanTopicPageLimit),
                       first, ceiling, fetched, batches)
  {
    ghost var tab := view(1);
    var queue;
    first, ceiling, queue := TakeCeiling(view, Group, adds, refreshFails);
    var batchTopics, limit := AtLeastOne(scanBatchTopics), AtLeastOne(scanTopicPageLimit);
    batches, fetched := [], 0;
    ProgressStart(tab, adds, wave, Group, batchTopics, limit, first, ceiling);
    var query := 2;
    while |queue| > 0
      invariant query >= 2
      invariant Progress(tab, adds, wave, Group, batchTopics, limit, first, ceiling, queue, fetched, batches)
      decreases Remaining(tab, queue, ceiling) + |queue|
    {
      ProgressStep(tab, adds, wave, Group, batchTopics, limit, first, ceiling, queue, fetched, batches);
      var msgs;
      msgs, queue := GroupTurn(tab, view(query), adds, queue, ceiling, batchTopics, limit);
      if |msgs| > 0 {
        batches := batches + [Batch(wave, Group, msgs, false)];
      }
      fetched := fetched + |msgs|;
      query := query + 1;
    }
    ProgressEnd(tab, adds, wave, Group, batchTopics, limit, first, ceiling, fetched, batches);
    batches := batches + [Batch(wave, Group, [], true)];
  }

  /** One pass of the group rotation: query a batch, count its rows per group, requeue. */
  method GroupTurn(ghost tab: seq<Row>, now: seq<Row>, ghost adds: seq<Add>, queue: seq<Add>, ceiling: nat,
                   batchTopics: nat, limit: nat)
    returns (msgs: seq<Row>, queue': seq<Add>)
    requires TableOk(tab, Group) && TableOk(now, Group) && tab <= now && 0 < ceiling <= MaxId(tab)
    requires Distinct(queue) && (forall q :: q in queue ==> exists a :: a in adds && a.topic == q.topic)
    requires forall a :: a in adds ==> a.topic.kind == Group
    ensures var turn := RunTurn(tab, queue, ceiling, batchTopics, limit);
            msgs == turn.rows == Known(turn.rows) && queue' == turn.queue
  {
    TurnPinned(tab, now, Group, queue, ceiling, batchTopics, limit);
    var batch, later := NextBatch(queue, batchTopics);
    msgs := QueryGroupMessagesWaveScan(now, batch, 0, ceiling, limit);
    QueryBounded(tab, batch, 0, ceiling, limit);
    KnownAll(msgs);
    var counts, lastIds := CountRows(msgs);
    queue' := Rotate(tab, later, batch, ceiling, limit, counts, lastIds);
  }

  /** The welcome scan rotates on the store's raw progress: a row nobody can parse still used
      up its topic's page, so the parsed rows alone would end the replay too early. */
  method CatchUpWelcomes(view: nat -> seq<Row>, adds: seq<Add>, wave: nat, scanBatchTopics: int,
                         scanTopicPageLimit: int, refreshFails: bool)
    returns (batches: seq<Batch>, first: nat, ceiling: nat, ghost fetched: nat)
    requires Views(view, Welcome) && Distinct(adds)
    requires forall a :: a in adds ==> a.topic.kind == Welcome
    ensures first == MaxId(view(0)) && first <= ceiling <= MaxId(view(1))
    ensures ScanResult(view(1), adds, wave, Welcome, AtLeastOne(scanBatchTopics), AtLeastOne(scanTopicPageLimit),
                       first, ceiling, fetched, batches)
  {
    ghost var tab := view(1);
    var queue;
    first, ceiling, queue := TakeCeiling(view, Welcome, adds, refreshFails);
    var batchTopics, limit := AtLeastOne(scanBatchTopics), AtLeastOne(scanTopicPageLimit);
    batches, fetched := [], 0;
    ProgressStart(tab, adds, wave, Welcome, batchTopics, limit, first, ceiling);
    var query := 2;
    while |queue| > 0
      invariant query >= 2
      invariant Progress(tab, adds, wave, Welcome, batchTopics, limit, first, ceiling, queue, fetched, batches)
      decreases Remaining(tab, queue, ceiling) + |queue|
    {
      ProgressStep(tab, adds, wave, Welcome, batchTopics, limit, first, ceiling, queue, fetched, batches);
      ghost var turn := RunTurn(tab, queue, ceiling, batchTopics, limit);
      var msgs;
      msgs, queue := WelcomeTurn(tab, view(query), adds, queue, ceiling, batchTopics, limit);
      if |msgs| > 0 {
        batches := batches + [Batch(wave, Welcome, msgs, false)];
      }
      fetched := fetched + |turn.rows|;
      query := query + 1;
    }
    ProgressEnd(tab, adds, wave, Welcome, batchTopics, limit, first, ceiling, fetched, batches);
    batches := batches + [Batch(wave, Welcome, [], true)];
  }

  method WelcomeTurn(ghost tab: seq<Row>, now: seq<Row>, ghost adds: seq<Add>, queue: seq<Add>, ceiling: nat,
                     batchTopics: nat, limit: nat)
    returns (msgs: seq<Row>, queue': seq<Add>)
    requires TableOk(tab, Welcome) && TableOk(now, Welcome) && tab <= now && 0 < ceiling <= MaxId(tab)
    requires Distinct(queue) && (forall q :: q in queue ==> exists a :: a in adds && a.topic == q.topic)
    requires forall a :: a in adds ==> a.topic.kind == Welcome
    ensures var turn := RunTurn(tab, queue, ceiling, batchTopics, limit);
            msgs == Known(turn.rows) && queue' == turn.queue
  {
    TurnPinned(tab, now, Welcome, queue, ceiling, batchTopics, limit);
    var batch, later := NextBatch(queue, batchTopics);
    var rawCount, lastRawId;
    msgs, rawCount, lastRawId := QueryWelcomeMessagesWaveScan(now, batch, 0, ceiling, limit);
    queue' := Rotate(tab, later, batch, ceiling, limit, rawCount, lastRawId);
  }

  lemma MaxIdGrows(a: seq<Row>, b: seq<Row>, k: Kind)
    requires a <= b && TableOk(b, k)
    ensures MaxId(a) <= MaxId(b)
  {
    if a != [] {
      assert a[|a| - 1] == b[|a| - 1];
      MaxIdBounds(b, b[|a| - 1]);
    }
  }

  lemma {:induction false} PruneSomething(adds: seq<Add>, ceiling: nat)
    ensures Prune(adds, ceiling) != [] ==> ceiling > 0
  {
    if adds != [] {
      PruneSomething(adds[1..], ceiling);
    }
  }

  method CountRows(msgs: seq<Row>) returns (counts: map<Topic, nat>, lastIds: map<Topic, nat>)
    ensures Tallied(counts, lastIds, msgs)
  {
    counts, lastIds := map[], map[];
    var i := 0;
    while i < |msgs|
      invariant 0 <= i <= |msgs|
      invariant Tallied(counts, lastIds, msgs[..i])
    {
      assert msgs[..i + 1] == msgs[..i] + [msgs[i]];
      TallyStep(counts, lastIds, msgs[..i], msgs[i]);
      counts, lastIds := counts[msgs[i].topic := Get(counts, msgs[i].topic) + 1], lastIds[msgs[i].topic := msgs[i].id];
      i := i + 1;
    }
    assert msgs[..i] == msgs;
  }
}
