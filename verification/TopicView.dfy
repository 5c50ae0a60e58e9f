/** One topic's slice of the whole system, and the delivery invariant on it. Every step of
    the system changes a topic's view in one of the few ways proved sound here. */
module TopicView {
  import opened Rows
  import opened WaveScan
  import opened Fetcher
  import opened Frames

  /** `tab` is the table of the topic's kind; `seen` the last id the poller offered to the
      stream's subscription; `queued` the topic's envelopes still in the subscription's channel;
      `del` the topic's rows framed since its registration, `hw` its high-water mark. While a
      wave owns the topic (`inWave`): `flight` are its rows in the catch-up lane, `pos` the
      position its scan has reached, `end` where that scan stops, `started` whether the ceiling
      is taken. While it is `gated`, `held` are its buffered live rows. */
  datatype View = View(tab: seq<Row>, seen: nat, queued: seq<Row>, floor: nat, hw: nat, del: seq<Row>,
                       inWave: bool, started: bool, end: nat, pos: nat, flight: seq<Row>,
                       gated: bool, held: seq<Row>)

  /** No row of the topic in (lo, hi] is missing from `s`. */
  ghost predicate Covers(tab: seq<Row>, t: Topic, lo: nat, hi: nat, s: seq<Row>) {
    forall r :: r in tab && r.topic == t && r.known && lo < r.id <= hi ==> r in s
  }

  ghost predicate FromTable(tab: seq<Row>, t: Topic, upTo: nat, s: seq<Row>) {
    forall r :: r in s ==> r in tab && r.topic == t && r.known && r.id <= upTo
  }

  /** Delivered so far: exactly the topic's rows from its floor to its high-water mark. */
  ghost predicate DeliveredOk(v: View, t: Topic) {
    && v.floor <= v.hw
    && (v.hw == v.floor || v.hw <= MaxId(v.tab))
    && Exactly(v.tab, t, v.floor, v.hw, v.del)
  }

  /** In the lane: rows up to the scan's position, in order, none above the mark missing. */
  ghost predicate FlightOk(v: View, t: Topic) {
    v.inWave ==>
      && v.floor <= v.pos && (v.pos == v.floor || v.pos <= MaxId(v.tab))
      && (v.started ==> v.pos <= v.end && v.hw <= v.end)
      && Ascending(v.flight)
      && FromTable(v.tab, t, v.pos, v.flight)
      && Covers(v.tab, t, v.hw, v.pos, v.flight)
  }

  /** On the live side: everything offered since the scan's end (or since the mark, once the
      gate is open) is buffered or still queued, in order. A topic in a wave without a gate is
      offered nothing more, and the envelopes left of it skip no row above the mark. */
  ghost predicate LiveOk(v: View, t: Topic) {
    && v.seen <= MaxId(v.tab)
    && FromTable(v.tab, t, v.seen, v.held + v.queued)
    && Ascending(v.held + v.queued)
    && (v.gated ==> v.inWave)
    && (!v.gated ==> v.held == [])
    && (v.inWave && v.gated && v.started ==> Covers(v.tab, t, v.end, v.seen, v.held + v.queued))
    && (v.inWave && !v.gated ==>
          && Covers(v.tab, t, v.hw, LastId(v.queued, 0), v.queued)
          && (v.started ==> LastId(v.queued, 0) <= v.end))
    && (!v.inWave ==> Covers(v.tab, t, v.hw, v.seen, v.queued))
  }

  ghost predicate ViewOk(v: View, t: Topic) {
    DeliveredOk(v, t) && FlightOk(v, t) && LiveOk(v, t)
  }

  /** Queued rows of a topic skip nothing exactly when those above the floor are the first rows
      the topic has there. */
  lemma SkipsNothing(tab: seq<Row>, t: Topic, floor: nat, upTo: nat, q: seq<Row>)
    requires Ascending(tab) && Ascending(q) && FromTable(tab, t, upTo, q)
    ensures Rise(floor, q) <= Between(tab, t, floor, MaxId(tab)) <==> Covers(tab, t, floor, LastId(q, 0), q)
  {
    var rise, all, last := Rise(floor, q), Between(tab, t, floor, MaxId(tab)), LastId(q, 0);
    RiseOfAscending(floor, q);
    RiseRows(floor, q);
    BetweenIsExact(tab, t, floor, MaxId(tab));
    LastAbove(q, 0);
    hide Rise, Between;
    if rise <= all {
      forall r | r in tab && r.topic == t && r.known && floor < r.id <= last ensures r in q {
        MaxIdBounds(tab, r);
        assert r in all && q[|q| - 1] in rise;
        PrefixHolds(rise, all, r, q[|q| - 1]);
      }
    } else if Covers(tab, t, floor, last, q) {
      CoveredPrefix(tab, t, floor, q, rise, all);
      assert false;
    }
  }

  /** A prefix of an ascending sequence holds everything up to each of its rows. */
  lemma PrefixHolds(prefix: seq<Row>, all: seq<Row>, r: Row, last: Row)
    requires prefix <= all && Ascending(all) && r in all && last in prefix && r.id <= last.id
    ensures r in prefix
  {
    var i :| 0 <= i < |all| && all[i] == r;
    var j :| 0 <= j < |prefix| && prefix[j] == last;
    assert all[j] == last;
    assert prefix[i] == r;
  }

  lemma CoveredPrefix(tab: seq<Row>, t: Topic, floor: nat, q: seq<Row>, rise: seq<Row>, all: seq<Row>)
    requires Ascending(tab) && Ascending(q) && FromTable(tab, t, LastId(q, 0), q)
    requires Ascending(rise) && (forall r :: r in rise <==> r in q && floor < r.id)
    requires Covers(tab, t, floor, LastId(q, 0), q) && Exactly(tab, t, floor, MaxId(tab), all)
    ensures rise <= all
  {
    var last := LastId(q, 0);
    if last <= floor {
      SomeMember(rise);
      assert rise == [];
    } else {
      assert q[|q| - 1] in q && q[|q| - 1] in tab;
      MaxIdBounds(tab, q[|q| - 1]);
      assert Exactly(tab, t, floor, last, rise);
      var more := Between(tab, t, last, MaxId(tab));
      BetweenIsExact(tab, t, last, MaxId(tab));
      ExactlyAppend(tab, t, floor, last, MaxId(tab), rise, more);
      ExactlyUnique(tab, t, floor, MaxId(tab), rise + more, all);
    }
  }

  // ----- the store and the poller -----

  lemma MaxIdSnoc(tab: seq<Row>, row: Row)
    ensures MaxId(tab + [row]) == row.id
  {
  }

  lemma Publish(v: View, t: Topic, row: Row)
    requires ViewOk(v, t) && MaxId(v.tab) < row.id
    ensures ViewOk(v.(tab := v.tab + [row]), t)
  {
    MaxIdSnoc(v.tab, row);
    ExactlyGrow(v.tab, row, t, v.floor, v.hw, v.del);
    QueuedSeen(v, t);
    if v.inWave { CoversGrow(v.tab, row, t, v.hw, v.pos, v.flight); }
    CoversGrow(v.tab, row, t, v.end, v.seen, v.held + v.queued);
    CoversGrow(v.tab, row, t, v.hw, v.seen, v.queued);
    CoversGrow(v.tab, row, t, v.hw, LastId(v.queued, 0), v.queued);
    assert v.inWave ==> FromTable(v.tab + [row], t, v.pos, v.flight);
  }

  lemma QueuedSeen(v: View, t: Topic)
    requires LiveOk(v, t)
    ensures LastId(v.queued, 0) <= v.seen
  {
    if v.queued != [] {
      assert v.queued[|v.queued| - 1] in v.held + v.queued;
    }
  }

  lemma CoversGrow(tab: seq<Row>, row: Row, t: Topic, lo: nat, hi: nat, s: seq<Row>)
    requires hi < row.id || hi <= lo
    ensures Covers(tab, t, lo, hi, s) ==> Covers(tab + [row], t, lo, hi, s)
    ensures FromTable(tab, t, hi, s) ==> FromTable(tab + [row], t, hi, s)
  {
  }

  /** The poller offers `row`, the next one after `seen`, to a subscription that wants the topic. */
  lemma Offer(v: View, t: Topic, row: Row)
    requires ViewOk(v, t) && Ascending(v.tab) && row in v.tab && v.seen < row.id
    requires forall r :: r in v.tab && v.seen < r.id ==> row.id <= r.id
    requires v.inWave ==> v.gated
    ensures ViewOk(v.(seen := row.id, queued := if row.topic == t && row.known then v.queued + [row] else v.queued), t)
  {
    hide Exactly, Covers, Ascending;
    var take := row.topic == t && row.known;
    var v' := v.(seen := row.id, queued := if take then v.queued + [row] else v.queued);
    MaxIdBounds(v.tab, row);
    assert v'.held + v'.queued == if take then (v.held + v.queued) + [row] else v.held + v.queued;
    SnocAscending(v.held + v.queued, row, v.seen);
    CoversNext(v.tab, t, v.end, v.seen, v.held + v.queued, row);
    CoversNext(v.tab, t, v.hw, v.seen, v.queued, row);
  }

  /** Offering a row to a subscription that does not list the topic leaves the topic alone. */
  lemma OfferElsewhere(v: View, t: Topic, row: Row)
    requires ViewOk(v, t) && Ascending(v.tab) && row in v.tab && v.seen < row.id
    requires v.inWave && !v.gated
    ensures ViewOk(v.(seen := row.id), t)
  {
    MaxIdBounds(v.tab, row);
  }

  lemma SnocAscending(s: seq<Row>, row: Row, upTo: nat)
    requires Ascending(s) && upTo < row.id && forall r :: r in s ==> r.id <= upTo
    ensures Ascending(s + [row])
  {
    forall i | 0 <= i < |s| ensures s[i].id < row.id { assert s[i] in s; }
  }

  lemma SnocFromTable(tab: seq<Row>, t: Topic, seen: nat, q: seq<Row>, row: Row)
    requires FromTable(tab, t, seen, q) && seen < row.id && row in tab && row.topic == t
    ensures FromTable(tab, t, row.id, q)
    ensures row.known ==> FromTable(tab, t, row.id, q + [row])
  {
  }

  lemma FromTableLater(tab: seq<Row>, t: Topic, seen: nat, later: nat, q: seq<Row>)
    requires FromTable(tab, t, seen, q)
    ensures seen <= later ==> FromTable(tab, t, later, q)
  {
  }

  lemma CoversNext(tab: seq<Row>, t: Topic, lo: nat, seen: nat, s: seq<Row>, row: Row)
    requires Ascending(tab) && row in tab && seen < row.id
    requires forall r :: r in tab && seen < r.id ==> row.id <= r.id
    ensures Covers(tab, t, lo, seen, s) ==>
              Covers(tab, t, lo, row.id, if row.topic == t && row.known then s + [row] else s)
  {
    if Covers(tab, t, lo, seen, s) {
      forall r | r in tab && r.topic == t && r.known && lo < r.id <= row.id
        ensures r in if row.topic == t && row.known then s + [row] else s
      {
        if r.id > seen {
          SameId(tab, r, row);
        }
      }
    }
  }

  lemma SameId(tab: seq<Row>, a: Row, b: Row)
    requires Ascending(tab) && a in tab && b in tab && a.id == b.id
    ensures a == b
  {
    var i :| 0 <= i < |tab| && tab[i] == a;
    var j :| 0 <= j < |tab| && tab[j] == b;
  }

  // ----- the scan -----

  /** A topic fresh in its wave: nothing delivered, held or in flight. */
  lemma Fresh(v: View, t: Topic)
    requires v.hw == v.floor == v.pos && v.del == [] && v.flight == [] && v.held == [] && v.inWave && !v.started
    requires v.seen <= MaxId(v.tab) && FromTable(v.tab, t, v.seen, v.queued) && Ascending(v.queued)
    requires v.gated || Covers(v.tab, t, v.floor, LastId(v.queued, 0), v.queued)
    ensures ViewOk(v, t)
  {
    EmptyConcat(v.queued);
    ExactlyNone(v.tab, t, v.floor, v.floor);
  }

  /** Taking the ceiling: the scan stands at the floor, and nothing above its end was offered. */
  lemma Snapshot(v: View, t: Topic)
    requires ViewOk(v, t) && v.inWave && !v.started && v.pos == v.floor
    ensures ViewOk(v.(started := true, end := Bound(v.floor, MaxId(v.tab), MaxId(v.tab))), t)
  {
  }

  /** A fresher ceiling only moves rows from the live side to the scan. */
  lemma Refresh(v: View, t: Topic, end: nat)
    requires ViewOk(v, t) && v.inWave && v.end <= end
    ensures ViewOk(v.(end := end), t)
  {
  }

  lemma Turn(v: View, t: Topic, pos: nat, got: seq<Row>)
    requires ViewOk(v, t) && v.inWave && v.pos <= pos && (pos == v.floor || pos <= MaxId(v.tab))
    requires v.started ==> pos <= v.end
    requires Exactly(v.tab, t, v.pos, pos, got)
    ensures ViewOk(v.(pos := pos, flight := v.flight + got), t)
  {
    var flight := v.flight + got;
    forall i, j | 0 <= i < j < |flight| ensures flight[i].id < flight[j].id {
      if i < |v.flight| <= j { assert v.flight[i] in v.flight && got[j - |v.flight|] in got; }
    }
  }

  // ----- the writer -----

  /** The writer takes the first rows in flight: what passes the dedup is exactly what comes
      next, and what stays in flight misses nothing above the new mark. */
  lemma TakeHistory(v: View, t: Topic, got: seq<Row>, rest: seq<Row>)
    requires ViewOk(v, t) && v.inWave && v.flight == got + rest
    ensures var rise := Rise(v.hw, got);
            ViewOk(v.(hw := LastId(rise, v.hw), del := v.del + rise, flight := rest), t)
  {
    hide Rise, Exactly, LiveOk, Covers, FromTable, Ascending;
    var rise := Rise(v.hw, got);
    var hw' := LastId(rise, v.hw);
    HistoryRise(v, t, got, rest);
    ExactlyAppend(v.tab, t, v.floor, v.hw, hw', v.del, rise);
    HistoryFlight(v, t, got, rest, hw');
    HistoryLive(v, t, hw', v.del + rise, rest);
  }

  lemma HistoryFlight(v: View, t: Topic, got: seq<Row>, rest: seq<Row>, hw: nat)
    requires FlightOk(v, t) && v.inWave && v.flight == got + rest && v.hw <= hw && (hw == v.hw || hw <= v.pos)
    requires forall r :: r in got && hw < r.id ==> r in rest
    ensures FlightOk(v.(hw := hw, flight := rest), t)
  {
    ConcatAscending(got, rest);
    assert forall r :: r in v.flight <==> r in got || r in rest;
  }

  lemma HistoryLive(v: View, t: Topic, hw: nat, del: seq<Row>, rest: seq<Row>)
    requires LiveOk(v, t) && v.inWave && v.hw <= hw
    ensures LiveOk(v.(hw := hw, del := del, flight := rest), t)
  {
    hide FromTable, Ascending;
  }

  lemma HistoryRise(v: View, t: Topic, got: seq<Row>, rest: seq<Row>)
    requires FlightOk(v, t) && v.floor <= v.hw && v.inWave && v.flight == got + rest
    ensures var rise := Rise(v.hw, got);
            var hw' := LastId(rise, v.hw);
            && v.hw <= hw' && Exactly(v.tab, t, v.hw, hw', rise)
            && (hw' == v.hw || (hw' <= v.pos && hw' <= MaxId(v.tab)))
            && forall r :: r in got && hw' < r.id ==> r in rest
  {
    var rise := Rise(v.hw, got);
    ConcatAscending(got, rest);
    RiseOfAscending(v.hw, got);
    RiseRows(v.hw, got);
    LastAbove(rise, v.hw);
    hide Rise;
    assert forall r :: r in v.flight <==> r in got || r in rest;
    if rise != [] {
      var last := rise[|rise| - 1];
      assert last in rise && last in v.flight;
      assert v.floor <= v.hw < last.id <= v.pos;
    }
    forall r | r in v.tab && r.topic == t && r.known && v.hw < r.id <= LastId(rise, v.hw) ensures r in rise {
      assert r in v.flight;
    }
  }

  /** A gated topic's next envelope moves from the channel to the buffer. */
  lemma Hold(v: View, t: Topic, row: Row, rest: seq<Row>)
    requires ViewOk(v, t) && v.gated && v.queued == [row] + rest
    ensures ViewOk(v.(held := v.held + [row], queued := rest), t)
  {
    assert (v.held + [row]) + rest == v.held + v.queued;
  }

  /** The next envelope of a topic without a gate, in a wave or not, is a duplicate or exactly
      the topic's next row. */
  lemma TakeTail(v: View, t: Topic, row: Row, rest: seq<Row>)
    requires ViewOk(v, t) && Ascending(v.tab) && !v.gated && v.queued == [row] + rest
    ensures var hw' := if row.id <= v.hw then v.hw else row.id;
            var del' := if row.id <= v.hw then v.del else v.del + [row];
            ViewOk(v.(hw := hw', del := del', queued := rest), t)
  {
    var hw' := if row.id <= v.hw then v.hw else row.id;
    var del' := if row.id <= v.hw then v.del else v.del + [row];
    var v' := v.(hw := hw', del := del', queued := rest);
    QueueTail(v, t, row, rest);
    MaxIdBounds(v.tab, row);
    if v.hw < row.id {
      NextRowExact(v, t, row, rest);
      ExactlyAppend(v.tab, t, v.floor, v.hw, row.id, v.del, [row]);
    }
    assert DeliveredOk(v', t);
    assert FlightOk(v', t);
  }

  lemma QueueTail(v: View, t: Topic, row: Row, rest: seq<Row>)
    requires LiveOk(v, t) && !v.gated && v.queued == [row] + rest
    ensures row in v.tab && row.topic == t && row.known && row.id <= v.seen
    ensures v.inWave && v.started ==> row.id <= v.end
    ensures forall r :: r in rest ==> row.id < r.id
    ensures LiveOk(v.(hw := if row.id <= v.hw then v.hw else row.id, queued := rest), t)
    ensures v.held == []
  {
    EmptyConcat(v.queued);
    EmptyConcat(rest);
    TailFacts(v.tab, t, v.seen, row, rest);
    LastOfQueue(row, rest);
    if v.inWave {
      TailCovers(v.tab, t, v.hw, LastId(v.queued, 0), row, rest);
    } else {
      TailCovers(v.tab, t, v.hw, v.seen, row, rest);
    }
  }

  lemma LastOfQueue(row: Row, rest: seq<Row>)
    requires Ascending([row] + rest)
    ensures row.id <= LastId([row] + rest, 0) && LastId(rest, 0) <= LastId([row] + rest, 0)
  {
    LastIsGreatest([row] + rest, row, 0);
  }

  lemma EmptyConcat(s: seq<Row>)
    ensures [] + s == s
  {
  }

  lemma TailFacts(tab: seq<Row>, t: Topic, seen: nat, row: Row, rest: seq<Row>)
    requires FromTable(tab, t, seen, [row] + rest) && Ascending([row] + rest)
    ensures row in tab && row.topic == t && row.known && row.id <= seen
    ensures FromTable(tab, t, seen, rest) && Ascending(rest)
    ensures forall r :: r in rest ==> row.id < r.id
  {
    var q := [row] + rest;
    assert row in q;
    TailAbove(q);
    assert q[1..] == rest;
  }

  lemma TailCovers(tab: seq<Row>, t: Topic, lo: nat, seen: nat, row: Row, rest: seq<Row>)
    requires Covers(tab, t, lo, seen, [row] + rest)
    ensures Covers(tab, t, Max(lo, row.id), seen, rest)
  {
  }

  lemma NextRowExact(v: View, t: Topic, row: Row, rest: seq<Row>)
    requires ViewOk(v, t) && !v.gated && v.queued == [row] + rest && v.hw < row.id
    requires forall r :: r in rest ==> row.id < r.id
    requires row in v.tab && row.topic == t && row.known && row.id <= v.seen
    ensures Exactly(v.tab, t, v.hw, row.id, [row])
  {
    if v.inWave {
      QueueAlone(v, t);
      LastIsGreatest(v.queued, row, 0);
    }
    forall r ensures r in [row] <==> r in v.tab && r.topic == t && r.known && v.hw < r.id <= row.id {
      if r in v.tab && r.topic == t && r.known && v.hw < r.id <= row.id {
        assert r in v.queued;
        assert r == row || r in rest;
      }
    }
  }

  /** Completing a wave folds the buffer in above the replay, and the gate can open. */
  lemma OpenGate(v: View, t: Topic)
    requires ViewOk(v, t) && Ascending(v.tab) && v.inWave && v.gated && v.started && v.flight == [] && v.pos == v.end
    ensures ViewOk(Gateless(v), t)
  {
    hide DeliveredOk, LiveOk, FlightOk;
    OpenDelivered(v, t);
    OpenLive(v, t);
    NoFlight(Gateless(v), t);
  }

  /** The topic with its gate open and its buffer folded in. */
  function Gateless(v: View): View {
    var fold := Rise(v.hw, v.held);
    v.(hw := LastId(fold, v.hw), del := v.del + fold, inWave := false, gated := false, held := [])
  }

  lemma NoFlight(v: View, t: Topic)
    ensures !v.inWave ==> FlightOk(v, t)
  {
  }

  lemma OpenDelivered(v: View, t: Topic)
    requires ViewOk(v, t) && Ascending(v.tab) && v.inWave && v.gated && v.started && v.flight == [] && v.pos == v.end
    ensures DeliveredOk(Gateless(v), t)
  {
    var fold := Rise(v.hw, v.held);
    FoldExact(v, t);
    FoldFromTable(v, t);
    ExactlyAppend(v.tab, t, v.floor, v.hw, LastId(fold, v.hw), v.del, fold);
    hide Rise, Exactly, LiveOk;
    if fold != [] {
      assert fold[|fold| - 1] in fold;
      MaxIdBounds(v.tab, fold[|fold| - 1]);
    }
  }

  lemma OpenLive(v: View, t: Topic)
    requires ViewOk(v, t) && Ascending(v.tab) && v.inWave && v.gated && v.started && v.flight == [] && v.pos == v.end
    ensures LiveOk(Gateless(v), t)
  {
    QueueCovers(v, t);
    QueueAlone(v, t);
    hide Rise, Covers, FromTable, Ascending, Exactly;
    EmptyConcat(v.queued);
  }

  lemma QueueAlone(v: View, t: Topic)
    requires LiveOk(v, t)
    ensures FromTable(v.tab, t, v.seen, v.queued) && Ascending(v.queued)
  {
    ConcatAscending(v.held, v.queued);
    assert forall r :: r in v.queued ==> r in v.held + v.queued;
  }

  lemma FoldFromTable(v: View, t: Topic)
    requires LiveOk(v, t)
    ensures forall r :: r in Rise(v.hw, v.held) ==> r in v.tab
  {
    RiseRows(v.hw, v.held);
    assert forall r :: r in v.held ==> r in v.held + v.queued;
  }

  /** What the fold leaves above the new mark is still queued. */
  lemma QueueCovers(v: View, t: Topic)
    requires ViewOk(v, t) && Ascending(v.tab) && v.inWave && v.gated && v.started && v.flight == [] && v.pos == v.end
    ensures Covers(v.tab, t, LastId(Rise(v.hw, v.held), v.hw), v.seen, v.queued)
  {
    var fold := Rise(v.hw, v.held);
    var hw' := LastId(fold, v.hw);
    ConcatAscending(v.held, v.queued);
    RiseOfAscending(v.hw, v.held);
    RiseRows(v.hw, v.held);
    LastAbove(fold, v.hw);
    hide Rise;
    forall r | r in v.tab && r.topic == t && r.known && hw' < r.id <= v.seen ensures r in v.queued {
      assert r.id <= v.end ==> r in v.flight;
      assert r in v.held + v.queued;
      assert r in v.held ==> r in fold;
    }
  }

  lemma ConcatAscending(a: seq<Row>, b: seq<Row>)
    requires Ascending(a + b)
    ensures Ascending(a) && Ascending(b)
    ensures forall x, y :: x in a && y in b ==> x.id < y.id
  {
    assert forall i :: 0 <= i < |a| ==> a[i] == (a + b)[i];
    assert forall i :: 0 <= i < |b| ==> b[i] == (a + b)[|a| + i];
  }

  lemma LastIsGreatest(s: seq<Row>, r: Row, lo: nat)
    requires Ascending(s) && r in s
    ensures r.id <= LastId(s, lo)
  {
    var i :| 0 <= i < |s| && s[i] == r;
  }

  lemma LastAbove(s: seq<Row>, lo: nat)
    requires Ascending(s)
    ensures forall r :: r in s ==> r.id <= LastId(s, lo)
  {
    forall r | r in s ensures r.id <= LastId(s, lo) { LastIsGreatest(s, r, lo); }
  }

  lemma FoldExact(v: View, t: Topic)
    requires ViewOk(v, t) && Ascending(v.tab) && v.inWave && v.gated && v.started && v.flight == [] && v.pos == v.end
    ensures var fold := Rise(v.hw, v.held);
            LastId(fold, v.hw) >= v.hw && Exactly(v.tab, t, v.hw, LastId(fold, v.hw), fold)
  {
    var fold := Rise(v.hw, v.held);
    var hw' := LastId(fold, v.hw);
    ConcatAscending(v.held, v.queued);
    RiseOfAscending(v.hw, v.held);
    RiseRows(v.hw, v.held);
    forall r ensures r in fold <==> r in v.tab && r.topic == t && r.known && v.hw < r.id <= hw' {
      if r in fold {
        LastIsGreatest(fold, r, v.hw);
        assert r in v.held + v.queued;
      }
      if r in v.tab && r.topic == t && r.known && v.hw < r.id <= hw' {
        FoldHasRow(v, t, r);
      }
    }
  }

  lemma FoldHasRow(v: View, t: Topic, r: Row)
    requires ViewOk(v, t) && Ascending(v.tab) && v.inWave && v.gated && v.started && v.flight == [] && v.pos == v.end
    requires r in v.tab && r.topic == t && r.known && v.hw < r.id <= LastId(Rise(v.hw, v.held), v.hw)
    ensures r in Rise(v.hw, v.held)
  {
    var fold := Rise(v.hw, v.held);
    ConcatAscending(v.held, v.queued);
    RiseOfAscending(v.hw, v.held);
    var last := fold[|fold| - 1];
    assert last in fold && last in v.held + v.queued;
    assert r.id <= v.end ==> r in v.flight;
    assert r in v.held + v.queued;
    assert r in v.queued ==> last.id < r.id;
  }
}
