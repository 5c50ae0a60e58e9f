/** The invariant of a live stream, and its preservation by the steps of the world around the
    writer: publishing, polling and dispatching, and the catch-up scans. */
module Delivery {
  import opened Rows
  import opened WaveScan
  import opened Fetcher
  import opened Frames
  import opened Writer
  import opened StreamSystem
  import opened Bookkeeping
  import opened TopicSlice
  import V = TopicView

  /** The scan serving a topic's wave. */
  function ScanOf(s: Sys, sl: Slice, k: Kind): Scan {
    if sl.wave.Some? && ScanId(sl.wave.value, k) in s.scans then s.scans[ScanId(sl.wave.value, k)] else NewScan([])
  }

  function ViewWith(s: Sys, t: Topic, sl: Slice, sc: Scan): V.View {
    var end := Bound(sl.floor, sc.first, sc.ceiling);
    V.View(Table(s, t.kind), Seen(s, t.kind), Proj(s.queue, t), sl.floor, sl.mark,
           DeliveredSince(s.w.out, sl.start, t), sl.wave.Some?, sc.started, end,
           if sc.started then Position(sc.queue, t, end) else sl.floor,
           if sl.wave.Some? then InLane(s.lane, sl.wave.value, t) else [], sl.gated, sl.held)
  }

  function ViewOf(s: Sys, t: Topic): V.View {
    ViewWith(s, t, SliceOf(s.w, t), ScanOf(s, SliceOf(s.w, t), t.kind))
  }

  /** The delivery invariant of one registered topic. A history_only topic registered over queued
      envelopes that skip a row is outside it, and no invariant could save it (see
      `HistoryReplay.HistoryReplayExactly`). */
  ghost predicate TopicOk(s: Sys, t: Topic) {
    && SliceOf(s.w, t).start <= |s.w.out|
    && (t in s.stale || V.ViewOk(ViewOf(s, t), t))
  }

  ghost predicate TopicsOk(s: Sys, limbo: set<Topic>) {
    forall t :: t in s.w.epochs && t !in limbo ==> TopicOk(s, t)
  }

  ghost predicate EnvOk(s: Sys) {
    && TableOk(s.groups, Group) && TableOk(s.welcomes, Welcome)
    && s.groupSeen <= MaxId(s.groups) && s.welcomeSeen <= MaxId(s.welcomes)
  }

  /** Every topic's queued envelopes are rows of the store the poller has passed, in order. */
  ghost predicate QueueOk(s: Sys) {
    forall t :: Ascending(Proj(s.queue, t)) && V.FromTable(Table(s, t.kind), t, Seen(s, t.kind), Proj(s.queue, t))
  }

  ghost predicate ScanOk(sc: Scan, k: Kind, maxId: nat) {
    && Distinct(sc.adds) && Distinct(sc.queue)
    && (forall a :: a in sc.adds ==> a.topic.kind == k)
    && (forall q :: q in sc.queue ==> q.topic.kind == k)
    && (!sc.started ==> sc.queue == [] && !sc.refreshed)
    && (sc.started && !sc.refreshed ==> sc.queue == Prune(sc.adds, sc.first))
    && sc.first <= sc.ceiling <= maxId
    && (sc.queue != [] ==> sc.ceiling > 0)
    && (sc.done ==> sc.refreshed && sc.queue == [])
    && (sc.taken ==> sc.done)
    && (forall a :: a in sc.adds && Find(sc.queue, a.topic).Some? ==>
          a.cursor < sc.first && Find(sc.queue, a.topic).value <= sc.ceiling)
  }

  ghost predicate ScansOk(s: Sys) {
    forall id :: id in s.scans ==> id.wave < s.w.nextWave && ScanOk(s.scans[id], id.kind, MaxId(Table(s, id.kind)))
  }

  /** The lane holds batches of known scans, none behind its scan's done marker. */
  ghost predicate LaneOk(lane: seq<Batch>, scans: map<ScanId, Scan>) {
    && (forall b :: b in lane ==> BatchOk(b, scans))
    && (forall i, j :: 0 <= i < j < |lane| && lane[i].wave == lane[j].wave && lane[i].kind == lane[j].kind ==>
          !lane[i].done)
  }

  ghost predicate BatchOk(b: Batch, scans: map<ScanId, Scan>) {
    && ScanId(b.wave, b.kind) in scans
    && (forall r :: r in b.rows ==> r.topic.kind == b.kind)
    && !scans[ScanId(b.wave, b.kind)].taken
    && (b.done ==> b.rows == [] && scans[ScanId(b.wave, b.kind)].done)
  }

  /** How many of a wave's scans the writer has not seen the end of. */
  function Left(scans: map<ScanId, Scan>, v: nat): nat {
    (if ScanId(v, Group) in scans && !scans[ScanId(v, Group)].taken then 1 else 0) +
    (if ScanId(v, Welcome) in scans && !scans[ScanId(v, Welcome)].taken then 1 else 0)
  }

  /** A wave counts its open scans, and each of its topics is on the list of one. */
  ghost predicate WaveScans(w: State, scans: map<ScanId, Scan>) {
    && (forall v :: v in w.waves ==> w.waves[v].scansLeft == Left(scans, v))
    && (forall t :: t in w.topicWave ==>
          && ScanId(w.topicWave[t], t.kind) in scans
          && t in w.epochs
          && Add(t, w.epochs[t].floor) in scans[ScanId(w.topicWave[t], t.kind)].adds)
  }

  ghost predicate StaleOk(s: Sys, limbo: set<Topic>) {
    forall t :: t in s.stale && t in s.w.epochs && t !in limbo ==> t in s.w.topicWave && t !in s.w.subscribed
  }

  ghost predicate Inv(s: Sys) {
    && EnvOk(s) && QueueOk(s) && Book(s.w, {}, 0) && ScansOk(s) && LaneOk(s.lane, s.scans)
    && WaveScans(s.w, s.scans) && StaleOk(s, {}) && TopicsOk(s, {})
  }

  lemma InitialInv(s: Sys)
    requires Initial(s)
    ensures Inv(s)
  {
    InitBook();
  }

  // ----- Publish -----

  lemma PublishEnv(world: World, s: Sys, row: Row)
    requires EnvOk(s) && Enabled(world, s, Publish(row))
    ensures EnvOk(Apply(world, s, Publish(row)))
    ensures forall k :: MaxId(Table(s, k)) <= MaxId(Table(Apply(world, s, Publish(row)), k))
  {
    TableGrow(Table(s, row.topic.kind), row);
  }

  lemma TableGrow(tab: seq<Row>, row: Row)
    requires TableOk(tab, row.topic.kind) && MaxId(tab) < row.id <= MAX_INT64
    requires (row.topic.kind == Group ==> row.known)
    ensures TableOk(tab + [row], row.topic.kind)
    ensures MaxId(tab + [row]) == row.id
  {
    forall r | r in tab ensures r.id < row.id { MaxIdBounds(tab, r); }
    SnocAscends(tab, row);
  }

  lemma SnocAscends(tab: seq<Row>, row: Row)
    requires Ascending(tab) && forall r :: r in tab ==> r.id < row.id
    ensures Ascending(tab + [row])
  {
    forall i | 0 <= i < |tab| ensures tab[i].id < row.id { assert tab[i] in tab; }
  }

  lemma PublishView(world: World, s: Sys, row: Row, t: Topic)
    requires EnvOk(s) && Enabled(world, s, Publish(row)) && V.ViewOk(ViewOf(s, t), t)
    ensures V.ViewOk(ViewOf(Apply(world, s, Publish(row)), t), t)
  {
    hide V.ViewOk, ViewOf;
    PublishEffect(world, s, row, t);
    if row.topic.kind == t.kind { V.Publish(ViewOf(s, t), t, row); }
  }

  lemma PublishEffect(world: World, s: Sys, row: Row, t: Topic)
    requires Enabled(world, s, Publish(row))
    ensures var v := ViewOf(s, t);
            && v.tab == Table(s, t.kind)
            && ViewOf(Apply(world, s, Publish(row)), t) ==
               if row.topic.kind == t.kind then v.(tab := v.tab + [row]) else v
  {
    hide DeliveredSince, InLane, Position, Proj;
  }

  lemma PublishQueue(world: World, s: Sys, row: Row)
    requires QueueOk(s) && EnvOk(s) && Enabled(world, s, Publish(row))
    ensures QueueOk(Apply(world, s, Publish(row)))
  {
    var s' := Apply(world, s, Publish(row));
    forall t: Topic ensures V.FromTable(Table(s', t.kind), t, Seen(s', t.kind), Proj(s'.queue, t)) {
      assert V.FromTable(Table(s, t.kind), t, Seen(s, t.kind), Proj(s.queue, t));
    }
  }

  lemma ScanOkGrows(sc: Scan, k: Kind, a: nat, b: nat)
    requires ScanOk(sc, k, a) && a <= b
    ensures ScanOk(sc, k, b)
  {
  }

  lemma PublishTopics(world: World, s: Sys, row: Row)
    requires EnvOk(s) && TopicsOk(s, {}) && Enabled(world, s, Publish(row))
    ensures TopicsOk(Apply(world, s, Publish(row)), {})
  {
    hide V.ViewOk, EnvOk, ViewOf;
    var s' := Apply(world, s, Publish(row));
    forall t | t in s'.w.epochs ensures TopicOk(s', t) {
      assert TopicOk(s, t);
      if t !in s.stale { PublishView(world, s, row, t); }
    }
  }

  lemma PublishScans(world: World, s: Sys, row: Row)
    requires EnvOk(s) && ScansOk(s) && Enabled(world, s, Publish(row))
    ensures ScansOk(Apply(world, s, Publish(row)))
  {
    hide EnvOk, ScanOk;
    var s' := Apply(world, s, Publish(row));
    PublishEnv(world, s, row);
    forall id | id in s'.scans ensures ScanOk(s'.scans[id], id.kind, MaxId(Table(s', id.kind))) {
      ScanOkGrows(s.scans[id], id.kind, MaxId(Table(s, id.kind)), MaxId(Table(s', id.kind)));
    }
  }

  lemma InvPublish(world: World, s: Sys, row: Row)
    requires Inv(s) && Enabled(world, s, Publish(row))
    ensures Inv(Apply(world, s, Publish(row)))
  {
    hide EnvOk, QueueOk, Book, LaneOk, WaveScans, ScansOk, TopicsOk;
    PublishEnv(world, s, row);
    PublishQueue(world, s, row);
    PublishTopics(world, s, row);
    PublishScans(world, s, row);
  }

  // ----- Dispatch -----

  lemma {:induction false} NextRowFacts(tab: seq<Row>, seen: nat)
    requires Ascending(tab) && NextRow(tab, seen).Some?
    ensures var r := NextRow(tab, seen).value;
            r in tab && seen < r.id && forall x :: x in tab && seen < x.id ==> r.id <= x.id
  {
    assert tab == [tab[0]] + tab[1..];
    if tab[0].id <= seen {
      NextRowFacts(tab[1..], seen);
    } else {
      forall x | x in tab ensures tab[0].id <= x.id { var i :| 0 <= i < |tab| && tab[i] == x; }
    }
  }

  lemma ProjSnoc(q: seq<Row>, r: Row, t: Topic)
    ensures Proj(q + [r], t) == if r.topic == t then Proj(q, t) + [r] else Proj(q, t)
  {
    ProjConcat(q, [r], t);
    assert [r][1..] == [];
  }

  /** The subscription wants the row and has no room for it: the dispatcher closes it. */
  predicate Overflows(world: World, s: Sys, r: Row) {
    r.known && r.topic in s.w.live && |s.queue| >= world.capacity
  }

  lemma DispatchCases(world: World, s: Sys, r: Row)
    ensures var s' := DispatchRow(world, s, r);
            var wanted := r.known && r.topic in s.w.live;
            && s'.w == s.w && s'.scans == s.scans && s'.lane == s.lane && s'.stale == s.stale && s'.ended == s.ended
            && s'.groups == s.groups && s'.welcomes == s.welcomes
            && (s'.open <==> s.open && !Overflows(world, s, r))
            && s'.queue == (if wanted && !Overflows(world, s, r) then s.queue + [r] else s.queue)
            && (forall k :: Seen(s', k) == if k == r.topic.kind && !Overflows(world, s, r) then r.id else Seen(s, k))
  {
  }

  /** What offering one row does to one topic's view. */
  lemma DispatchEffect(world: World, s: Sys, r: Row, t: Topic)
    ensures var s' := DispatchRow(world, s, r);
            var v := ViewOf(s, t);
            ViewOf(s', t) ==
              if t.kind != r.topic.kind || Overflows(world, s, r) then v
              else if t in s.w.live && r.topic == t && r.known then v.(seen := r.id, queued := v.queued + [r])
              else v.(seen := r.id)
  {
    ProjSnoc(s.queue, r, t);
    DispatchCases(world, s, r);
    hide DispatchRow, Overflows, Proj, DeliveredSince, InLane, Position;
  }

  lemma DispatchView(world: World, s: Sys, r: Row, t: Topic)
    requires TableOk(Table(s, r.topic.kind), r.topic.kind) && V.ViewOk(ViewOf(s, t), t)
    requires r in Table(s, r.topic.kind) && Seen(s, r.topic.kind) < r.id
    requires forall x :: x in Table(s, r.topic.kind) && Seen(s, r.topic.kind) < x.id ==> r.id <= x.id
    requires t in s.w.live || (t in s.w.topicWave && t !in s.w.catchingUp)
    requires t in s.w.live ==> (t in s.w.topicWave ==> t in s.w.catchingUp)
    ensures V.ViewOk(ViewOf(DispatchRow(world, s, r), t), t)
  {
    var v := ViewOf(s, t);
    ViewFields(s, t);
    DispatchEffect(world, s, r, t);
    hide V.ViewOk, ViewOf;
    if t.kind == r.topic.kind && !Overflows(world, s, r) {
      if t in s.w.live {
        V.Offer(v, t, r);
      } else {
        V.OfferElsewhere(v, t, r);
      }
    }
  }

  lemma ViewFields(s: Sys, t: Topic)
    ensures var v := ViewOf(s, t);
            && v.tab == Table(s, t.kind) && v.seen == Seen(s, t.kind) && v.queued == Proj(s.queue, t)
            && (v.inWave <==> t in s.w.topicWave) && (v.gated <==> t in s.w.catchingUp)
            && v.hw == Mark(s.w.highWater, t)
  {
  }

  lemma DispatchQueue(world: World, s: Sys, r: Row)
    requires QueueOk(s) && TableOk(Table(s, r.topic.kind), r.topic.kind)
    requires r in Table(s, r.topic.kind) && Seen(s, r.topic.kind) < r.id
    ensures QueueOk(DispatchRow(world, s, r))
  {
    var s' := DispatchRow(world, s, r);
    forall t: Topic ensures Ascending(Proj(s'.queue, t)) &&
                            V.FromTable(Table(s', t.kind), t, Seen(s', t.kind), Proj(s'.queue, t))
    {
      assert V.FromTable(Table(s, t.kind), t, Seen(s, t.kind), Proj(s.queue, t));
      DispatchTopicQueue(world, s, r, t);
    }
  }

  lemma DispatchTopicQueue(world: World, s: Sys, r: Row, t: Topic)
    requires Ascending(Proj(s.queue, t)) && V.FromTable(Table(s, t.kind), t, Seen(s, t.kind), Proj(s.queue, t))
    requires r in Table(s, r.topic.kind) && Seen(s, r.topic.kind) < r.id
    ensures var s' := DispatchRow(world, s, r);
            Ascending(Proj(s'.queue, t)) && V.FromTable(Table(s', t.kind), t, Seen(s', t.kind), Proj(s'.queue, t))
  {
    var q := Proj(s.queue, t);
    ProjSnoc(s.queue, r, t);
    DispatchCases(world, s, r);
    hide DispatchRow, Overflows, Proj;
    if r.topic == t {
      V.SnocAscending(q, r, Seen(s, t.kind));
      V.SnocFromTable(Table(s, t.kind), t, Seen(s, t.kind), q, r);
    } else {
      V.FromTableLater(Table(s, t.kind), t, Seen(s, t.kind), r.id, q);
    }
  }

  lemma DispatchEnv(world: World, s: Sys, k: Kind)
    requires EnvOk(s) && Enabled(world, s, Dispatch(k))
    ensures EnvOk(Apply(world, s, Dispatch(k)))
    ensures var r := NextRow(Table(s, k), Seen(s, k)).value;
            && r.topic.kind == k && r in Table(s, k) && Seen(s, k) < r.id
            && (forall x :: x in Table(s, k) && Seen(s, k) < x.id ==> r.id <= x.id)
  {
    var tab := Table(s, k);
    var r := NextRow(tab, Seen(s, k)).value;
    assert TableOk(tab, k);
    NextRowFacts(tab, Seen(s, k));
    MaxIdBounds(tab, r);
    DispatchCases(world, s, r);
    hide DispatchRow, NextRow, TableOk, Overflows, MaxId;
    SeenBounded(s, DispatchRow(world, s, r), r);
  }

  lemma SeenBounded(s: Sys, s': Sys, r: Row)
    requires EnvOk(s) && s'.groups == s.groups && s'.welcomes == s.welcomes && r.id <= MaxId(Table(s, r.topic.kind))
    requires forall k :: Seen(s', k) == Seen(s, k) || (k == r.topic.kind && Seen(s', k) == r.id)
    ensures EnvOk(s')
  {
    assert Seen(s', Group) <= MaxId(s.groups) && Seen(s', Welcome) <= MaxId(s.welcomes);
  }

  /** A registered topic is live, or a wave owns it without a gate; a live one in a wave is gated. */
  lemma Registered(w: State, t: Topic)
    requires Book(w, {}, 0) && t in w.epochs
    ensures t in w.live || (t in w.topicWave && t !in w.catchingUp)
    ensures t in w.live ==> (t in w.topicWave <==> t in w.catchingUp)
    ensures t in w.live <==> t in w.subscribed
    ensures t in w.catchingUp ==> t in w.live
  {
  }

  lemma DispatchTopics(world: World, s: Sys, r: Row)
    requires Book(s.w, {}, 0) && TopicsOk(s, {})
    requires TableOk(Table(s, r.topic.kind), r.topic.kind)
    requires r in Table(s, r.topic.kind) && Seen(s, r.topic.kind) < r.id
    requires forall x :: x in Table(s, r.topic.kind) && Seen(s, r.topic.kind) < x.id ==> r.id <= x.id
    ensures TopicsOk(DispatchRow(world, s, r), {})
  {
    var s' := DispatchRow(world, s, r);
    hide V.ViewOk, ViewOf, Book, TableOk, DispatchRow;
    DispatchCases(world, s, r);
    forall t | t in s'.w.epochs ensures TopicOk(s', t) {
      assert TopicOk(s, t);
      Registered(s.w, t);
      if t !in s.stale { DispatchView(world, s, r, t); }
    }
  }

  lemma ScansSame(s: Sys, s': Sys)
    requires ScansOk(s) && s'.scans == s.scans && s'.groups == s.groups && s'.welcomes == s.welcomes
    requires s'.w.nextWave == s.w.nextWave
    ensures ScansOk(s')
  {
  }

  lemma TableIsOk(s: Sys, k: Kind)
    requires EnvOk(s)
    ensures TableOk(Table(s, k), k)
  {
  }

  lemma InvDispatch(world: World, s: Sys, k: Kind)
    requires Inv(s) && Enabled(world, s, Dispatch(k))
    ensures Inv(Apply(world, s, Dispatch(k)))
  {
    hide EnvOk, QueueOk, Book, LaneOk, WaveScans, TopicsOk, ScansOk, TableOk, DispatchRow, NextRow;
    DispatchEnv(world, s, k);
    TableIsOk(s, k);
    var r := NextRow(Table(s, k), Seen(s, k)).value;
    DispatchQueue(world, s, r);
    DispatchTopics(world, s, r);
    DispatchCases(world, s, r);
    ScansSame(s, DispatchRow(world, s, r));
  }

  // ----- the scans -----

  /** Whether scan `id` serves topic `t`. */
  predicate Serves(s: Sys, id: ScanId, t: Topic) {
    Owns(s.w, id.wave, t) && t.kind == id.kind
  }

  /** A scan step that leaves the lane alone changes the views of the topics it serves only. */
  lemma ScanEffect(s: Sys, id: ScanId, sc: Scan, t: Topic)
    requires id in s.scans
    ensures var s' := s.(scans := s.scans[id := sc]);
            ViewOf(s', t) == if Serves(s, id, t) then ViewWith(s, t, SliceOf(s.w, t), sc) else ViewOf(s, t)
  {
    hide DeliveredSince, InLane, Position, Proj;
  }

  lemma ServedView(s: Sys, id: ScanId, t: Topic)
    requires id in s.scans && Serves(s, id, t)
    ensures ViewOf(s, t) == ViewWith(s, t, SliceOf(s.w, t), s.scans[id])
    ensures t in s.w.epochs ==> SliceOf(s.w, t).floor == s.w.epochs[t].floor
  {
    hide DeliveredSince, InLane, Position, Proj;
  }

  /** The floor of a topic its scan serves is the cursor on the scan's list. */
  lemma ServedAdd(s: Sys, id: ScanId, t: Topic)
    requires WaveScans(s.w, s.scans) && id in s.scans && Serves(s, id, t)
    ensures t in s.w.epochs && Add(t, SliceOf(s.w, t).floor) in s.scans[id].adds
    ensures SliceOf(s.w, t).wave.Some? && SliceOf(s.w, t).wave.value == id.wave
  {
  }

  function Snapped(sc: Scan, ceiling: nat): Scan {
    sc.(started := true, first := ceiling, ceiling := ceiling, queue := Prune(sc.adds, ceiling),
        refreshed := Prune(sc.adds, ceiling) == [])
  }

  lemma SnapshotView(s: Sys, id: ScanId, t: Topic)
    requires id in s.scans && Serves(s, id, t) && !s.scans[id].started && Distinct(s.scans[id].adds)
    requires Add(t, SliceOf(s.w, t).floor) in s.scans[id].adds
    requires SliceOf(s.w, t).wave.Some?
    requires V.ViewOk(ViewOf(s, t), t)
    ensures V.ViewOk(ViewWith(s, t, SliceOf(s.w, t), Snapped(s.scans[id], MaxId(Table(s, t.kind)))), t)
  {
    var ceiling := MaxId(Table(s, t.kind));
    var floor := SliceOf(s.w, t).floor;
    ServedView(s, id, t);
    FindDistinct(s.scans[id].adds, Add(t, floor));
    PruneFind(s.scans[id].adds, ceiling, t);
    hide V.ViewOk, DeliveredSince, InLane, Proj, Prune, SliceOf;
    V.Snapshot(ViewOf(s, t), t);
  }

  lemma SnapshotScan(sc: Scan, k: Kind, maxId: nat)
    requires ScanOk(sc, k, maxId) && !sc.started
    ensures ScanOk(Snapped(sc, maxId), k, maxId)
  {
    PruneSomething(sc.adds, maxId);
    forall a | a in sc.adds ensures
      Find(Prune(sc.adds, maxId), a.topic).Some? ==>
        a.cursor < maxId && Find(Prune(sc.adds, maxId), a.topic).value <= maxId
    {
      PruneFind(sc.adds, maxId, a.topic);
      FindDistinct(sc.adds, a);
    }
    if sc.adds != [] { PruneFind(sc.adds, maxId, sc.adds[0].topic); }
  }

  /** Replacing one scan by another that is as far along with the writer keeps the accounts. */
  lemma ReplaceScan(s: Sys, id: ScanId, sc: Scan)
    requires id in s.scans && ScansOk(s) && LaneOk(s.lane, s.scans) && WaveScans(s.w, s.scans)
    requires sc.adds == s.scans[id].adds && sc.taken == s.scans[id].taken && (s.scans[id].done ==> sc.done)
    requires ScanOk(sc, id.kind, MaxId(Table(s, id.kind)))
    ensures var s' := s.(scans := s.scans[id := sc]);
            ScansOk(s') && LaneOk(s'.lane, s'.scans) && WaveScans(s'.w, s'.scans)
  {
    hide ScanOk;
    var scans := s.scans[id := sc];
    forall b | b in s.lane ensures BatchOk(b, scans) { assert BatchOk(b, s.scans); }
    forall v | v in s.w.waves ensures Left(scans, v) == Left(s.scans, v) { }
  }

  lemma SnapshotTopics(s: Sys, id: ScanId)
    requires id in s.scans && !s.scans[id].started && ScansOk(s) && WaveScans(s.w, s.scans) && TopicsOk(s, {})
    ensures TopicsOk(s.(scans := s.scans[id := Snapped(s.scans[id], MaxId(Table(s, id.kind)))]), {})
  {
    var sc := Snapped(s.scans[id], MaxId(Table(s, id.kind)));
    var s' := s.(scans := s.scans[id := sc]);
    assert Distinct(s.scans[id].adds) by { assert ScanOk(s.scans[id], id.kind, MaxId(Table(s, id.kind))); }
    hide V.ViewOk, ViewOf, ViewWith, WaveScans, ScansOk, Snapped;
    forall t | t in s'.w.epochs ensures TopicOk(s', t) {
      assert TopicOk(s, t);
      ScanEffect(s, id, sc, t);
      if t !in s.stale && Serves(s, id, t) {
        ServedAdd(s, id, t);
        SnapshotView(s, id, t);
      }
    }
  }

  lemma ScanAt(s: Sys, id: ScanId)
    requires ScansOk(s) && id in s.scans
    ensures ScanOk(s.scans[id], id.kind, MaxId(Table(s, id.kind))) && id.wave < s.w.nextWave
  {
  }

  lemma SameWorld(s: Sys, s': Sys)
    requires EnvOk(s) && QueueOk(s) && StaleOk(s, {})
    requires s' == s.(scans := s'.scans, lane := s'.lane)
    ensures EnvOk(s') && QueueOk(s') && StaleOk(s', {})
  {
    forall t: Topic ensures Ascending(Proj(s'.queue, t)) &&
                            V.FromTable(Table(s', t.kind), t, Seen(s', t.kind), Proj(s'.queue, t))
    {
      assert V.FromTable(Table(s, t.kind), t, Seen(s, t.kind), Proj(s.queue, t));
    }
  }

  lemma InvSnapshot(world: World, s: Sys, id: ScanId)
    requires Inv(s) && Enabled(world, s, Snapshot(id))
    ensures Inv(Apply(world, s, Snapshot(id)))
  {
    hide EnvOk, QueueOk, Book, LaneOk, WaveScans, TopicsOk, ScansOk, ScanOk, StaleOk;
    var s' := s.(scans := s.scans[id := Snapped(s.scans[id], MaxId(Table(s, id.kind)))]);
    ScanAt(s, id);
    SnapshotScan(s.scans[id], id.kind, MaxId(Table(s, id.kind)));
    SnapshotTopics(s, id);
    ReplaceScan(s, id, Snapped(s.scans[id], MaxId(Table(s, id.kind))));
    SameWorld(s, s');
  }

  // ----- Refresh -----

  function Refreshed(sc: Scan, maxId: nat, fails: bool): Scan {
    sc.(refreshed := true, ceiling := if fails then sc.ceiling else Max(sc.ceiling, maxId))
  }

  lemma RefreshScan(sc: Scan, k: Kind, maxId: nat, fails: bool)
    requires ScanOk(sc, k, maxId)
    ensures sc.started ==> ScanOk(Refreshed(sc, maxId, fails), k, maxId)
  {
  }

  lemma RefreshView(s: Sys, id: ScanId, t: Topic, fails: bool)
    requires id in s.scans && Serves(s, id, t) && s.scans[id].started && !s.scans[id].refreshed
    requires ScanOk(s.scans[id], id.kind, MaxId(Table(s, id.kind)))
    requires Add(t, SliceOf(s.w, t).floor) in s.scans[id].adds
    requires SliceOf(s.w, t).wave.Some?
    requires V.ViewOk(ViewOf(s, t), t)
    ensures V.ViewOk(ViewWith(s, t, SliceOf(s.w, t), Refreshed(s.scans[id], MaxId(Table(s, t.kind)), fails)), t)
  {
    var sc := s.scans[id];
    var floor := SliceOf(s.w, t).floor;
    var sc' := Refreshed(sc, MaxId(Table(s, t.kind)), fails);
    ServedView(s, id, t);
    FindDistinct(sc.adds, Add(t, floor));
    PruneFind(sc.adds, sc.first, t);
    hide V.ViewOk, DeliveredSince, InLane, Proj, Prune, SliceOf;
    V.Refresh(ViewOf(s, t), t, Bound(floor, sc'.first, sc'.ceiling));
  }

  lemma RefreshTopics(s: Sys, id: ScanId, fails: bool)
    requires id in s.scans && s.scans[id].started && !s.scans[id].refreshed
    requires ScansOk(s) && WaveScans(s.w, s.scans) && TopicsOk(s, {})
    ensures TopicsOk(s.(scans := s.scans[id := Refreshed(s.scans[id], MaxId(Table(s, id.kind)), fails)]), {})
  {
    var sc := Refreshed(s.scans[id], MaxId(Table(s, id.kind)), fails);
    var s' := s.(scans := s.scans[id := sc]);
    hide V.ViewOk, ViewOf, ViewWith, WaveScans, ScansOk, ScanOk, Refreshed;
    ScanAt(s, id);
    forall t | t in s'.w.epochs ensures TopicOk(s', t) {
      assert TopicOk(s, t);
      ScanEffect(s, id, sc, t);
      if t !in s.stale && Serves(s, id, t) {
        ServedAdd(s, id, t);
        RefreshView(s, id, t, fails);
      }
    }
  }

  lemma InvRefresh(world: World, s: Sys, id: ScanId, fails: bool)
    requires Inv(s) && Enabled(world, s, Refresh(id, fails))
    ensures Inv(Apply(world, s, Refresh(id, fails)))
  {
    hide EnvOk, QueueOk, Book, LaneOk, WaveScans, TopicsOk, ScansOk, ScanOk, StaleOk;
    var s' := s.(scans := s.scans[id := Refreshed(s.scans[id], MaxId(Table(s, id.kind)), fails)]);
    ScanAt(s, id);
    RefreshScan(s.scans[id], id.kind, MaxId(Table(s, id.kind)), fails);
    RefreshTopics(s, id, fails);
    ReplaceScan(s, id, Refreshed(s.scans[id], MaxId(Table(s, id.kind)), fails));
    SameWorld(s, s');
  }

  // ----- ScanTurn and Finish -----

  lemma {:induction false} InLaneSnoc(lane: seq<Batch>, b: Batch, v: nat, t: Topic)
    ensures InLane(lane + [b], v, t) == if b.wave == v then InLane(lane, v, t) + Proj(b.rows, t) else InLane(lane, v, t)
  {
    if lane == [] {
      assert lane + [b] == [b];
      assert [b][1..] == [];
      assert Proj(b.rows, t) + [] == [] + Proj(b.rows, t);
    } else {
      assert (lane + [b])[1..] == lane[1..] + [b];
      InLaneSnoc(lane[1..], b, v, t);
    }
  }

  /** Appending a batch of scan `id` to the lane lengthens the flights of the topics it serves. */
  lemma LaneEffect(s: Sys, id: ScanId, b: Batch, t: Topic)
    requires b.wave == id.wave && b.kind == id.kind && forall r :: r in b.rows ==> r.topic.kind == id.kind
    ensures var s' := s.(lane := s.lane + [b]);
            var v := ViewOf(s, t);
            ViewOf(s', t) == if Serves(s, id, t) then v.(flight := v.flight + Proj(b.rows, t)) else v
  {
    hide DeliveredSince, InLane, Position, Proj;
    if t in s.w.topicWave { InLaneGrows(s.lane, b, s.w.topicWave[t], t); }
  }

  lemma InLaneGrows(lane: seq<Batch>, b: Batch, v: nat, t: Topic)
    requires forall r :: r in b.rows ==> r.topic.kind == b.kind
    ensures InLane(lane + [b], v, t) ==
            if b.wave == v && t.kind == b.kind then InLane(lane, v, t) + Proj(b.rows, t) else InLane(lane, v, t)
  {
    hide InLane, Proj;
    InLaneSnoc(lane, b, v, t);
    if t.kind != b.kind {
      ProjOfOthers(b.rows, t);
      assert InLane(lane, v, t) + [] == InLane(lane, v, t);
    }
  }

  lemma LaneGrows(lane: seq<Batch>, scans: map<ScanId, Scan>, b: Batch)
    requires LaneOk(lane, scans) && BatchOk(b, scans)
    requires forall x :: x in lane && x.wave == b.wave && x.kind == b.kind ==> !x.done
    ensures LaneOk(lane + [b], scans)
  {
    var l := lane + [b];
    forall i, j | 0 <= i < j < |l| && l[i].wave == l[j].wave && l[i].kind == l[j].kind ensures !l[i].done {
      if j == |lane| { assert l[i] in lane; }
    }
  }

  /** A scan that has not finished has no done marker in the lane. */
  lemma NoMarkerYet(s: Sys, id: ScanId)
    requires LaneOk(s.lane, s.scans) && id in s.scans && !s.scans[id].done
    ensures forall x :: x in s.lane && x.wave == id.wave && x.kind == id.kind ==> !x.done
  {
    forall x | x in s.lane && x.wave == id.wave && x.kind == id.kind ensures !x.done {
      assert BatchOk(x, s.scans);
      assert ScanId(x.wave, x.kind) == id;
    }
  }

  function Turned(world: World, s: Sys, id: ScanId): Turn
    requires id in s.scans
  {
    RunTurn(Table(s, id.kind), s.scans[id].queue, s.scans[id].ceiling, AtLeastOne(world.scanBatchTopics),
            AtLeastOne(world.scanTopicPageLimit))
  }

  lemma TurnScan(tab: seq<Row>, sc: Scan, k: Kind, batchTopics: nat, limit: nat)
    requires TableOk(tab, k) && ScanOk(sc, k, MaxId(tab)) && sc.refreshed && !sc.done && limit >= 1 && sc.ceiling > 0
    ensures var turn := RunTurn(tab, sc.queue, sc.ceiling, batchTopics, limit);
            ScanOk(sc.(queue := turn.queue), k, MaxId(tab))
  {
    var turn := RunTurn(tab, sc.queue, sc.ceiling, batchTopics, limit);
    TurnDistinct(tab, sc.queue, sc.ceiling, batchTopics, limit);
    TurnTopics(tab, sc.queue, sc.ceiling, batchTopics, limit);
    hide RunTurn, Prune, Exactly;
    forall a | a in sc.adds && Find(turn.queue, a.topic).Some?
      ensures a.cursor < sc.first && Find(turn.queue, a.topic).value <= sc.ceiling
    {
      TurnOfTopic(tab, sc.queue, sc.ceiling, batchTopics, limit, a.topic);
    }
  }

  lemma TurnView(world: World, s: Sys, id: ScanId, t: Topic)
    requires id in s.scans && Serves(s, id, t)
    requires TableOk(Table(s, id.kind), id.kind)
    requires ScanOk(s.scans[id], id.kind, MaxId(Table(s, id.kind))) && s.scans[id].refreshed
    requires s.scans[id].queue != []
    requires Add(t, SliceOf(s.w, t).floor) in s.scans[id].adds
    requires SliceOf(s.w, t).wave.Some?
    requires V.ViewOk(ViewOf(s, t), t)
    ensures var turn := Turned(world, s, id);
            var v := ViewWith(s, t, SliceOf(s.w, t), s.scans[id].(queue := turn.queue));
            V.ViewOk(v.(flight := v.flight + Proj(Known(turn.rows), t)), t)
  {
    var sc := s.scans[id];
    var floor := SliceOf(s.w, t).floor;
    var turn := Turned(world, s, id);
    var v := ViewOf(s, t);
    ServedView(s, id, t);
    TurnOfTopic(Table(s, id.kind), sc.queue, sc.ceiling, AtLeastOne(world.scanBatchTopics),
                AtLeastOne(world.scanTopicPageLimit), t);
    var got := Proj(Known(turn.rows), t);
    var v' := ViewWith(s, t, SliceOf(s.w, t), sc.(queue := turn.queue));
    assert Find(sc.queue, t).Some? ==> floor < sc.first && Find(sc.queue, t).value <= sc.ceiling;
    hide V.ViewOk, DeliveredSince, InLane, Proj, Prune, SliceOf, RunTurn, Exactly;
    if Find(sc.queue, t).Some? {
      V.Turn(v, t, v'.pos, got);
    } else {
      assert v.flight + [] == v.flight;
    }
  }

  /** The rows a turn hands over belong to the scan's kind. */
  lemma TurnRows(world: World, s: Sys, id: ScanId)
    requires id in s.scans && TableOk(Table(s, id.kind), id.kind)
    ensures forall r :: r in Known(Turned(world, s, id).rows) ==> r.topic.kind == id.kind
  {
    var sc, tab := s.scans[id], Table(s, id.kind);
    var n := Min(|sc.queue|, AtLeastOne(world.scanBatchTopics));
    QueryBounded(tab, sc.queue[..n], 0, sc.ceiling, AtLeastOne(world.scanTopicPageLimit));
    forall r | r in Known(Turned(world, s, id).rows) ensures r.topic.kind == id.kind {
      KnownMember(Turned(world, s, id).rows, r);
    }
  }

  lemma ForwardEffect(s: Sys, id: ScanId, rows: seq<Row>, t: Topic)
    requires forall r :: r in rows ==> r.topic.kind == id.kind
    ensures var s' := s.(lane := Forward(s.lane, id.wave, id.kind, rows));
            var v := ViewOf(s, t);
            ViewOf(s', t) == if Serves(s, id, t) then v.(flight := v.flight + Proj(rows, t)) else v
  {
    hide ViewOf, Serves;
    if rows == [] {
      assert ViewOf(s, t).flight + [] == ViewOf(s, t).flight;
    } else {
      LaneEffect(s, id, Batch(id.wave, id.kind, rows, false), t);
    }
  }

  lemma TurnEffect(world: World, s: Sys, id: ScanId, t: Topic)
    requires id in s.scans && s.scans[id].refreshed && s.scans[id].queue != []
    requires TableOk(Table(s, id.kind), id.kind)
    ensures var turn := Turned(world, s, id);
            var sc := s.scans[id].(queue := turn.queue);
            var v := ViewWith(s, t, SliceOf(s.w, t), sc);
            ViewOf(Apply(world, s, ScanTurn(id)), t) ==
              if Serves(s, id, t) then v.(flight := v.flight + Proj(Known(turn.rows), t)) else ViewOf(s, t)
  {
    var turn := Turned(world, s, id);
    var s1 := s.(scans := s.scans[id := s.scans[id].(queue := turn.queue)]);
    TurnRows(world, s, id);
    hide RunTurn, ViewOf, ViewWith, SliceOf, Proj, Known;
    ScanEffect(s, id, s.scans[id].(queue := turn.queue), t);
    ForwardEffect(s1, id, Known(turn.rows), t);
  }

  lemma TurnTopicsOk(world: World, s: Sys, id: ScanId)
    requires id in s.scans && s.scans[id].refreshed && s.scans[id].queue != []
    requires TableOk(Table(s, id.kind), id.kind) && ScansOk(s) && WaveScans(s.w, s.scans) && TopicsOk(s, {})
    ensures TopicsOk(Apply(world, s, ScanTurn(id)), {})
  {
    var s' := Apply(world, s, ScanTurn(id));
    assert s'.w == s.w && s'.stale == s.stale;
    hide V.ViewOk, ViewOf, ViewWith, WaveScans, ScansOk, ScanOk, Turned, Apply, TableOk;
    ScanAt(s, id);
    forall t | t in s'.w.epochs ensures TopicOk(s', t) {
      assert TopicOk(s, t);
      TurnEffect(world, s, id, t);
      if t !in s.stale && Serves(s, id, t) {
        ServedAdd(s, id, t);
        TurnView(world, s, id, t);
      }
    }
  }

  lemma TurnLane(world: World, s: Sys, id: ScanId)
    requires id in s.scans && !s.scans[id].done && ScanOk(s.scans[id], id.kind, MaxId(Table(s, id.kind)))
    requires LaneOk(s.lane, s.scans) && TableOk(Table(s, id.kind), id.kind)
    ensures LaneOk(Forward(s.lane, id.wave, id.kind, Known(Turned(world, s, id).rows)), s.scans)
  {
    var rows := Known(Turned(world, s, id).rows);
    TurnRows(world, s, id);
    assert !s.scans[id].taken;
    hide Turned, Known, ScanOk;
    if rows != [] {
      NoMarkerYet(s, id);
      LaneGrows(s.lane, s.scans, Batch(id.wave, id.kind, rows, false));
    }
  }

  lemma InvTurn(world: World, s: Sys, id: ScanId)
    requires Inv(s) && Enabled(world, s, ScanTurn(id))
    ensures Inv(Apply(world, s, ScanTurn(id)))
  {
    var tab := Table(s, id.kind);
    assert TableOk(tab, id.kind);
    var turn := Turned(world, s, id);
    var sc := s.scans[id].(queue := turn.queue);
    var s1 := s.(lane := Forward(s.lane, id.wave, id.kind, Known(turn.rows)));
    var s' := s1.(scans := s.scans[id := sc]);
    assert s' == Apply(world, s, ScanTurn(id));
    hide EnvOk, QueueOk, Book, LaneOk, WaveScans, TopicsOk, ScansOk, StaleOk, TableOk, Turned, Apply;
    ScanAt(s, id);
    TurnScan(tab, s.scans[id], id.kind, AtLeastOne(world.scanBatchTopics), AtLeastOne(world.scanTopicPageLimit));
    TurnIs(world, s, id);
    TurnTopicsOk(world, s, id);
    TurnLane(world, s, id);
    ScansSame(s, s1);
    ReplaceScan(s1, id, sc);
    SameWorld(s, s');
  }

  lemma TurnIs(world: World, s: Sys, id: ScanId)
    requires id in s.scans
    ensures Turned(world, s, id) ==
            RunTurn(Table(s, id.kind), s.scans[id].queue, s.scans[id].ceiling, AtLeastOne(world.scanBatchTopics),
                    AtLeastOne(world.scanTopicPageLimit))
  {
  }

  lemma FinishTopics(s: Sys, id: ScanId, s': Sys)
    requires id in s.scans && TopicsOk(s, {})
    requires s' == s.(scans := s.scans[id := s.scans[id].(done := true)],
                      lane := s.lane + [Batch(id.wave, id.kind, [], true)])
    ensures TopicsOk(s', {})
  {
    var s1 := s.(scans := s.scans[id := s.scans[id].(done := true)]);
    hide V.ViewOk, ViewOf, ViewWith;
    forall t | t in s'.w.epochs ensures TopicOk(s', t) {
      assert TopicOk(s, t);
      ScanEffect(s, id, s.scans[id].(done := true), t);
      LaneEffect(s1, id, Batch(id.wave, id.kind, [], true), t);
      if Serves(s, id, t) { DoneView(s, id, t); }
      assert ViewOf(s, t).flight + [] == ViewOf(s, t).flight;
    }
  }

  lemma DoneView(s: Sys, id: ScanId, t: Topic)
    requires id in s.scans && Serves(s, id, t)
    ensures ViewWith(s, t, SliceOf(s.w, t), s.scans[id].(done := true)) == ViewOf(s, t)
  {
  }

  lemma FinishIs(world: World, s: Sys, id: ScanId)
    requires Enabled(world, s, Finish(id))
    ensures Apply(world, s, Finish(id)) ==
            s.(scans := s.scans[id := s.scans[id].(done := true)], lane := s.lane + [Batch(id.wave, id.kind, [], true)])
  {
  }

  lemma InvFinish(world: World, s: Sys, id: ScanId)
    requires Inv(s) && Enabled(world, s, Finish(id))
    ensures Inv(Apply(world, s, Finish(id)))
  {
    hide EnvOk, QueueOk, Book, LaneOk, WaveScans, TopicsOk, ScansOk, StaleOk, Apply;
    var sc := s.scans[id].(done := true);
    var b := Batch(id.wave, id.kind, [], true);
    var s1 := s.(scans := s.scans[id := sc]);
    var s' := s1.(lane := s.lane + [b]);
    FinishIs(world, s, id);
    ScanAt(s, id);
    FinishTopics(s, id, s');
    NoMarkerYet(s, id);
    ReplaceScan(s, id, sc);
    LaneGrows(s.lane, s1.scans, b);
    ScansSame(s1, s');
    SameWorld(s, s');
  }
}
