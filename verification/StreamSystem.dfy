/** One live Subscribe stream with the world around it: the two tables, the poller, the
    stream's bounded subscription, the catch-up scans, the lane they feed, and the writer.
    Every interleaving of their steps is a run. */
module StreamSystem {
  import opened Rows
  import opened WaveScan
  import opened Fetcher
  import opened Frames
  import opened Writer

  /** The writer's tunables, the subscription's channel capacity, and the scan tunables. */
  datatype World = World(cfg: Config, capacity: nat, scanBatchTopics: int, scanTopicPageLimit: int)

  datatype ScanId = ScanId(wave: nat, kind: Kind)

  /** A catch-up fetcher. `started`: the ceiling was snapshotted (first value `first`) and the
      current topics pruned; `refreshed`: it holds its slot and re-read the ceiling, or needs
      none; `done`: its done marker is in the lane; `taken`: the writer consumed that marker. */
  datatype Scan = Scan(adds: seq<Add>, started: bool, first: nat, ceiling: nat, queue: seq<Add>,
                       refreshed: bool, done: bool, taken: bool)

  /** `groupSeen`/`welcomeSeen`: the last id of each kind the poller offered while the
      subscription was registered; `open`: the dispatcher has not closed it; `stale`: topics
      whose current registration is history_only and began while envelopes of theirs were queued
      that skip a row above the floor; `ended`: the handler has returned. */
  datatype Sys = Sys(groups: seq<Row>, welcomes: seq<Row>, groupSeen: nat, welcomeSeen: nat,
                     queue: seq<Row>, open: bool, lane: seq<Batch>, scans: map<ScanId, Scan>,
                     stale: set<Topic>, w: State, ended: bool)

  function Table(s: Sys, k: Kind): seq<Row> { if k == Group then s.groups else s.welcomes }

  function Seen(s: Sys, k: Kind): nat { if k == Group then s.groupSeen else s.welcomeSeen }

  function WithSeen(s: Sys, k: Kind, id: nat): Sys {
    if k == Group then s.(groupSeen := id) else s.(welcomeSeen := id)
  }

  /** The poller's next row: the first one above its cursor. */
  function NextRow(tab: seq<Row>, seen: nat): Option<Row> {
    if tab == [] then None
    else if tab[0].id > seen then Some(tab[0])
    else NextRow(tab[1..], seen)
  }

  function NewScan(adds: seq<Add>): Scan {
    Scan(adds, false, 0, 0, [], false, false, false)
  }

  datatype Step =
    | Publish(row: Row)
    | Dispatch(kind: Kind)
    | Snapshot(id: ScanId)
    | Refresh(id: ScanId, fails: bool)
    | ScanTurn(id: ScanId)
    | Finish(id: ScanId)
    | WriterBatch
    | WriterLive
    | WriterAborted
    | WriterMutate(m: MutateReq)
    | WriterHalfClose

  predicate Enabled(world: World, s: Sys, step: Step) {
    match step
    // ids become visible in id order
    case Publish(row) =>
      && MaxId(Table(s, row.topic.kind)) < row.id <= MAX_INT64
      && (row.topic.kind == Group ==> row.known)
    case Dispatch(k) => s.open && NextRow(Table(s, k), Seen(s, k)).Some?
    case Snapshot(id) => id in s.scans && !s.scans[id].started
    case Refresh(id, _) => id in s.scans && s.scans[id].started && !s.scans[id].refreshed
    case ScanTurn(id) => id in s.scans && s.scans[id].refreshed && s.scans[id].queue != []
    case Finish(id) => id in s.scans && s.scans[id].refreshed && s.scans[id].queue == [] && !s.scans[id].done
    case WriterBatch => !s.ended && s.lane != []
    case WriterLive => !s.ended && s.queue != []
    case WriterAborted => !s.ended && s.queue == [] && !s.open
    case WriterMutate(_) => !s.ended && !s.w.halfClosed
    case WriterHalfClose => !s.ended && !s.w.halfClosed
  }

  function DispatchRow(world: World, s: Sys, r: Row): Sys {
    var s1 := WithSeen(s, r.topic.kind, r.id);
    if !r.known || r.topic !in s.w.live then s1
    else if |s.queue| < world.capacity then s1.(queue := s.queue + [r])
    else s.(open := false)
  }

  function MarkTaken(s: Sys, b: Batch): Sys {
    var id := ScanId(b.wave, b.kind);
    if b.done && id in s.scans then s.(scans := s.scans[id := s.scans[id].(taken := true)]) else s
  }

  function Spawned(scans: map<ScanId, Scan>, r: Mutated): map<ScanId, Scan> {
    var s1 := if r.groupAdds == [] then scans else scans[ScanId(r.wave, Group) := NewScan(r.groupAdds)];
    if r.welcomeAdds == [] then s1 else s1[ScanId(r.wave, Welcome) := NewScan(r.welcomeAdds)]
  }

  /** The queued envelopes of a topic above `floor` are the first of the rows the topic has there. */
  predicate Harmless(tab: seq<Row>, t: Topic, floor: nat, queued: seq<Row>) {
    Rise(floor, queued) <= Between(tab, t, floor, MaxId(tab))
  }

  function FloorOf(w: State, t: Topic): nat {
    if t in w.epochs then w.epochs[t].floor else 0
  }

  /** Topics left in a history_only wave that began over queued envelopes skipping a row. */
  function StaleAfter(s: Sys, w: State): set<Topic> {
    set t | t in w.topicWave && t !in w.subscribed &&
      (if w.topicWave[t] == s.w.nextWave then !Harmless(Table(s, t.kind), t, FloorOf(w, t), Proj(s.queue, t))
       else t in s.stale)
  }

  function Settled(s: Sys, r: (State, Verdict)): Sys {
    s.(w := r.0, ended := r.1 != Continue)
  }

  function Apply(world: World, s: Sys, step: Step): Sys
    requires Enabled(world, s, step)
  {
    match step
    case Publish(row) =>
      if row.topic.kind == Group then s.(groups := s.groups + [row]) else s.(welcomes := s.welcomes + [row])
    case Dispatch(k) => DispatchRow(world, s, NextRow(Table(s, k), Seen(s, k)).value)
    case Snapshot(id) =>
      var sc := s.scans[id];
      var ceiling := MaxId(Table(s, id.kind));
      var queue := Prune(sc.adds, ceiling);
      s.(scans := s.scans[id := sc.(started := true, first := ceiling, ceiling := ceiling, queue := queue,
                                    refreshed := queue == [])])
    case Refresh(id, fails) =>
      var sc := s.scans[id];
      var ceiling := if fails then sc.ceiling else Max(sc.ceiling, MaxId(Table(s, id.kind)));
      s.(scans := s.scans[id := sc.(refreshed := true, ceiling := ceiling)])
    case ScanTurn(id) =>
      var sc := s.scans[id];
      var turn := RunTurn(Table(s, id.kind), sc.queue, sc.ceiling, AtLeastOne(world.scanBatchTopics),
                          AtLeastOne(world.scanTopicPageLimit));
      s.(scans := s.scans[id := sc.(queue := turn.queue)], lane := Forward(s.lane, id.wave, id.kind, Known(turn.rows)))
    case Finish(id) =>
      s.(scans := s.scans[id := s.scans[id].(done := true)], lane := s.lane + [Batch(id.wave, id.kind, [], true)])
    case WriterBatch =>
      var b := s.lane[0];
      Settled(MarkTaken(s.(lane := s.lane[1..]), b), TakeBatch(world.cfg, s.w, b))
    case WriterLive => Settled(s.(queue := s.queue[1..]), TakeLive(world.cfg, s.w, s.queue[0]))
    case WriterAborted => s.(ended := true)
    case WriterMutate(m) =>
      var r := Mutate(world.cfg, s.w, m);
      s.(w := r.s, ended := r.verdict != Continue, scans := Spawned(s.scans, r), stale := StaleAfter(s, r.s))
    case WriterHalfClose => Settled(s, HalfClose(s.w))
  }

  /** A stream starts on whatever the tables hold, with the poller anywhere behind them. */
  ghost predicate Initial(s: Sys) {
    && TableOk(s.groups, Group) && TableOk(s.welcomes, Welcome)
    && s.groupSeen <= MaxId(s.groups) && s.welcomeSeen <= MaxId(s.welcomes)
    && s.queue == [] && s.open && s.lane == [] && s.scans == map[] && s.stale == {} && s.w == Init && !s.ended
  }

  ghost predicate Run(world: World, run: seq<Sys>, steps: seq<Step>) {
    && |run| == |steps| + 1
    && Initial(run[0])
    && forall i :: 0 <= i < |steps| ==> Enabled(world, run[i], steps[i]) && run[i + 1] == Apply(world, run[i], steps[i])
  }

  // ----- what can happen from a state on -----

  /** These steps can be taken from `s`, one after the other. */
  predicate Possible(world: World, s: Sys, steps: seq<Step>)
    decreases |steps|
  {
    steps == [] || (Enabled(world, s, steps[0]) && Possible(world, Apply(world, s, steps[0]), steps[1..]))
  }

  function After(world: World, s: Sys, steps: seq<Step>): Sys
    requires Possible(world, s, steps)
    decreases |steps|
  {
    if steps == [] then s else After(world, Apply(world, s, steps[0]), steps[1..])
  }

  lemma {:induction false} Chain(world: World, s: Sys, a: seq<Step>, b: seq<Step>)
    requires Possible(world, s, a) && Possible(world, After(world, s, a), b)
    ensures Possible(world, s, a + b) && After(world, s, a + b) == After(world, After(world, s, a), b)
    decreases |a|
  {
    hide Enabled, Apply;
    if a == [] {
      assert a + b == b;
    } else {
      assert (a + b)[1..] == a[1..] + b;
      Chain(world, Apply(world, s, a[0]), a[1..], b);
    }
  }

  lemma OneStep(world: World, s: Sys, step: Step)
    requires Enabled(world, s, step)
    ensures Possible(world, s, [step]) && After(world, s, [step]) == Apply(world, s, step)
  {
    hide Enabled, Apply;
    assert [step][1..] == [];
  }

  // ----- what a stream has delivered of a topic -----

  /** The topic's rows framed at output position `start` or later. */
  function DeliveredSince(out: seq<Frame>, start: nat, t: Topic): seq<Row> {
    if start <= |out| then Proj(RowsIn(out[start..]), t) else []
  }

  /** The topic's rows in the catch-up lane under wave `v`. */
  function InLane(lane: seq<Batch>, v: nat, t: Topic): seq<Row> {
    if lane == [] then []
    else if lane[0].wave == v then Proj(lane[0].rows, t) + InLane(lane[1..], v, t)
    else InLane(lane[1..], v, t)
  }
}
