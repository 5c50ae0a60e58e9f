/** Exactly when a history_only replay is complete: when the envelopes still queued for the topic
    at its registration skip none of its rows. */
module HistoryReplay {
  import opened Rows
  import opened WaveScan
  import opened Fetcher
  import opened Frames
  import opened Writer
  import opened StreamSystem
  import opened Bookkeeping
  import opened TopicSlice
  import opened Delivery
  import opened LogSteps
  import opened Theorems
  import M = MutateMeaning
  import MutateShape
  import MutateSteps
  import V = TopicView
  import WriterSteps

  // ----- a registration lasts while its wave owns the topic -----

  lemma BatchWaves(cfg: Config, w: State, b: Batch)
    requires Book(w, {}, 0)
    ensures var d := TakeBatch(cfg, w, b).0;
            && d.nextWave == w.nextWave && d.subscribed == w.subscribed && d.halfClosed == w.halfClosed
            && forall t :: t in d.topicWave ==> t in w.topicWave && d.topicWave[t] == w.topicWave[t]
  {
    hide Book, Emit, Wanted, CompleteWave;
    if b.wave in w.waves {
      var wave, msgs := w.waves[b.wave], Wanted(w.topicWave, b.wave, b.rows);
      var w1 := Emit(cfg, w, wave.mutateId, msgs);
      EmitBook(cfg, w, wave.mutateId, msgs, {}, 0);
      WriterSteps.EmitSame(cfg, w, wave.mutateId, msgs);
      if b.done && wave.scansLeft - 1 <= 0 {
        WriterSteps.CompleteFields(cfg, w1, b.wave, wave.(scansLeft := wave.scansLeft - 1));
      }
    }
  }

  /** Only a Mutate registers topics. */
  lemma StepWaves(world: World, s: Sys, step: Step)
    requires Inv(s) && Enabled(world, s, step) && !step.WriterMutate?
    ensures var s' := Apply(world, s, step);
            && s'.stale == s.stale && s'.w.nextWave == s.w.nextWave
            && forall t :: t in s'.w.topicWave ==> t in s.w.topicWave && s'.w.topicWave[t] == s.w.topicWave[t]
  {
    hide EnvOk, QueueOk, Book, ScansOk, LaneOk, WaveScans, StaleOk, TopicsOk, TakeBatch, TakeLive, DispatchRow;
    match step
    case Dispatch(k) => DispatchCases(world, s, NextRow(Table(s, k), Seen(s, k)).value);
    case WriterBatch => BatchWaves(world.cfg, s.w, s.lane[0]);
    case WriterLive => WriterSteps.LiveSame(world.cfg, s.w, s.queue[0]);
    case _ =>
  }

  /** A Mutate gives no old wave new topics. */
  lemma MutateWaves(world: World, s: Sys, m: MutateReq, v: nat, t: Topic)
    requires Sound(s.w, {}, 0, 0) && Enabled(world, s, WriterMutate(m))
    requires Mutate(world.cfg, s.w, m).verdict == Continue && v < s.w.nextWave
    ensures var s' := Apply(world, s, WriterMutate(m));
            && s.w.nextWave <= s'.w.nextWave
            && (Owns(s'.w, v, t) ==> Owns(s.w, v, t) && (t in s'.stale ==> t in s.stale))
  {
    hide Sound, Mutate, M.NewWave, Harmless, M.Added;
    M.MutateMeans(world.cfg, s.w, m);
    hide M.Lowest;
  }

  /** What every step keeps of wave `v`'s claim on a topic. */
  ghost predicate Tracked(s: Sys, v: nat, t: Topic) {
    Inv(s) && Sound(s.w, {}, 0, 0) && v < s.w.nextWave && (Owns(s.w, v, t) ==> t !in s.stale)
  }

  lemma StepTracks(world: World, s: Sys, step: Step, v: nat, t: Topic)
    requires Tracked(s, v, t) && Enabled(world, s, step) && !Apply(world, s, step).ended
    ensures Tracked(Apply(world, s, step), v, t)
  {
    hide Inv, Sound, Apply, Enabled;
    StepKeeps(world, s, step);
    StepSound(world, s, step);
    if step.WriterMutate? {
      MutateEnds(world, s, step.m);
      MutateWaves(world, s, step.m, v, t);
    } else {
      StepWaves(world, s, step);
    }
  }

  lemma {:induction false} EndedForever(world: World, s: Sys, more: seq<Step>)
    requires Possible(world, s, more) && s.ended
    ensures After(world, s, more).ended
    decreases |more|
  {
    if more != [] {
      EndedStays(world, s, more[0]);
      hide Apply, Enabled;
      EndedForever(world, Apply(world, s, more[0]), more[1..]);
    }
  }

  lemma {:induction false} PathTracks(world: World, s: Sys, more: seq<Step>, v: nat, t: Topic)
    requires Tracked(s, v, t) && Possible(world, s, more) && !After(world, s, more).ended
    ensures Tracked(After(world, s, more), v, t)
    decreases |more|
  {
    hide Tracked, Apply, Enabled;
    if more != [] {
      var s1 := Apply(world, s, more[0]);
      if s1.ended { EndedForever(world, s1, more[1..]); }
      StepTracks(world, s, more[0], v, t);
      PathTracks(world, s1, more[1..], v, t);
    }
  }

  // ----- completion -----

  /** The next batch completes wave `v`, which owns the topic. */
  predicate Completes(s: Sys, v: nat, t: Topic) {
    !s.ended && Completing(s) && s.lane[0].wave == v && Owns(s.w, v, t)
  }

  /** What was sent of the topic since its registration is its rows up to the replay's bound, and
      the bound reaches all of `early`, the table as the registration found it. */
  ghost predicate Complete(s: Sys, t: Topic, early: seq<Row>) {
    && t in s.w.epochs && t in s.w.topicWave && ScanId(s.w.topicWave[t], t.kind) in s.scans
    && (var e := s.w.epochs[t];
        && DeliveredSince(s.w.out, e.start, t) == Between(Table(s, t.kind), t, e.floor, ReplayBound(s, t))
        && forall r :: r in early && e.floor < r.id ==> r.id <= ReplayBound(s, t))
  }

  lemma TrackedCompletes(s: Sys, v: nat, t: Topic, early: seq<Row>)
    requires Tracked(s, v, t) && Completes(s, v, t)
    requires Ascending(early) && ScanReaches(s, ScanId(v, t.kind), MaxId(early))
    ensures Complete(s, t, early)
  {
    hide Inv, Sound, DeliveredSince, Between;
    CompletionIsTrue(s, t);
    CompletingView(s, t);
    CompletingBound(s, t);
    forall r | r in early ensures r.id <= MaxId(early) { MaxIdBounds(early, r); }
  }

  lemma {:induction false} PathReaches(world: World, s: Sys, more: seq<Step>, id: ScanId, upTo: nat)
    requires Inv(s) && Possible(world, s, more) && !After(world, s, more).ended
    requires ScanReaches(s, id, upTo) && upTo <= MaxId(Table(s, id.kind))
    ensures ScanReaches(After(world, s, more), id, upTo)
    decreases |more|
  {
    hide Inv, Apply, Enabled, ScanReaches;
    if more != [] {
      var s1 := Apply(world, s, more[0]);
      if s1.ended { EndedForever(world, s1, more[1..]); }
      StepKeeps(world, s, more[0]);
      StepReaches(world, s, more[0], id, upTo);
      PathReaches(world, s1, more[1..], id, upTo);
    }
  }

  // ----- a row that is never sent -----

  /** Row `x` of a topic owned by wave `v` has not been sent and never will be: its id is already
      below the mark, or will be once the queue is drained. */
  ghost predicate Doomed(s: Sys, v: nat, t: Topic, x: Row) {
    && !s.ended && !s.w.halfClosed && Owns(s.w, v, t) && t in s.w.epochs && t !in s.w.subscribed
    && x in Table(s, t.kind) && x.topic == t && x.known && s.w.epochs[t].floor < x.id
    && s.w.epochs[t].start <= |s.w.out| && x !in DeliveredSince(s.w.out, s.w.epochs[t].start, t)
    && x !in s.queue
    && (x.id <= Mark(s.w.highWater, t) || exists r :: r in s.queue && r.topic == t && x.id < r.id)
    && ScanId(v, t.kind) in s.scans
    && (s.scans[ScanId(v, t.kind)].started ==> x.id <= s.scans[ScanId(v, t.kind)].first)
  }

  /** With the queue drained, the replay completes without the row. */
  lemma DoomedIncomplete(s: Sys, v: nat, t: Topic, x: Row, early: seq<Row>)
    requires Inv(s) && Doomed(s, v, t, x) && Completes(s, v, t)
    ensures !Complete(s, t, early)
  {
    var sc, e := s.scans[ScanId(v, t.kind)], s.w.epochs[t];
    CompletingView(s, t);
    ViewStarted(s, t);
    ScanAt(s, ScanId(v, t.kind));
    TableIsOk(s, t.kind);
    hide Inv, DeliveredSince, Between;
    BetweenIsExact(Table(s, t.kind), t, e.floor, ReplayBound(s, t));
  }

  lemma ViewStarted(s: Sys, t: Topic)
    requires t in s.w.topicWave && ScanId(s.w.topicWave[t], t.kind) in s.scans
    ensures ViewOf(s, t).started == s.scans[ScanId(s.w.topicWave[t], t.kind)].started
  {
    hide DeliveredSince, InLane, Position, Proj;
  }

  // ----- running a scan to its end -----

  /** Only scan `id` and the lane have moved, and the lane has only grown. */
  ghost predicate Scanning(s: Sys, d: Sys, id: ScanId) {
    && id in s.scans && id in d.scans
    && d == s.(scans := s.scans[id := d.scans[id]], lane := d.lane)
    && s.lane <= d.lane
    && d.scans[id].adds == s.scans[id].adds && d.scans[id].taken == s.scans[id].taken
    && (s.scans[id].started ==> d.scans[id].started && d.scans[id].first == s.scans[id].first)
  }

  /** The turns of a scan come to an end. */
  lemma {:induction false} RunTurns(world: World, s: Sys, id: ScanId) returns (steps: seq<Step>)
    requires EnvOk(s) && id in s.scans && s.scans[id].refreshed && !s.scans[id].done
    requires s.scans[id].queue != [] ==> s.scans[id].ceiling > 0
    ensures Possible(world, s, steps)
    ensures var d := After(world, s, steps);
            Scanning(s, d, id) && d.scans[id].refreshed && d.scans[id].queue == [] && !d.scans[id].done
    decreases Remaining(Table(s, id.kind), s.scans[id].queue, s.scans[id].ceiling) + |s.scans[id].queue|
  {
    var sc, tab := s.scans[id], Table(s, id.kind);
    steps := [];
    if sc.queue != [] {
      TableIsOk(s, id.kind);
      TurnConserves(tab, sc.queue, sc.ceiling, AtLeastOne(world.scanBatchTopics), AtLeastOne(world.scanTopicPageLimit));
      TurnMoves(world, s, id);
      var s1 := Apply(world, s, ScanTurn(id));
      hide Apply, RunTurn, Remaining;
      var rest := RunTurns(world, s1, id);
      OneStep(world, s, ScanTurn(id));
      Chain(world, s, [ScanTurn(id)], rest);
      steps := [ScanTurn(id)] + rest;
      ScanningOn(s, s1, After(world, s1, rest), id);
    }
  }

  lemma TurnMoves(world: World, s: Sys, id: ScanId)
    requires EnvOk(s) && id in s.scans && s.scans[id].refreshed && !s.scans[id].done && s.scans[id].queue != []
    ensures Enabled(world, s, ScanTurn(id))
    ensures var d := Apply(world, s, ScanTurn(id));
            && Scanning(s, d, id) && EnvOk(d)
            && (var sc := s.scans[id];
                d.scans[id] == sc.(queue := RunTurn(Table(s, id.kind), sc.queue, sc.ceiling,
                                                    AtLeastOne(world.scanBatchTopics),
                                                    AtLeastOne(world.scanTopicPageLimit)).queue))
  {
    hide RunTurn, TableOk;
  }

  lemma ScanningOn(s: Sys, m: Sys, d: Sys, id: ScanId)
    requires Scanning(s, m, id) && Scanning(m, d, id)
    ensures Scanning(s, d, id)
  {
    assert s.scans[id := m.scans[id]][id := d.scans[id]] == s.scans[id := d.scans[id]];
  }

  /** A scan that has not begun can run to its end at once and leave its done marker. */
  lemma RunScan(world: World, s: Sys, id: ScanId) returns (steps: seq<Step>)
    requires EnvOk(s) && id in s.scans && !s.scans[id].started && !s.scans[id].done
    ensures Possible(world, s, steps)
    ensures var d := After(world, s, steps);
            && Scanning(s, d, id) && d.scans[id].done && Batch(id.wave, id.kind, [], true) in d.lane
            && d.scans[id].first == MaxId(Table(s, id.kind))
  {
    var begin := Begin(world, s, id);
    var s1 := After(world, s, begin);
    var turns := RunTurns(world, s1, id);
    Chain(world, s, begin, turns);
    var s2 := After(world, s1, turns);
    ScanningOn(s, s1, s2, id);
    FinishMoves(world, s2, id);
    var s3 := Apply(world, s2, Finish(id));
    hide Apply;
    OneStep(world, s2, Finish(id));
    Chain(world, s, begin + turns, [Finish(id)]);
    ScanningOn(s, s2, s3, id);
    steps := begin + turns + [Finish(id)];
  }

  lemma FinishMoves(world: World, s: Sys, id: ScanId)
    requires id in s.scans && s.scans[id].refreshed && s.scans[id].queue == [] && !s.scans[id].done
    ensures Enabled(world, s, Finish(id))
    ensures var d := Apply(world, s, Finish(id));
            && Scanning(s, d, id) && d.scans[id].done && d.scans[id].first == s.scans[id].first
            && Batch(id.wave, id.kind, [], true) in d.lane
  {
  }

  /** Taking the ceiling, and re-reading it if anything is left to scan. */
  lemma Begin(world: World, s: Sys, id: ScanId) returns (steps: seq<Step>)
    requires EnvOk(s) && id in s.scans && !s.scans[id].started && !s.scans[id].done
    ensures Possible(world, s, steps)
    ensures var d := After(world, s, steps);
            && Scanning(s, d, id) && d.scans[id].started && d.scans[id].refreshed && !d.scans[id].done
            && d.scans[id].first == MaxId(Table(s, id.kind))
            && (d.scans[id].queue != [] ==> d.scans[id].ceiling > 0)
  {
    SnapMoves(world, s, id);
    var s1 := Apply(world, s, Snapshot(id));
    steps := [Snapshot(id)];
    OneStep(world, s, Snapshot(id));
    if !s1.scans[id].refreshed {
      RefreshMoves(world, s1, id);
      var s2 := Apply(world, s1, Refresh(id, true));
      hide Apply;
      OneStep(world, s1, Refresh(id, true));
      Chain(world, s, [Snapshot(id)], [Refresh(id, true)]);
      ScanningOn(s, s1, s2, id);
      steps := [Snapshot(id)] + [Refresh(id, true)];
    }
  }

  lemma SnapMoves(world: World, s: Sys, id: ScanId)
    requires id in s.scans && !s.scans[id].started && !s.scans[id].done
    ensures Enabled(world, s, Snapshot(id))
    ensures var d := Apply(world, s, Snapshot(id));
            && Scanning(s, d, id) && d.scans[id].started && !d.scans[id].done
            && d.scans[id].first == MaxId(Table(s, id.kind))
            && (d.scans[id].queue != [] ==> d.scans[id].ceiling > 0)
  {
    PruneSomething(s.scans[id].adds, MaxId(Table(s, id.kind)));
  }

  lemma RefreshMoves(world: World, s: Sys, id: ScanId)
    requires id in s.scans && s.scans[id].started && !s.scans[id].refreshed
    ensures Enabled(world, s, Refresh(id, true))
    ensures var d := Apply(world, s, Refresh(id, true));
            Scanning(s, d, id) && d.scans[id] == s.scans[id].(refreshed := true)
  {
  }

  // ----- the row stays unsent -----

  lemma ScanningDoomed(s: Sys, d: Sys, id: ScanId, v: nat, t: Topic, x: Row)
    requires Doomed(s, v, t, x) && Scanning(s, d, id) && TableOk(Table(s, t.kind), t.kind)
    requires id.wave == v && !s.scans[id].started && d.scans[id].first == MaxId(Table(s, id.kind))
    ensures Doomed(d, v, t, x)
  {
    MaxIdBounds(Table(s, t.kind), x);
    hide DeliveredSince;
  }

  /** Framing other rows, or rows at or below the mark, does not send it. */
  lemma EmitDoomed(cfg: Config, w: State, mutateId: nat, msgs: seq<Row>, t: Topic, x: Row)
    requires t in w.epochs && w.epochs[t].start <= |w.out| && x !in DeliveredSince(w.out, w.epochs[t].start, t)
    requires x !in msgs || x.id <= Mark(w.highWater, t)
    ensures var d := Emit(cfg, w, mutateId, msgs);
            && d.epochs == w.epochs && |w.out| <= |d.out|
            && x !in DeliveredSince(d.out, d.epochs[t].start, t)
            && d.topicWave == w.topicWave && d.subscribed == w.subscribed && d.halfClosed == w.halfClosed
            && Mark(w.highWater, t) <= Mark(d.highWater, t)
            && forall r :: r in msgs && r.topic == t ==> r.id <= Mark(d.highWater, t)
  {
    EmitSlice(cfg, w, mutateId, msgs, t);
    RiseRows(Mark(w.highWater, t), Proj(msgs, t));
    RiseReaches(Mark(w.highWater, t), Proj(msgs, t));
    ProjMember(msgs, t, x);
    hide Emit, Rise, DeliveredSince;
    WriterSteps.EmitSame(cfg, w, mutateId, msgs);
    forall r | r in msgs && r.topic == t ensures r in Proj(msgs, t) { ProjMember(msgs, t, r); }
  }

  lemma {:induction false} RiseReaches(h: nat, s: seq<Row>)
    ensures forall r :: r in s ==> r.id <= LastId(Rise(h, s), h)
    decreases |s|
  {
    if s != [] {
      assert s == [s[0]] + s[1..];
      var h' := if h >= s[0].id then h else s[0].id;
      var rest := Rise(h', s[1..]);
      RiseReaches(h', s[1..]);
      RiseRows(h', s[1..]);
      assert LastId([s[0]] + rest, h) == LastId(rest, s[0].id);
    }
  }

  /** Without a gate in the way the queue can be drained. */
  lemma {:induction false} DrainQueue(world: World, s: Sys, v: nat, t: Topic, x: Row) returns (steps: seq<Step>)
    requires Inv(s) && Doomed(s, v, t, x) && s.w.catchingUp == {}
    ensures Possible(world, s, steps)
    ensures var d := After(world, s, steps);
            Inv(d) && Doomed(d, v, t, x) && d.queue == [] && d == s.(queue := [], w := d.w)
    decreases |s.queue|
  {
    hide Inv, Doomed;
    steps := [];
    if s.queue != [] {
      DrainOne(world, s, v, t, x);
      var s1 := Apply(world, s, WriterLive);
      StepKeeps(world, s, WriterLive);
      hide Apply;
      var rest := DrainQueue(world, s1, v, t, x);
      OneStep(world, s, WriterLive);
      Chain(world, s, [WriterLive], rest);
      steps := [WriterLive] + rest;
    }
  }

  lemma DrainOne(world: World, s: Sys, v: nat, t: Topic, x: Row)
    requires Doomed(s, v, t, x) && s.w.catchingUp == {} && s.queue != []
    ensures Enabled(world, s, WriterLive)
    ensures var d := Apply(world, s, WriterLive);
            && !d.ended && d == s.(queue := s.queue[1..], w := d.w) && d.w.catchingUp == {}
            && Doomed(d, v, t, x)
  {
    var r := s.queue[0];
    assert s.queue == [r] + s.queue[1..];
    EmitDoomed(world.cfg, s.w, 0, [r], t, x);
    WriterSteps.EmitSame(world.cfg, s.w, 0, [r]);
    hide Emit, DeliveredSince;
  }

  /** The wave's topic through another batch: still owned, still unsent. */
  lemma BatchDoomed(world: World, s: Sys, v: nat, t: Topic, x: Row)
    requires Inv(s) && Doomed(s, v, t, x) && s.queue == [] && s.lane != []
    requires !(Completing(s) && s.lane[0].wave == v)
    ensures Enabled(world, s, WriterBatch)
    ensures !Apply(world, s, WriterBatch).ended && Doomed(Apply(world, s, WriterBatch), v, t, x)
  {
    hide Inv, Doomed, Apply, Emit, Wanted, CompleteWave, WriterSteps.Marked, WriterSteps.Counted;
    var b, cfg := s.lane[0], world.cfg;
    DoomedOpen(s, v, t, x);
    if b.done { WriterSteps.MarkerIsEmpty(s); }
    WriterSteps.BatchCases(world, s);
    BatchOpen(world, s);
    LaneMoved(s, v, t, x);
    if b.wave in s.w.waves {
      var w := s.w.waves[b.wave];
      if !b.done {
        HistoryDoomed(cfg, s, w.mutateId, Wanted(s.w.topicWave, b.wave, b.rows), v, t, x);
      } else if w.scansLeft - 1 > 0 {
        CountedDoomed(WriterSteps.Marked(s), b.wave, v, t, x);
      } else {
        BookOf(s);
        OtherDoomed(cfg, WriterSteps.Marked(s), b.wave, w.(scansLeft := w.scansLeft - 1), v, t, x);
      }
    }
    var d := Apply(world, s, WriterBatch);
    assert d.(ended := s.ended) == d;
  }

  lemma DoomedOpen(s: Sys, v: nat, t: Topic, x: Row)
    requires Doomed(s, v, t, x)
    ensures !s.ended && !s.w.halfClosed && Owns(s.w, v, t) && t in s.w.epochs && s.w.epochs[t].start <= |s.w.out|
  {
  }

  lemma LaneMoved(s: Sys, v: nat, t: Topic, x: Row)
    requires Doomed(s, v, t, x) && s.queue == [] && s.lane != []
    ensures Doomed(s.(lane := s.lane[1..]), v, t, x) && Doomed(WriterSteps.Marked(s), v, t, x)
    ensures WriterSteps.Marked(s).w == s.w && WriterSteps.Marked(s).queue == []
  {
    hide DeliveredSince;
    MarkedMoves(s);
    StillDoomed(s, s.(lane := s.lane[1..]), v, t, x);
    StillDoomed(s, WriterSteps.Marked(s), v, t, x);
  }

  lemma HistoryDoomed(cfg: Config, s: Sys, mutateId: nat, msgs: seq<Row>, v: nat, t: Topic, x: Row)
    requires Doomed(s, v, t, x) && s.queue == [] && s.lane != []
    ensures Doomed(s.(lane := s.lane[1..], w := Emit(cfg, s.w, mutateId, msgs)), v, t, x)
  {
    EmitDoomed(cfg, s.w, mutateId, msgs, t, x);
    hide Emit, DeliveredSince;
    StillDoomed(s, s.(lane := s.lane[1..], w := Emit(cfg, s.w, mutateId, msgs)), v, t, x);
  }

  lemma CountedDoomed(s: Sys, u: nat, v: nat, t: Topic, x: Row)
    requires Doomed(s, v, t, x) && u in s.w.waves && s.queue == []
    ensures Doomed(s.(w := WriterSteps.Counted(s.w, u)), v, t, x)
  {
    hide DeliveredSince;
    StillDoomed(s, s.(w := WriterSteps.Counted(s.w, u)), v, t, x);
  }

  lemma OtherDoomed(cfg: Config, s: Sys, u: nat, wave: Wave, v: nat, t: Topic, x: Row)
    requires Book(s.w, {}, 0) && Doomed(s, v, t, x) && s.queue == []
    requires u != v && u in s.w.waves && wave.topics == s.w.waves[u].topics
    ensures Doomed(s.(w := CompleteWave(cfg, s.w, u, wave)), v, t, x)
  {
    hide CompleteWave, DeliveredSince, Book, SliceOf;
    OtherCompletes(cfg, s.w, u, wave, t);
    OpenSlice(CompleteWave(cfg, s.w, u, wave), s.w, v, t);
    StillDoomed(s, s.(w := CompleteWave(cfg, s.w, u, wave)), v, t, x);
  }

  lemma BookOf(s: Sys)
    requires Inv(s)
    ensures Book(s.w, {}, 0)
  {
  }

  /** Only the lane, the scans' `taken` marks and the writer have moved. */
  ghost predicate Taking(s: Sys, d: Sys) {
    && d == s.(lane := d.lane, scans := d.scans, w := d.w)
    && forall id :: id in s.scans ==>
         id in d.scans && d.scans[id].started == s.scans[id].started && d.scans[id].first == s.scans[id].first
  }

  lemma StillDoomed(s: Sys, d: Sys, v: nat, t: Topic, x: Row)
    requires Doomed(s, v, t, x) && Taking(s, d)
    requires Owns(d.w, v, t) && t in d.w.epochs
    requires d.w.epochs[t].floor == s.w.epochs[t].floor && d.w.epochs[t].start == s.w.epochs[t].start
    requires d.w.subscribed <= s.w.subscribed && d.w.halfClosed == s.w.halfClosed && |s.w.out| <= |d.w.out|
    requires x !in DeliveredSince(d.w.out, d.w.epochs[t].start, t)
    requires Mark(s.w.highWater, t) <= Mark(d.w.highWater, t)
    ensures Doomed(d, v, t, x)
  {
    hide DeliveredSince;
  }

  lemma OwnedHere(s: Sys, v: nat, t: Topic)
    requires Inv(s) && Owns(s.w, v, t)
    ensures v in s.w.waves && s.w.waves[v].scansLeft == Left(s.scans, v)
  {
    hide EnvOk, QueueOk, ScansOk, LaneOk, StaleOk, TopicsOk, Left;
  }

  lemma MarkedMoves(s: Sys)
    requires s.lane != []
    ensures Taking(s, s.(lane := s.lane[1..])) && Taking(s, WriterSteps.Marked(s))
  {
  }

  /** Without a half-close no batch ends the stream. */
  lemma BatchOpen(world: World, s: Sys)
    requires Inv(s) && Enabled(world, s, WriterBatch) && !s.w.halfClosed
    ensures !Apply(world, s, WriterBatch).ended
  {
    hide Inv, TakeBatch;
    BookOf(s);
    BatchGoesOn(world.cfg, s.w, s.lane[0]);
  }

  lemma BatchGoesOn(cfg: Config, w: State, b: Batch)
    requires Book(w, {}, 0) && !w.halfClosed
    ensures TakeBatch(cfg, w, b).1 == Continue
  {
    BatchWaves(cfg, w, b);
    hide Book, CompleteWave, Emit, Wanted;
  }

  /** Equal slices of a topic: same wave, same epoch, same mark. */
  lemma OpenSlice(d: State, w: State, v: nat, t: Topic)
    requires SliceOf(d, t) == SliceOf(w, t) && Owns(w, v, t) && t in w.epochs
    ensures Owns(d, v, t) && t in d.epochs && Mark(d.highWater, t) == Mark(w.highWater, t)
    ensures d.epochs[t].floor == w.epochs[t].floor && d.epochs[t].start == w.epochs[t].start
  {
  }

  lemma OtherCompletes(cfg: Config, w: State, v: nat, wave: Wave, t: Topic)
    requires Book(w, {}, 0) && v in w.waves && wave.topics == w.waves[v].topics
    requires !Owns(w, v, t) && t in w.epochs && w.epochs[t].start <= |w.out|
    ensures var d := CompleteWave(cfg, w, v, wave);
            && SliceOf(d, t) == SliceOf(w, t) && d.subscribed == w.subscribed && d.halfClosed == w.halfClosed
            && |w.out| <= |d.out|
            && DeliveredSince(d.out, w.epochs[t].start, t) == DeliveredSince(w.out, w.epochs[t].start, t)
  {
    WriterSteps.BookParts(w);
    WriterSteps.CompleteFields(cfg, w, v, wave);
    CompleteTopicAny(cfg, w, v, wave, t, w.epochs[t].start);
    hide CompleteWave, DeliveredSince;
    assert DeliveredSince(w.out, w.epochs[t].start, t) + [] == DeliveredSince(w.out, w.epochs[t].start, t);
  }

  // ----- opening the way to the queue -----

  function WireOf(t: Topic): seq<byte> { [if t.kind == Group then 0 else 1] + t.ident }

  /** Every topic in a wave has an identifier, so a request can name it again. */
  ghost predicate Named(w: State) {
    forall t :: t in w.topicWave ==> t.ident != []
  }

  lemma MutateNamed(world: World, s: Sys, m: MutateReq)
    requires Sound(s.w, {}, 0, 0) && Named(s.w) && Mutate(world.cfg, s.w, m).verdict == Continue
    ensures Named(Mutate(world.cfg, s.w, m).s)
  {
    hide Sound, Mutate, M.NewWave;
    M.MutateMeans(world.cfg, s.w, m);
    var cursors := ParseAdds(Parsed([], map[]), m.adds).value.cursors;
    forall t | t in Mutate(world.cfg, s.w, m).s.topicWave ensures t.ident != [] {
      if t in cursors { assert M.Requests(m.adds, t, cursors[t]); }
    }
  }

  lemma {:induction false} RunNamed(world: World, run: seq<Sys>, steps: seq<Step>, i: nat)
    requires Run(world, run, steps) && i <= |steps| && !run[i].ended
    ensures Named(run[i].w)
  {
    hide Named, Apply, Enabled, Inv, Sound, Init;
    if i == 0 {
      InitNamed();
    } else {
      var s, step := run[i - 1], steps[i - 1];
      assert Enabled(world, s, step) && run[i] == Apply(world, s, step);
      if s.ended { EndedStays(world, s, step); }
      RunNamed(world, run, steps, i - 1);
      RunInv(world, run, steps, i - 1);
      RunWriterSound(world, run, steps, i - 1);
      StepNamed(world, s, step);
    }
  }

  lemma InitNamed()
    ensures Named(Init)
  {
  }

  lemma StepNamed(world: World, s: Sys, step: Step)
    requires Inv(s) && Sound(s.w, {}, 0, 0) && Named(s.w) && Enabled(world, s, step) && !Apply(world, s, step).ended
    ensures Named(Apply(world, s, step).w)
  {
    hide Inv, Sound, Apply;
    if step.WriterMutate? {
      MutateEnds(world, s, step.m);
      MutateSteps.MutateIs(world, s, step.m);
      MutateNamed(world, s, step.m);
    } else {
      StepWaves(world, s, step);
    }
  }

  /** Wire forms naming exactly these topics. */
  lemma {:induction false} Wires(topics: set<Topic>) returns (removes: seq<seq<byte>>)
    requires forall t :: t in topics ==> t.ident != []
    ensures M.Parses(removes) && M.RemoveSet(removes) == topics
    decreases topics
  {
    hide SplitTopic, M.Parses, M.RemoveSet;
    removes := [];
    if topics == {} {
      M.NoneParses();
    } else {
      var t :| t in topics;
      var rest := Wires(topics - {t});
      removes := [WireOf(t)] + rest;
      assert removes[1..] == rest;
      M.ParsesTail(removes);
      assert M.Names(WireOf(t), t);
      M.SplitMeans(WireOf(t), t);
    }
  }

  lemma {:induction false} DropAllOther(w: State, removes: seq<seq<byte>>, t: Topic)
    requires M.Parses(removes) && t !in M.RemoveSet(removes)
    ensures var d := DropAll(w, removes).0;
            && DropAll(w, removes).1 == Continue
            && SliceOf(d, t) == SliceOf(w, t) && |w.out| <= |d.out|
            && forall start :: 0 <= start <= |w.out| ==>
                 DeliveredSince(d.out, start, t) == DeliveredSince(w.out, start, t)
    decreases |removes|
  {
    hide DropTopic, SliceOf, DeliveredSince, SplitTopic, M.Parses, M.RemoveSet;
    if removes != [] {
      M.ParsesTail(removes);
      var x := SplitTopic(removes[0]).value;
      DropOther(w, x, t);
      DropAllOther(DropTopic(w, x), removes[1..], t);
    }
  }

  /** A request that only removes topics is answered at once. */
  lemma RemoveOnly(cfg: Config, w: State, removes: seq<seq<byte>>)
    requires cfg.maxMutateAdds >= 0 && DropAll(w, removes).1 == Continue
    ensures var d := DropAll(w, removes).0;
            Mutate(cfg, w, MutateReq(0, [], removes, false)) ==
            Mutated(d.(out := d.out + [CatchupComplete(0)]), Continue, 0, [], [])
  {
    hide DropAll;
    var d := DropAll(w, removes).0;
    assert d.(subscribedTopics := d.subscribedTopics + 0) == d;
  }

  lemma GatedNamed(s: Sys)
    requires Inv(s) && Named(s.w)
    ensures forall t :: t in s.w.catchingUp ==> t.ident != []
  {
    BookOf(s);
    hide Inv, Waves, Ids;
  }

  lemma NotGated(s: Sys, v: nat, t: Topic, x: Row)
    requires Inv(s) && Doomed(s, v, t, x)
    ensures t !in s.w.catchingUp
  {
    BookOf(s);
    hide Inv, Waves, Ids;
  }

  lemma RemoveLeaves(cfg: Config, w: State, m: MutateReq)
    requires Sound(w, {}, 0, 0) && m.adds == [] && Mutate(cfg, w, m).verdict == Continue
    ensures var d := Mutate(cfg, w, m).s;
            && d.catchingUp == w.catchingUp - M.RemoveSet(m.removes) && d.halfClosed == w.halfClosed
            && d.subscribed <= w.subscribed
  {
    hide Sound, Mutate, M.Effect, M.RemoveSet, M.Lowest, M.Added;
    M.MutateMeans(cfg, w, m);
    NoneAdded(w, M.RemoveSet(m.removes));
    EffectOfRemoves(w, Mutate(cfg, w, m).s, M.RemoveSet(m.removes), m.mutateId, m.historyOnly);
  }

  lemma NoneAdded(w: State, removed: set<Topic>)
    ensures M.Added(w, removed, map[]) == map[]
  {
  }

  lemma EffectOfRemoves(w: State, d: State, removed: set<Topic>, mutateId: nat, historyOnly: bool)
    requires M.Effect(w, d, removed, map[], mutateId, historyOnly)
    ensures d.catchingUp == w.catchingUp - removed && d.halfClosed == w.halfClosed && d.subscribed <= w.subscribed
  {
    var none: map<Topic, nat> := map[];
    assert none.Keys == {};
  }

  lemma RemovedDoomed(s: Sys, d: Sys, w: State, v: nat, t: Topic, x: Row)
    requires Doomed(s, v, t, x) && d == s.(w := d.w, stale := d.stale) && d.w == w.(out := w.out + [CatchupComplete(0)])
    requires SliceOf(w, t) == SliceOf(s.w, t) && |s.w.out| <= |w.out|
    requires forall start :: 0 <= start <= |s.w.out| ==>
               DeliveredSince(w.out, start, t) == DeliveredSince(s.w.out, start, t)
    requires d.w.subscribed <= s.w.subscribed && d.w.halfClosed == s.w.halfClosed
    ensures Doomed(d, v, t, x)
  {
    OpenSlice(w, s.w, v, t);
    DeliveredSilent(w.out, CatchupComplete(0), s.w.epochs[t].start, t);
    hide DeliveredSince, SliceOf;
    StillDoomed(s, s.(w := d.w), v, t, x);
  }

  /** Removing the gated topics opens the way to the queue and touches nothing of this topic. */
  lemma RemoveGated(world: World, s: Sys, v: nat, t: Topic, x: Row) returns (m: MutateReq)
    requires Inv(s) && Sound(s.w, {}, 0, 0) && Named(s.w) && Doomed(s, v, t, x) && world.cfg.maxMutateAdds >= 0
    ensures Enabled(world, s, WriterMutate(m))
    ensures var d := Apply(world, s, WriterMutate(m));
            && Inv(d) && Doomed(d, v, t, x) && d.w.catchingUp == {}
            && d == s.(w := d.w, stale := d.stale)
  {
    hide Inv, Sound, Named, Doomed, SplitTopic, WireOf, DropAll, Mutate;
    GatedNamed(s);
    var removes := Wires(s.w.catchingUp);
    m := MutateReq(0, [], removes, false);
    DoomedOpen(s, v, t, x);
    NotGated(s, v, t, x);
    DropAllOther(s.w, removes, t);
    RemoveOnly(world.cfg, s.w, removes);
    MutateSteps.MutateIs(world, s, m);
    M.MutateMeans(world.cfg, s.w, m);
    RemoveLeaves(world.cfg, s.w, m);
    StepKeeps(world, s, WriterMutate(m));
    RemovedDoomed(s, Apply(world, s, WriterMutate(m)), DropAll(s.w, removes).0, v, t, x);
  }

  // ----- driving the wave to its completion -----

  lemma {:induction false} PathKeeps(world: World, s: Sys, more: seq<Step>)
    requires Inv(s) && Possible(world, s, more) && !After(world, s, more).ended
    ensures Inv(After(world, s, more))
    decreases |more|
  {
    hide Inv, Apply, Enabled;
    if more != [] {
      var s1 := Apply(world, s, more[0]);
      if s1.ended { EndedForever(world, s1, more[1..]); }
      StepKeeps(world, s, more[0]);
      PathKeeps(world, s1, more[1..]);
    }
  }

  /** Every scan of the wave that still counts has left its done marker in the lane. */
  ghost predicate MarkersOut(lane: seq<Batch>, scans: map<ScanId, Scan>, v: nat) {
    forall k: Kind :: ScanId(v, k) in scans && !scans[ScanId(v, k)].taken ==> Batch(v, k, [], true) in lane
  }

  function ScansTaken(scans: map<ScanId, Scan>, b: Batch): map<ScanId, Scan> {
    var id := ScanId(b.wave, b.kind);
    if b.done && id in scans then scans[id := scans[id].(taken := true)] else scans
  }

  /** Consuming the lane's head consumes a marker of the wave, or none. */
  lemma PopLane(lane: seq<Batch>, scans: map<ScanId, Scan>, v: nat)
    requires LaneOk(lane, scans) && MarkersOut(lane, scans, v) && Left(scans, v) >= 1
    ensures lane != [] && MarkersOut(lane[1..], ScansTaken(scans, lane[0]), v)
    ensures Left(ScansTaken(scans, lane[0]), v) >= Left(scans, v) - if lane[0].done && lane[0].wave == v then 1 else 0
  {
    var k: Kind :| ScanId(v, k) in scans && !scans[ScanId(v, k)].taken;
    assert Batch(v, k, [], true) in lane;
    WriterSteps.LaneTail(lane, scans);
    assert lane == [lane[0]] + lane[1..];
    hide LaneOk;
  }

  lemma PopMarkers(world: World, s: Sys, v: nat, t: Topic)
    requires Inv(s) && !s.ended && MarkersOut(s.lane, s.scans, v) && Left(s.scans, v) >= 1 && Owns(s.w, v, t)
    requires !(Completing(s) && s.lane[0].wave == v)
    ensures s.lane != [] && Enabled(world, s, WriterBatch)
    ensures var d := Apply(world, s, WriterBatch);
            MarkersOut(d.lane, d.scans, v) && Left(d.scans, v) >= 1 && d.queue == s.queue && |d.lane| < |s.lane|
  {
    hide Inv, Apply, MarkersOut, Left, ScansTaken;
    LaneOf(s);
    PopLane(s.lane, s.scans, v);
    NotLast(s, v, t);
    BatchPops(world, s);
  }

  lemma NotLast(s: Sys, v: nat, t: Topic)
    requires Inv(s) && s.lane != [] && Owns(s.w, v, t) && !(Completing(s) && s.lane[0].wave == v)
    ensures s.lane[0].done && s.lane[0].wave == v ==> Left(s.scans, v) >= 2
  {
    OwnedHere(s, v, t);
    hide Inv, Left;
  }

  lemma BatchPops(world: World, s: Sys)
    requires Enabled(world, s, WriterBatch)
    ensures var d := Apply(world, s, WriterBatch);
            d.lane == s.lane[1..] && d.scans == ScansTaken(s.scans, s.lane[0]) && d.queue == s.queue
  {
    hide TakeBatch;
  }

  lemma LaneOf(s: Sys)
    requires Inv(s)
    ensures LaneOk(s.lane, s.scans)
  {
  }

  lemma {:induction false} ToCompletion(world: World, s: Sys, v: nat, t: Topic, x: Row) returns (steps: seq<Step>)
    requires Inv(s) && Doomed(s, v, t, x) && s.queue == [] && MarkersOut(s.lane, s.scans, v) && Left(s.scans, v) >= 1
    ensures Possible(world, s, steps)
    ensures var d := After(world, s, steps); Inv(d) && Doomed(d, v, t, x) && Completes(d, v, t)
    decreases |s.lane|
  {
    hide Inv, Doomed, MarkersOut, Left;
    steps := [];
    DoomedOpen(s, v, t, x);
    if !(Completing(s) && s.lane[0].wave == v) {
      PopMarkers(world, s, v, t);
      BatchDoomed(world, s, v, t, x);
      StepKeeps(world, s, WriterBatch);
      OneStep(world, s, WriterBatch);
      hide Apply, Enabled;
      var s1 := Apply(world, s, WriterBatch);
      var rest := ToCompletion(world, s1, v, t, x);
      Chain(world, s, [WriterBatch], rest);
      steps := [WriterBatch] + rest;
    }
  }

  /** Running one of the wave's scans leaves the row unsent. */
  lemma RunOne(world: World, s: Sys, id: ScanId, v: nat, t: Topic, x: Row) returns (steps: seq<Step>)
    requires Inv(s) && Doomed(s, v, t, x) && id in s.scans && id.wave == v
    requires !s.scans[id].started && !s.scans[id].done
    ensures Possible(world, s, steps)
    ensures var d := After(world, s, steps);
            Inv(d) && Doomed(d, v, t, x) && Scanning(s, d, id) && Batch(v, id.kind, [], true) in d.lane
  {
    hide Inv, Doomed;
    TablesFine(s, t.kind);
    steps := RunScan(world, s, id);
    ScanningDoomed(s, After(world, s, steps), id, v, t, x);
    DoomedOpen(After(world, s, steps), v, t, x);
    PathKeeps(world, s, steps);
  }

  lemma TablesFine(s: Sys, k: Kind)
    requires Inv(s)
    ensures EnvOk(s) && TableOk(Table(s, k), k)
  {
  }

  /** The wave's scans are as the Mutate spawned them. */
  ghost predicate Spawning(s: Sys, v: nat) {
    forall id :: id in s.scans && id.wave == v ==> !s.scans[id].started && !s.scans[id].done && !s.scans[id].taken
  }

  lemma RunScans(world: World, s: Sys, v: nat, t: Topic, x: Row) returns (steps: seq<Step>)
    requires Inv(s) && Doomed(s, v, t, x) && s.queue == [] && Spawning(s, v) && ScanId(v, t.kind) in s.scans
    ensures Possible(world, s, steps)
    ensures var d := After(world, s, steps);
            Inv(d) && Doomed(d, v, t, x) && d.queue == [] && MarkersOut(d.lane, d.scans, v) && Left(d.scans, v) >= 1
  {
    hide Inv, Doomed;
    var own, other := ScanId(v, t.kind), ScanId(v, if t.kind == Group then Welcome else Group);
    steps := RunOne(world, s, own, v, t, x);
    var s1 := After(world, s, steps);
    var d := s1;
    if other in s.scans {
      var more := RunOne(world, s1, other, v, t, x);
      d := After(world, s1, more);
      Chain(world, s, steps, more);
      steps := steps + more;
      assert Batch(v, own.kind, [], true) in d.lane;
    }
    forall k: Kind | ScanId(v, k) in d.scans ensures Batch(v, k, [], true) in d.lane {
      assert k == own.kind || k == other.kind;
    }
  }

  /** A doomed row makes some continuation announce an incomplete replay as complete: remove the
      topics that are waiting at their gates, drain the queue, then let the replay run. */
  lemma DoomedBreaks(world: World, s: Sys, v: nat, t: Topic, x: Row, early: seq<Row>) returns (more: seq<Step>)
    requires Inv(s) && Sound(s.w, {}, 0, 0) && Named(s.w) && Doomed(s, v, t, x) && Spawning(s, v)
    requires world.cfg.maxMutateAdds >= 0
    ensures Possible(world, s, more)
    ensures Completes(After(world, s, more), v, t) && !Complete(After(world, s, more), t, early)
  {
    hide Inv, Sound, Named, Doomed, Complete, Completes, Left, MarkersOut;
    var m := RemoveGated(world, s, v, t, x);
    OneStep(world, s, WriterMutate(m));
    hide Apply;
    var s1 := Apply(world, s, WriterMutate(m));
    var drain := DrainQueue(world, s1, v, t, x);
    var s2 := After(world, s1, drain);
    DoomedScan(s2, v, t, x);
    var scans := RunScans(world, s2, v, t, x);
    var s3 := After(world, s2, scans);
    var last := ToCompletion(world, s3, v, t, x);
    DoomedIncomplete(After(world, s3, last), v, t, x, early);
    Chain(world, s2, scans, last);
    Chain(world, s1, drain, scans + last);
    Chain(world, s, [WriterMutate(m)], drain + (scans + last));
    more := [WriterMutate(m)] + (drain + (scans + last));
  }

  lemma DoomedScan(s: Sys, v: nat, t: Topic, x: Row)
    requires Doomed(s, v, t, x)
    ensures ScanId(v, t.kind) in s.scans
  {
  }

  // ----- the registration -----

  lemma Admits(cfg: Config, w: State, m: MutateReq)
    requires Mutate(cfg, w, m).verdict == Continue
    ensures |m.adds| <= cfg.maxMutateAdds
  {
    hide DropAll, AddAll, ParseAdds, StartWave;
  }

  lemma ScansFresh(s: Sys, r: Mutated)
    requires ScansOk(s)
    ensures forall id :: id in Spawned(s.scans, r) && id.wave == s.w.nextWave ==>
              var sc := Spawned(s.scans, r)[id]; !sc.started && !sc.done && !sc.taken
  {
  }

  /** The topics of a Mutate's new wave are those its add loop put in limbo. */
  lemma InLimbo(s: Sys, a: Adding, limbo: set<Topic>, mutateId: nat, t: Topic)
    requires MutateSteps.AddingMid(s, a, limbo, mutateId)
    ensures t in a.s.topicWave ==> a.s.topicWave[t] < s.w.nextWave
    ensures t in Collected(a.groupAdds, a.welcomeAdds) ==> MutateSteps.LimboTopic(a.s, t)
    ensures a.s.nextWave == s.w.nextWave
  {
    MutateSteps.MidParts(s, a.s, limbo, a.newlyLive, mutateId);
    hide MutateSteps.Mid, MutateSteps.LimboTopic, MutateSteps.ListOk;
    assert MutateSteps.Lists(a, limbo);
  }

  lemma StartedFresh(w: State, newlyLive: nat, mutateId: nat, groupAdds: seq<Add>, welcomeAdds: seq<Add>, t: Topic)
    requires MutateSteps.LimboTopic(w, t) && t in Collected(groupAdds, welcomeAdds)
    ensures var d := StartWave(MutateShape.Counted(w, newlyLive), mutateId, groupAdds, welcomeAdds);
            && t in d.epochs && d.epochs[t].start <= |d.out| && DeliveredSince(d.out, d.epochs[t].start, t) == []
            && Mark(d.highWater, t) == d.epochs[t].floor
  {
    var w1 := MutateShape.Counted(w, newlyLive);
    StartSlice(w1, mutateId, groupAdds, welcomeAdds, t);
    assert SliceOf(w1, t) == SliceOf(w, t);
    hide StartWave, DeliveredSince, Collected;
  }

  /** A topic a Mutate has just registered: nothing sent, its mark at its floor, its scans yet to
      begin. */
  lemma Registration(world: World, s: Sys, m: MutateReq, t: Topic)
    requires Inv(s) && Enabled(world, s, WriterMutate(m)) && !Apply(world, s, WriterMutate(m)).ended
    requires var d := Apply(world, s, WriterMutate(m)); t in d.w.topicWave && d.w.topicWave[t] == s.w.nextWave
    ensures var d := Apply(world, s, WriterMutate(m));
            && t in d.w.epochs && d.w.epochs[t].start <= |d.w.out|
            && DeliveredSince(d.w.out, d.w.epochs[t].start, t) == []
            && Mark(d.w.highWater, t) == d.w.epochs[t].floor
            && Spawning(d, s.w.nextWave) && world.cfg.maxMutateAdds >= 0
  {
    hide Inv, Apply, Mutate, MutateSteps.AddingMid, StartWave, DeliveredSince, Collected, MutateSteps.LimboTopic;
    MutateEnds(world, s, m);
    var a, limbo := MutateSteps.MutateRuns(world, s, m);
    MutateSteps.MutateIs(world, s, m);
    Admits(world.cfg, s.w, m);
    ScansOf(s);
    ScansFresh(s, Mutate(world.cfg, s.w, m));
    InLimbo(s, a, limbo, m.mutateId, t);
    var w := MutateShape.Counted(a.s, a.newlyLive);
    MutateSteps.StartFields(w, m.mutateId, a.groupAdds, a.welcomeAdds);
    if |a.groupAdds| + |a.welcomeAdds| > 0 {
      StartedFresh(a.s, a.newlyLive, m.mutateId, a.groupAdds, a.welcomeAdds, t);
    }
  }

  lemma ScansOf(s: Sys)
    requires Inv(s)
    ensures ScansOk(s)
  {
  }

  // ----- exactly when -----

  /** Queued envelopes that skip a row of the topic doom that row. */
  lemma SkipDooms(s: Sys, v: nat, t: Topic) returns (x: Row)
    requires Inv(s) && !s.ended && !s.w.halfClosed && Owns(s.w, v, t) && t !in s.w.subscribed && Spawning(s, v)
    requires t in s.w.epochs && s.w.epochs[t].start <= |s.w.out|
    requires DeliveredSince(s.w.out, s.w.epochs[t].start, t) == []
    requires !Harmless(Table(s, t.kind), t, s.w.epochs[t].floor, Proj(s.queue, t))
    ensures Doomed(s, v, t, x)
  {
    hide Inv, DeliveredSince, Harmless, Spawning;
    x := SkippedRow(s, t, s.w.epochs[t].floor);
    ScanOfTopic(s, v, t);
  }

  lemma SkippedRow(s: Sys, t: Topic, floor: nat) returns (x: Row)
    requires Inv(s) && !Harmless(Table(s, t.kind), t, floor, Proj(s.queue, t))
    ensures x in Table(s, t.kind) && x.topic == t && x.known && floor < x.id && x !in s.queue
    ensures exists r :: r in s.queue && r.topic == t && x.id < r.id
  {
    hide Inv, Harmless, EnvOk, QueueOk, Proj;
    var tab, q := Table(s, t.kind), Proj(s.queue, t);
    QueueOf(s);
    TablesFine(s, t.kind);
    MutateSteps.HarmlessQueue(s, t, floor);
    x :| x in tab && x.topic == t && x.known && floor < x.id <= LastId(q, 0) && x !in q;
    var r := q[|q| - 1];
    assert r in q && r in tab;
    ProjMember(s.queue, t, r);
    ProjMember(s.queue, t, x);
    if x.id == r.id { V.SameId(tab, x, r); }
  }

  lemma QueueOf(s: Sys)
    requires Inv(s)
    ensures EnvOk(s) && QueueOk(s)
  {
  }

  lemma ScanOfTopic(s: Sys, v: nat, t: Topic)
    requires Inv(s) && Owns(s.w, v, t) && Spawning(s, v)
    ensures ScanId(v, t.kind) in s.scans && !s.scans[ScanId(v, t.kind)].started
  {
    assert WaveScans(s.w, s.scans);
    hide EnvOk, QueueOk, Book, ScansOk, LaneOk, StaleOk, TopicsOk;
  }

  /** A history_only registration keeps its promise in every continuation, whatever is published,
      polled, scanned, requested and consumed in whatever order, exactly when the envelopes still
      queued for the topic at that moment, less those at or below the new floor, are the first of
      the rows the topic has above it. Otherwise some continuation ends with CatchupComplete
      announced and a row of the replay never sent. */
  lemma HistoryReplayExactly(world: World, run: seq<Sys>, steps: seq<Step>, i: nat, t: Topic)
    requires Run(world, run, steps) && i < |steps| && steps[i].WriterMutate? && !run[i + 1].ended
    requires t in run[i + 1].w.topicWave && run[i + 1].w.topicWave[t] == run[i].w.nextWave
    requires t !in run[i + 1].w.subscribed
    ensures t in run[i + 1].w.epochs
    ensures var s, v := run[i + 1], run[i].w.nextWave;
            (forall more :: Possible(world, s, more) && Completes(After(world, s, more), v, t) ==>
               Complete(After(world, s, more), t, Table(run[i], t.kind)))
            <==> Harmless(Table(run[i], t.kind), t, s.w.epochs[t].floor, Proj(run[i].queue, t))
  {
    hide Inv, Sound, Named, Apply, Enabled, Complete, Completes, Harmless, Spawning, DeliveredSince;
    var s0, s, v, m := run[i], run[i + 1], run[i].w.nextWave, steps[i].m;
    assert Enabled(world, s0, steps[i]) && s == Apply(world, s0, steps[i]);
    if s0.ended { EndedStays(world, s0, steps[i]); }
    RunInv(world, run, steps, i);
    RunInv(world, run, steps, i + 1);
    RunWriterSound(world, run, steps, i);
    RunWriterSound(world, run, steps, i + 1);
    RunNamed(world, run, steps, i + 1);
    hide Run;
    Registration(world, s0, m, t);
    Begun(world, s0, m, t);
    if Harmless(Table(s0, t.kind), t, s.w.epochs[t].floor, Proj(s0.queue, t)) {
      SpawnReaches(s, v, t, MaxId(Table(s0, t.kind)));
      forall more | Possible(world, s, more) && Completes(After(world, s, more), v, t)
        ensures Complete(After(world, s, more), t, Table(s0, t.kind))
      {
        HarmlessCompletes(world, s, more, v, t);
      }
    } else {
      var x := SkipDooms(s, v, t);
      var more := DoomedBreaks(world, s, v, t, x, Table(s0, t.kind));
      assert Possible(world, s, more);
    }
  }

  lemma SpawnReaches(s: Sys, v: nat, t: Topic, upTo: nat)
    requires Spawning(s, v)
    ensures ScanReaches(s, ScanId(v, t.kind), upTo)
  {
  }

  lemma HarmlessCompletes(world: World, s: Sys, more: seq<Step>, v: nat, t: Topic)
    requires Tracked(s, v, t) && Possible(world, s, more) && Completes(After(world, s, more), v, t)
    requires ScanReaches(s, ScanId(v, t.kind), MaxId(Table(s, t.kind)))
    ensures Complete(After(world, s, more), t, Table(s, t.kind))
  {
    hide Complete, Completes, Inv, Sound, ScanReaches;
    CompletesRuns(After(world, s, more), v, t);
    TablesRead(s, t.kind);
    PathReaches(world, s, more, ScanId(v, t.kind), MaxId(Table(s, t.kind)));
    PathTracks(world, s, more, v, t);
    TrackedCompletes(After(world, s, more), v, t, Table(s, t.kind));
  }

  lemma CompletesRuns(s: Sys, v: nat, t: Topic)
    requires Completes(s, v, t)
    ensures !s.ended
  {
  }

  /** What else the registering Mutate leaves: the queue and the tables as they were, the wave
      behind the next one, and the topic out of `stale` exactly when its queue is harmless. */
  lemma Begun(world: World, s: Sys, m: MutateReq, t: Topic)
    requires Inv(s) && Sound(s.w, {}, 0, 0) && Enabled(world, s, WriterMutate(m))
    requires !Apply(world, s, WriterMutate(m)).ended
    requires var d := Apply(world, s, WriterMutate(m));
             t in d.w.topicWave && d.w.topicWave[t] == s.w.nextWave && t !in d.w.subscribed && t in d.w.epochs
    ensures var d := Apply(world, s, WriterMutate(m));
            && Table(d, t.kind) == Table(s, t.kind) && d.queue == s.queue
            && !d.w.halfClosed && s.w.nextWave < d.w.nextWave
            && (t in d.stale <==> !Harmless(Table(s, t.kind), t, d.w.epochs[t].floor, Proj(s.queue, t)))
  {
    hide Inv, Sound, Mutate, Harmless, M.Effect, M.Added, M.NewWave, Spawned;
    MutateEnds(world, s, m);
    MutateSteps.MutateIs(world, s, m);
    NextMoves(world.cfg, s.w, m, t);
  }

  lemma NextMoves(cfg: Config, w: State, m: MutateReq, t: Topic)
    requires Sound(w, {}, 0, 0) && Mutate(cfg, w, m).verdict == Continue
    requires var d := Mutate(cfg, w, m).s; t in d.topicWave && d.topicWave[t] == w.nextWave
    ensures w.nextWave < Mutate(cfg, w, m).s.nextWave && Mutate(cfg, w, m).s.halfClosed == w.halfClosed
  {
    M.MutateMeans(cfg, w, m);
    hide Mutate, M.NewWave, M.Added;
    M.SoundWavesOf(w);
  }

  // ----- a topic read for the first time -----

  /** The request would make the topic live. */
  ghost predicate GoesLive(m: MutateReq, t: Topic) {
    !m.historyOnly && exists c :: M.Requests(m.adds, t, c)
  }

  /** None of the client's first `i` steps asked for the topic's live messages. */
  ghost predicate NeverLive(steps: seq<Step>, i: nat, t: Topic)
    requires i <= |steps|
  {
    forall j :: 0 <= j < i && steps[j].WriterMutate? ==> !GoesLive(steps[j].m, t)
  }

  /** The topic is not live, and nothing of it is queued. */
  ghost predicate Absent(s: Sys, t: Topic) {
    t !in s.w.subscribed && forall r :: r in s.queue ==> r.topic != t
  }

  lemma StepAbsent(world: World, s: Sys, step: Step, t: Topic)
    requires Inv(s) && Sound(s.w, {}, 0, 0) && Absent(s, t) && Enabled(world, s, step)
    requires !Apply(world, s, step).ended && (step.WriterMutate? ==> !GoesLive(step.m, t))
    ensures Absent(Apply(world, s, step), t)
  {
    hide Inv, Sound, Apply, Enabled, GoesLive;
    BookOf(s);
    LiveIsSubscribed(s.w);
    StepQueue(world, s, step);
    if step.WriterMutate? {
      MutateEnds(world, s, step.m);
      MutateSteps.MutateIs(world, s, step.m);
      MutateAbsent(world.cfg, s.w, step.m, t);
    } else {
      StepSubscribed(world, s, step);
    }
  }

  /** What comes to be queued is of a topic the subscription wants. */
  lemma StepQueue(world: World, s: Sys, step: Step)
    requires Enabled(world, s, step)
    ensures forall r :: r in Apply(world, s, step).queue ==> r in s.queue || r.topic in s.w.live
  {
    hide Mutate, TakeBatch, TakeLive, RunTurn, Prune, StaleAfter, DispatchRow;
    match step
    case Dispatch(k) => DispatchCases(world, s, NextRow(Table(s, k), Seen(s, k)).value);
    case _ =>
  }

  lemma StepSubscribed(world: World, s: Sys, step: Step)
    requires Inv(s) && Enabled(world, s, step) && !step.WriterMutate?
    ensures Apply(world, s, step).w.subscribed == s.w.subscribed
  {
    BookOf(s);
    hide Inv, Book, TakeBatch, TakeLive, RunTurn, Prune, DispatchRow;
    match step
    case Dispatch(k) => DispatchCases(world, s, NextRow(Table(s, k), Seen(s, k)).value);
    case WriterBatch => BatchWaves(world.cfg, s.w, s.lane[0]);
    case WriterLive => WriterSteps.LiveSame(world.cfg, s.w, s.queue[0]);
    case _ =>
  }

  lemma LiveIsSubscribed(w: State)
    requires Book(w, {}, 0)
    ensures w.live == w.subscribed
  {
  }

  lemma MutateAbsent(cfg: Config, w: State, m: MutateReq, t: Topic)
    requires Sound(w, {}, 0, 0) && Mutate(cfg, w, m).verdict == Continue && t !in w.subscribed && !GoesLive(m, t)
    ensures t !in Mutate(cfg, w, m).s.subscribed
  {
    hide Sound, Mutate, M.NewWave, M.Requests, M.Takes;
    M.MutateMeans(cfg, w, m);
    var cursors := ParseAdds(Parsed([], map[]), m.adds).value.cursors;
    if t in cursors { assert M.Requests(m.adds, t, cursors[t]); }
  }

  lemma {:induction false} RunAbsent(world: World, run: seq<Sys>, steps: seq<Step>, i: nat, t: Topic)
    requires Run(world, run, steps) && i <= |steps| && !run[i].ended && NeverLive(steps, i, t)
    ensures Absent(run[i], t)
  {
    hide Inv, Sound, Apply, Enabled, GoesLive;
    if i > 0 {
      hide Absent;
      var s, step := run[i - 1], steps[i - 1];
      assert Enabled(world, s, step) && run[i] == Apply(world, s, step);
      if s.ended { EndedStays(world, s, step); }
      RunAbsent(world, run, steps, i - 1, t);
      RunInv(world, run, steps, i - 1);
      RunWriterSound(world, run, steps, i - 1);
      StepAbsent(world, s, step, t);
    }
  }

  /** What a client can rely on without seeing the queue: the history_only read of a topic it has
      never asked to follow live on this stream is complete in every continuation. */
  lemma FirstReadIsComplete(world: World, run: seq<Sys>, steps: seq<Step>, i: nat, t: Topic)
    requires Run(world, run, steps) && i < |steps| && steps[i].WriterMutate? && !run[i + 1].ended
    requires t in run[i + 1].w.topicWave && run[i + 1].w.topicWave[t] == run[i].w.nextWave
    requires NeverLive(steps, i + 1, t)
    ensures t in run[i + 1].w.epochs
    ensures var s, v := run[i + 1], run[i].w.nextWave;
            forall more :: Possible(world, s, more) && Completes(After(world, s, more), v, t) ==>
              Complete(After(world, s, more), t, Table(run[i], t.kind))
  {
    RunAbsent(world, run, steps, i + 1, t);
    hide Apply, Enabled;
    if run[i].ended {
      assert Enabled(world, run[i], steps[i]) && run[i + 1] == Apply(world, run[i], steps[i]);
      EndedStays(world, run[i], steps[i]);
    }
    RunAbsent(world, run, steps, i, t);
    HistoryReplayExactly(world, run, steps, i, t);
    ProjOfOthers(run[i].queue, t);
  }
}
