/** A live stream never gets stuck: from every state it can reach, the scans, the poller and the
    writer can bring every wave to its completion and every row to its subscriber. */
module Progress {
  import opened Rows
  import opened WaveScan
  import opened Fetcher
  import opened Frames
  import opened Writer
  import opened StreamSystem
  import opened Bookkeeping
  import opened TopicSlice
  import opened Delivery
  import opened LogSteps
  import opened AnswerCount
  import opened WriterRuns
  import opened Theorems
  import opened Verdicts
  import opened HistoryReplay
  import M = MutateMeaning
  import MutateSteps
  import WriterSteps

  // ----- what every reachable state is ready for -----

  /** A wave in flight waits for some scan. */
  ghost predicate Waiting(w: State) {
    forall v :: v in w.waves ==> w.waves[v].scansLeft >= 1
  }

  /** A finished scan's marker is in the lane until the writer takes it. */
  ghost predicate MarkersQueued(lane: seq<Batch>, scans: map<ScanId, Scan>) {
    forall id :: id in scans && scans[id].done && !scans[id].taken ==> Batch(id.wave, id.kind, [], true) in lane
  }

  ghost predicate Ready(s: Sys) {
    Inv(s) && Sound(s.w, {}, 0, 0) && Draining(s.w) && Waiting(s.w) && MarkersQueued(s.lane, s.scans)
  }

  lemma BatchWaiting(cfg: Config, w: State, b: Batch)
    requires Waiting(w)
    ensures Waiting(TakeBatch(cfg, w, b).0)
  {
    hide Emit, Wanted, CompleteWave;
    if b.wave in w.waves {
      var wave := w.waves[b.wave];
      var w1 := Emit(cfg, w, wave.mutateId, Wanted(w.topicWave, b.wave, b.rows));
      EmitWaves(cfg, w, wave.mutateId, Wanted(w.topicWave, b.wave, b.rows));
      CompleteRest(cfg, w1, b.wave, wave.(scansLeft := wave.scansLeft - 1));
    }
  }

  lemma MutateWaiting(cfg: Config, w: State, m: MutateReq)
    requires Sound(w, {}, 0, 0) && Waiting(w) && Mutate(cfg, w, m).verdict == Continue
    ensures Waiting(Mutate(cfg, w, m).s)
  {
    hide Sound, Waiting, Mutate, ParseAdds, M.Lowest, M.Added, M.RemoveSet, M.Effect;
    M.MutateMeans(cfg, w, m);
    var removed := M.RemoveSet(m.removes);
    EffectWaiting(w, Mutate(cfg, w, m).s, removed,
                  M.Added(w, removed, ParseAdds(Parsed([], map[]), m.adds).value.cursors), m.mutateId, m.historyOnly);
  }

  lemma EffectWaiting(w: State, d: State, removed: set<Topic>, added: map<Topic, nat>, mutateId: nat,
                      historyOnly: bool)
    requires Waiting(w) && M.Effect(w, d, removed, added, mutateId, historyOnly)
    ensures Waiting(d)
  {
    hide M.Merged, M.Rejoined, M.Minus, M.Live, M.InWave;
    M.NoKeys(added);
    if added != map[] {
      var t :| t in added.Keys;
      assert M.HasKind(added.Keys, t.kind);
    }
  }

  lemma StepWaiting(world: World, s: Sys, step: Step)
    requires Sound(s.w, {}, 0, 0) && Waiting(s.w) && Enabled(world, s, step) && !Apply(world, s, step).ended
    ensures Waiting(Apply(world, s, step).w)
  {
    hide Sound, Waiting, Mutate, TakeBatch, TakeLive, DispatchRow, RunTurn, Prune, StaleAfter;
    match step
    case Dispatch(k) => DispatchCases(world, s, NextRow(Table(s, k), Seen(s, k)).value);
    case WriterBatch => BatchWaiting(world.cfg, s.w, s.lane[0]);
    case WriterLive =>
      WriterSteps.LiveSame(world.cfg, s.w, s.queue[0]);
      SameWaiting(s.w, TakeLive(world.cfg, s.w, s.queue[0]).0);
    case WriterMutate(m) => MutateEnds(world, s, m); MutateWaiting(world.cfg, s.w, m);
    case WriterHalfClose => SameWaiting(s.w, HalfClose(s.w).0);
    case _ =>
  }

  lemma SameWaiting(w: State, d: State)
    requires Waiting(w) && d.waves == w.waves
    ensures Waiting(d)
  {
  }

  lemma PopQueued(lane: seq<Batch>, scans: map<ScanId, Scan>)
    requires MarkersQueued(lane, scans) && lane != []
    ensures MarkersQueued(lane[1..], ScansTaken(scans, lane[0]))
  {
    assert lane == [lane[0]] + lane[1..];
  }

  lemma GrowQueued(lane: seq<Batch>, scans: map<ScanId, Scan>, id: ScanId, sc: Scan, lane': seq<Batch>)
    requires MarkersQueued(lane, scans) && lane <= lane'
    requires sc.done && !sc.taken ==> Batch(id.wave, id.kind, [], true) in lane'
    ensures MarkersQueued(lane', scans[id := sc])
  {
    assert forall b :: b in lane ==> b in lane';
  }

  lemma SpawnQueued(lane: seq<Batch>, scans: map<ScanId, Scan>, r: Mutated)
    requires MarkersQueued(lane, scans)
    ensures MarkersQueued(lane, Spawned(scans, r))
  {
  }

  lemma ForwardGrows(lane: seq<Batch>, wave: nat, kind: Kind, rows: seq<Row>)
    ensures lane <= Forward(lane, wave, kind, rows)
  {
  }

  lemma StepQueued(world: World, s: Sys, step: Step)
    requires Inv(s) && MarkersQueued(s.lane, s.scans) && Enabled(world, s, step)
    ensures MarkersQueued(Apply(world, s, step).lane, Apply(world, s, step).scans)
  {
    hide MarkersQueued, Mutate, TakeBatch, TakeLive, DispatchRow, RunTurn, Prune, StaleAfter, Spawned, Forward, Inv;
    match step
    case Dispatch(k) => DispatchCases(world, s, NextRow(Table(s, k), Seen(s, k)).value);
    case WriterBatch => PopQueued(s.lane, s.scans);
    case WriterMutate(m) => SpawnQueued(s.lane, s.scans, Mutate(world.cfg, s.w, m));
    case Snapshot(id) =>
      NotDone(s, id);
      GrowQueued(s.lane, s.scans, id, Apply(world, s, step).scans[id], s.lane);
    case Refresh(id, _) =>
      NotDone(s, id);
      GrowQueued(s.lane, s.scans, id, Apply(world, s, step).scans[id], s.lane);
    case ScanTurn(id) =>
      NotDone(s, id);
      var turn := RunTurn(Table(s, id.kind), s.scans[id].queue, s.scans[id].ceiling,
                          AtLeastOne(world.scanBatchTopics), AtLeastOne(world.scanTopicPageLimit));
      ForwardGrows(s.lane, id.wave, id.kind, Known(turn.rows));
      GrowQueued(s.lane, s.scans, id, s.scans[id].(queue := turn.queue),
                 Forward(s.lane, id.wave, id.kind, Known(turn.rows)));
    case Finish(id) =>
      var b := Batch(id.wave, id.kind, [], true);
      assert (s.lane + [b])[|s.lane|] == b;
      GrowQueued(s.lane, s.scans, id, s.scans[id].(done := true), s.lane + [b]);
    case _ =>
  }

  lemma NotDone(s: Sys, id: ScanId)
    requires Inv(s) && id in s.scans && (!s.scans[id].started || !s.scans[id].refreshed || s.scans[id].queue != [])
    ensures !s.scans[id].done
  {
    ScanAt(s, id);
    hide Inv;
  }

  lemma StepReady(world: World, s: Sys, step: Step)
    requires Ready(s) && Enabled(world, s, step) && !Apply(world, s, step).ended
    ensures Ready(Apply(world, s, step))
  {
    hide Inv, Sound, Draining, Waiting, MarkersQueued, Apply, Enabled;
    StepKeeps(world, s, step);
    StepSound(world, s, step);
    StepDraining(world, s, step);
    StepWaiting(world, s, step);
    StepQueued(world, s, step);
  }

  lemma {:induction false} RunReady(world: World, run: seq<Sys>, steps: seq<Step>, i: nat)
    requires Run(world, run, steps) && i <= |steps| && !run[i].ended
    ensures Ready(run[i])
  {
    hide Ready, Apply, Enabled;
    if i == 0 {
      FirstReady(run[0]);
    } else {
      var s, step := run[i - 1], steps[i - 1];
      assert Enabled(world, s, step) && run[i] == Apply(world, s, step);
      if s.ended { EndedStays(world, s, step); }
      RunReady(world, run, steps, i - 1);
      StepReady(world, s, step);
    }
  }

  lemma FirstReady(s: Sys)
    requires Initial(s)
    ensures Ready(s)
  {
    InitialInv(s);
    InitSound();
    hide Inv, Sound;
  }

  // ----- draining the lane -----

  function Unfinished(s: Sys): set<ScanId> { set id | id in s.scans && !s.scans[id].done }

  lemma ReadyInv(s: Sys)
    requires Ready(s)
    ensures Inv(s) && Sound(s.w, {}, 0, 0) && Draining(s.w) && Waiting(s.w) && MarkersQueued(s.lane, s.scans)
  {
  }

  /** When no scan is left and the lane is empty, no wave is in flight. */
  lemma NothingInFlight(s: Sys)
    requires Ready(s) && Unfinished(s) == {} && s.lane == []
    ensures s.w.waves == map[]
  {
    hide Inv, Sound, Draining, WaveScans, Left;
    ReadyScans(s);
    forall id | id in s.scans ensures s.scans[id].taken {
      assert id !in Unfinished(s);
    }
    if s.w.waves != map[] {
      var v :| v in s.w.waves;
      NoneLeft(s.w, s.scans, v);
    }
  }

  lemma ReadyScans(s: Sys)
    requires Inv(s)
    ensures WaveScans(s.w, s.scans)
  {
    hide EnvOk, QueueOk, Book, ScansOk, LaneOk, StaleOk, TopicsOk, WaveScans;
  }

  lemma NoneLeft(w: State, scans: map<ScanId, Scan>, v: nat)
    requires WaveScans(w, scans) && v in w.waves && forall id :: id in scans ==> scans[id].taken
    ensures w.waves[v].scansLeft == 0
  {
  }

  /** The subscription and what surrounds the writer are the same, and so are the registrations of
      the subscribed topics. */
  ghost predicate Quiet(s: Sys, d: Sys) {
    && d.groups == s.groups && d.welcomes == s.welcomes && d.open == s.open && QuietWriter(s.w, d.w)
  }

  ghost predicate QuietWriter(w: State, d: State) {
    && d.subscribed == w.subscribed && d.halfClosed == w.halfClosed
    && forall t :: t in w.subscribed && t in w.epochs ==>
         t in d.epochs && d.epochs[t].floor == w.epochs[t].floor && d.epochs[t].start == w.epochs[t].start
  }

  lemma QuietOn(s: Sys, m: Sys, d: Sys)
    requires Quiet(s, m) && Quiet(m, d)
    ensures Quiet(s, d)
  {
  }

  /** Settling a wave keeps the registration of a topic that is gated if the wave owns it. */
  lemma {:induction false} SettleAllRegistered(f: Fold, v: nat, topics: seq<Topic>, t: Topic)
    requires t in f.s.epochs && (Owns(f.s, v, t) ==> t in f.s.catchingUp)
    ensures t in SettleAll(f, v, topics).s.epochs && SettleAll(f, v, topics).s.epochs[t] == f.s.epochs[t]
    decreases |topics|
  {
    if topics != [] { SettleAllRegistered(Settle(f, v, topics[0]), v, topics[1..], t); }
  }

  lemma CompleteQuiet(cfg: Config, w: State, v: nat, wave: Wave)
    requires Book(w, {}, 0)
    ensures QuietWriter(w, CompleteWave(cfg, w, v, wave))
  {
    var f := SettleAll(Fold(w, [], [], []), v, wave.topics);
    SettleAllLowers(Fold(w, [], [], []), v, wave.topics);
    forall t | t in w.subscribed && t in w.epochs ensures t in f.s.epochs && f.s.epochs[t] == w.epochs[t] {
      SettleAllRegistered(Fold(w, [], [], []), v, wave.topics, t);
    }
    hide Book, SettleAll;
  }

  lemma BatchQuiet(cfg: Config, w: State, b: Batch)
    requires Book(w, {}, 0)
    ensures QuietWriter(w, TakeBatch(cfg, w, b).0)
  {
    hide Book, Emit, Wanted, CompleteWave;
    if b.wave in w.waves {
      var wave, msgs := w.waves[b.wave], Wanted(w.topicWave, b.wave, b.rows);
      var w1 := Emit(cfg, w, wave.mutateId, msgs);
      EmitBook(cfg, w, wave.mutateId, msgs, {}, 0);
      WriterSteps.EmitSame(cfg, w, wave.mutateId, msgs);
      CompleteQuiet(cfg, w1, b.wave, wave.(scansLeft := wave.scansLeft - 1));
    }
  }

  /** One batch on the way: nothing is asked of anyone else, and no answer is lost. */
  lemma BatchOnward(world: World, s: Sys)
    requires Ready(s) && !s.ended && s.lane != []
    ensures Enabled(world, s, WriterBatch)
    ensures var d := Apply(world, s, WriterBatch);
            && Onward(s, d) && d.lane == s.lane[1..] && Unfinished(d) == Unfinished(s)
            && forall id :: id in s.scans ==> id in d.scans && d.scans[id] == s.scans[id].(taken := d.scans[id].taken)
  {
    hide Ready, Apply, TakeBatch, Owed, QuietWriter, Unfinished, ScansTaken;
    var b, d := s.lane[0], Apply(world, s, WriterBatch);
    ReadyInv(s);
    hide Inv, Sound, Draining, Waiting, MarkersQueued;
    BatchWriter(world.cfg, s.w, b);
    BatchPops(world, s);
    BatchIs(world, s);
    TakenFinished(s, d);
    if !d.ended { StepReady(world, s, WriterBatch); }
  }

  /** On the way: the surroundings and the queue are the same, no answer is lost, and the stream
      goes on or has closed with nothing in flight. */
  ghost predicate Onward(s: Sys, d: Sys) {
    && Quiet(s, d) && d.queue == s.queue && (forall id :: Owed(d.w, id) == Owed(s.w, id))
    && (if d.ended then s.w.halfClosed && d.w.waves == map[] else Ready(d))
  }

  lemma OnwardOn(s: Sys, m: Sys, d: Sys)
    requires Onward(s, m) && Onward(m, d)
    ensures Onward(s, d)
  {
    hide Owed, Ready;
  }

  lemma BatchIs(world: World, s: Sys)
    requires Enabled(world, s, WriterBatch)
    ensures var d, r := Apply(world, s, WriterBatch), TakeBatch(world.cfg, s.w, s.lane[0]);
            && d.w == r.0 && (d.ended <==> r.1 != Continue)
            && d.groups == s.groups && d.welcomes == s.welcomes && d.open == s.open
  {
    hide TakeBatch;
  }

  lemma BatchWriter(cfg: Config, w: State, b: Batch)
    requires Sound(w, {}, 0, 0) && Draining(w)
    ensures var (d, v) := TakeBatch(cfg, w, b);
            && QuietWriter(w, d) && (forall id :: Owed(d, id) == Owed(w, id))
            && (v == Continue || (v == Close && w.halfClosed && d.waves == map[]))
  {
    hide Sound, QuietWriter, Owed, TakeBatch, LastOfAll;
    SoundBook(w);
    BatchQuiet(cfg, w, b);
    BatchDrains(cfg, w, b);
    BatchVerdict(cfg, w, b);
    TakeSound(cfg, w, TakesBatch(b));
  }

  lemma TakenFinished(s: Sys, d: Sys)
    requires s.lane != [] && d.scans == ScansTaken(s.scans, s.lane[0])
    ensures Unfinished(d) == Unfinished(s)
    ensures forall id :: id in s.scans ==> id in d.scans && d.scans[id] == s.scans[id].(taken := d.scans[id].taken)
  {
  }

  // ----- running the scans, one batch at a time -----

  /** A turn or a done marker is handed over only into an empty lane. */
  ghost predicate OneAtATime(world: World, s: Sys, steps: seq<Step>)
    requires Possible(world, s, steps)
    decreases |steps|
  {
    steps == [] || ((steps[0].ScanTurn? || steps[0].Finish? ==> s.lane == [])
                    && OneAtATime(world, Apply(world, s, steps[0]), steps[1..]))
  }

  lemma {:induction false} OneByOne(world: World, s: Sys, a: seq<Step>, b: seq<Step>)
    requires Possible(world, s, a) && Possible(world, After(world, s, a), b)
    requires OneAtATime(world, s, a) && OneAtATime(world, After(world, s, a), b)
    ensures Possible(world, s, a + b) && OneAtATime(world, s, a + b)
    ensures After(world, s, a + b) == After(world, After(world, s, a), b)
    decreases |a|
  {
    hide Enabled, Apply;
    Chain(world, s, a, b);
    if a == [] {
      assert a + b == b;
    } else {
      assert (a + b)[1..] == a[1..] + b;
      OneByOne(world, Apply(world, s, a[0]), a[1..], b);
    }
  }

  lemma {:induction false} NothingHandedOver(world: World, s: Sys, steps: seq<Step>)
    requires Possible(world, s, steps) && forall step :: step in steps ==> !step.ScanTurn? && !step.Finish?
    ensures OneAtATime(world, s, steps)
    decreases |steps|
  {
    hide Enabled, Apply;
    if steps != [] { NothingHandedOver(world, Apply(world, s, steps[0]), steps[1..]); }
  }

  lemma OneStepAlone(world: World, s: Sys, step: Step)
    requires Enabled(world, s, step) && (step.ScanTurn? || step.Finish? ==> s.lane == [])
    ensures Possible(world, s, [step]) && OneAtATime(world, s, [step])
    ensures After(world, s, [step]) == Apply(world, s, step)
  {
    hide Enabled, Apply;
    OneStep(world, s, step);
    assert [step][1..] == [];
  }

  /** Steps of the scans and of the writer taking batches: no new row, no envelope, no request. */
  predicate CatchingUp(steps: seq<Step>) {
    forall step :: step in steps ==>
      step.Snapshot? || step.Refresh? || step.ScanTurn? || step.Finish? || step.WriterBatch?
  }

  function Stage(sc: Scan): nat {
    if !sc.started then 3 else if !sc.refreshed then 2 else if !sc.done then 1 else 0
  }

  function Work(s: Sys, id: ScanId): nat
    requires id in s.scans
  {
    Fetcher.Remaining(Table(s, id.kind), s.scans[id].queue, s.scans[id].ceiling) + |s.scans[id].queue|
  }

  /** Wherever an unfinished scan stands, it has a next step, which brings it nearer its end. */
  lemma ScanOnward(world: World, s: Sys, id: ScanId) returns (step: Step)
    requires Ready(s) && !s.ended && id in s.scans && !s.scans[id].done
    ensures step.Snapshot? || step.Refresh? || step.ScanTurn? || step.Finish?
    ensures Enabled(world, s, step)
    ensures var d := Apply(world, s, step);
            && Scanning(s, d, id) && Ready(d)
            && (Stage(d.scans[id]) < Stage(s.scans[id])
                || (Stage(d.scans[id]) == Stage(s.scans[id]) && Work(d, id) < Work(s, id)))
  {
    hide Ready;
    ReadyInv(s);
    ScanAt(s, id);
    QueueOf(s);
    hide Inv, Sound, Draining, Waiting, MarkersQueued, Apply, Fetcher.Remaining;
    var sc := s.scans[id];
    if !sc.started {
      step := Snapshot(id);
      SnapMoves(world, s, id);
    } else if !sc.refreshed {
      step := Refresh(id, true);
      RefreshMoves(world, s, id);
    } else if sc.queue != [] {
      step := ScanTurn(id);
      TurnWorks(world, s, id);
    } else {
      step := Finish(id);
      FinishMoves(world, s, id);
    }
    StepReady(world, s, step);
  }

  lemma TurnWorks(world: World, s: Sys, id: ScanId)
    requires EnvOk(s) && id in s.scans && s.scans[id].refreshed && !s.scans[id].done && s.scans[id].queue != []
    requires s.scans[id].ceiling > 0
    ensures Enabled(world, s, ScanTurn(id))
    ensures var d := Apply(world, s, ScanTurn(id));
            && Scanning(s, d, id) && d.scans[id] == s.scans[id].(queue := d.scans[id].queue)
            && Work(d, id) < Work(s, id)
  {
    var sc, tab := s.scans[id], Table(s, id.kind);
    TableIsOk(s, id.kind);
    TurnConserves(tab, sc.queue, sc.ceiling, AtLeastOne(world.scanBatchTopics), AtLeastOne(world.scanTopicPageLimit));
    TurnMoves(world, s, id);
    hide RunTurn, Fetcher.Remaining;
  }

  lemma ScanningOnward(s: Sys, d: Sys, id: ScanId)
    requires Scanning(s, d, id) && Ready(d) && !s.ended
    ensures Onward(s, d) && !d.ended && Unfinished(d) - {id} == Unfinished(s) - {id}
  {
    hide Ready, Owed;
  }

  lemma TakenOnward(s: Sys, d: Sys, id: ScanId)
    requires Quiet(s, d) && id in s.scans && id in d.scans
    requires d.scans[id] == s.scans[id].(taken := d.scans[id].taken)
    ensures Stage(d.scans[id]) == Stage(s.scans[id]) && Work(d, id) == Work(s, id)
  {
  }

  /** A scan can run to its end, the writer taking each batch before the next is handed over. */
  lemma {:induction false} ScanThrough(world: World, s: Sys, id: ScanId) returns (steps: seq<Step>)
    requires Ready(s) && !s.ended && id in s.scans
    ensures Possible(world, s, steps) && CatchingUp(steps) && OneAtATime(world, s, steps)
    ensures var d := After(world, s, steps);
            Onward(s, d) && (!d.ended ==> d.lane == [] && Unfinished(d) == Unfinished(s) - {id})
    decreases Stage(s.scans[id]), Work(s, id), |s.lane|
  {
    hide Ready, Onward, Apply, Enabled, Scanning, Work, Stage;
    steps := [];
    Itself(s);
    if s.lane == [] && s.scans[id].done {
      assert id !in Unfinished(s);
    } else {
      var step := WriterBatch;
      if s.lane != [] {
        BatchOnward(world, s);
        OnwardQuiet(s, Apply(world, s, step));
        TakenOnward(s, Apply(world, s, step), id);
      } else {
        step := ScanOnward(world, s, id);
        ScanningOnward(s, Apply(world, s, step), id);
        ScanningHas(s, Apply(world, s, step), id);
      }
      OneStepAlone(world, s, step);
      steps := [step];
      var s1 := Apply(world, s, step);
      if !s1.ended {
        OnwardReady(s, s1);
        var rest := ScanThrough(world, s1, id);
        OneByOne(world, s, [step], rest);
        OnwardOn(s, s1, After(world, s1, rest));
        steps := [step] + rest;
      }
    }
  }

  lemma ScanningHas(s: Sys, d: Sys, id: ScanId)
    requires Scanning(s, d, id)
    ensures id in d.scans
  {
  }

  lemma OnwardQuiet(s: Sys, d: Sys)
    requires Onward(s, d)
    ensures Quiet(s, d)
  {
  }

  lemma OnwardReady(s: Sys, d: Sys)
    requires Onward(s, d) && !d.ended
    ensures Ready(d) && d.w.halfClosed == s.w.halfClosed
  {
    hide Ready, Owed;
  }

  /** With all scans over the lane can be drained, and then no wave is left. */
  lemma {:induction false} DrainLane(world: World, s: Sys) returns (steps: seq<Step>)
    requires Ready(s) && !s.ended && Unfinished(s) == {}
    ensures Possible(world, s, steps) && CatchingUp(steps) && OneAtATime(world, s, steps)
    ensures var d := After(world, s, steps); Onward(s, d) && d.w.waves == map[]
    decreases |s.lane|
  {
    hide Ready, Onward, Apply, Enabled, Unfinished;
    steps := [];
    Itself(s);
    if s.lane == [] {
      NothingInFlight(s);
    } else {
      BatchOnward(world, s);
      OneStepAlone(world, s, WriterBatch);
      var s1 := Apply(world, s, WriterBatch);
      steps := [WriterBatch];
      if s1.ended {
        OnwardClosed(s, s1);
      } else {
        OnwardReady(s, s1);
        var rest := DrainLane(world, s1);
        OneByOne(world, s, [WriterBatch], rest);
        OnwardOn(s, s1, After(world, s1, rest));
        steps := [WriterBatch] + rest;
      }
    }
  }

  lemma OnwardClosed(s: Sys, d: Sys)
    requires Onward(s, d) && d.ended
    ensures d.w.waves == map[] && s.w.halfClosed
  {
    hide Ready, Owed;
  }

  /** Every wave can complete. */
  lemma {:induction false} CatchUp(world: World, s: Sys) returns (more: seq<Step>)
    requires Ready(s) && !s.ended
    ensures Possible(world, s, more) && CatchingUp(more) && OneAtATime(world, s, more)
    ensures var d := After(world, s, more); Onward(s, d) && d.w.waves == map[] && (d.ended <==> s.w.halfClosed)
    decreases Unfinished(s)
  {
    hide Ready, Onward, Apply, Enabled;
    DrainingMeans(s);
    if Unfinished(s) == {} {
      more := DrainLane(world, s);
      ClosesWithHalf(s, After(world, s, more));
    } else {
      var id :| id in Unfinished(s);
      more := ScanThrough(world, s, id);
      var s1 := After(world, s, more);
      if s1.ended {
        OnwardClosed(s, s1);
      } else {
        OnwardReady(s, s1);
        var rest := CatchUp(world, s1);
        OneByOne(world, s, more, rest);
        OnwardOn(s, s1, After(world, s1, rest));
        more := more + rest;
      }
    }
  }

  lemma ClosesWithHalf(s: Sys, d: Sys)
    requires Onward(s, d) && d.w.waves == map[]
    ensures d.ended <==> s.w.halfClosed
  {
    if !d.ended {
      OnwardReady(s, d);
      DrainingMeans(d);
    }
    hide Ready, Owed;
  }

  lemma Itself(s: Sys)
    ensures Quiet(s, s) && (Ready(s) && !s.ended ==> Onward(s, s))
  {
    hide Ready, Owed;
  }

  lemma DrainingMeans(s: Sys)
    requires Ready(s)
    ensures s.w.halfClosed ==> s.w.waves != map[]
  {
    hide Inv, Sound, Waiting, MarkersQueued;
  }

  // ----- every wave can complete -----

  /** No Mutate waits for ever. From every state a live stream can reach, the scans and the writer
      can on their own, with no new row, envelope or request and even if each turn is handed over
      only into an empty lane, complete every wave: each Mutate in flight gets its one
      CatchupComplete, the rest of the answers stay as they are, and the stream then ends, cleanly,
      exactly when its client has half-closed. */
  lemma WavesCanComplete(world: World, run: seq<Sys>, steps: seq<Step>)
    requires Run(world, run, steps) && !run[|steps|].ended
    ensures var s := run[|steps|];
            exists more :: Possible(world, s, more) && CatchingUp(more) && OneAtATime(world, s, more)
                           && Caught(s, After(world, s, more))
  {
    hide Ready, CatchingUp, Onward, Caught, OneAtATime;
    RunReady(world, run, steps, |steps|);
    hide Run;
    var s := run[|steps|];
    var more := CatchUp(world, s);
    AllAnswered(s, After(world, s, more));
  }

  /** Every wave of `s` is complete in `d`, and answered. */
  ghost predicate Caught(s: Sys, d: Sys) {
    && d.w.waves == map[] && (d.ended <==> s.w.halfClosed)
    && d.w.subscribed == s.w.subscribed && d.queue == s.queue
    && forall id :: Answers(d.w.out, id) == Answers(s.w.out, id) + if InFlight(s.w, id) then 1 else 0
  }

  lemma AllAnswered(s: Sys, d: Sys)
    requires Onward(s, d) && d.w.waves == map[] && (d.ended <==> s.w.halfClosed)
    ensures Caught(s, d)
  {
    hide Answers, Ready;
    forall id ensures Answers(d.w.out, id) == Answers(s.w.out, id) + if InFlight(s.w, id) then 1 else 0 {
      assert Owed(d.w, id) == Owed(s.w, id);
      assert !InFlight(d.w, id);
    }
  }

  // ----- draining the queue -----

  /** Without a wave no topic is gated. */
  lemma NoGates(w: State)
    requires Sound(w, {}, 0, 0) && w.waves == map[]
    ensures w.catchingUp == {} && w.topicWave == map[]
  {
    hide Logs, Tags, InFlight, Ids;
    assert forall t :: t in w.topicWave ==> w.topicWave[t] in w.waves;
    assert forall t :: t in w.catchingUp ==> t in w.subscribed && t in w.topicWave;
  }

  /** An envelope of an open topic is always taken. */
  lemma LiveOnward(world: World, s: Sys)
    requires Ready(s) && !s.ended && s.w.waves == map[] && s.queue != []
    ensures Enabled(world, s, WriterLive)
    ensures var d := Apply(world, s, WriterLive);
            && !d.ended && Ready(d) && Quiet(s, d) && d.w.waves == map[] && d.queue == s.queue[1..]
            && d.groupSeen == s.groupSeen && d.welcomeSeen == s.welcomeSeen
  {
    hide Ready, Inv, Sound, Draining, Waiting, MarkersQueued;
    ReadyInv(s);
    NoGates(s.w);
    LiveTaken(world, s);
    StepReady(world, s, WriterLive);
  }

  lemma LiveTaken(world: World, s: Sys)
    requires Enabled(world, s, WriterLive) && s.w.catchingUp == {}
    ensures var d := Apply(world, s, WriterLive);
            && !d.ended && Quiet(s, d) && d.w.waves == s.w.waves && d.queue == s.queue[1..]
            && d.groupSeen == s.groupSeen && d.welcomeSeen == s.welcomeSeen
  {
    WriterSteps.EmitSame(world.cfg, s.w, 0, [s.queue[0]]);
    hide Emit;
  }

  lemma {:induction false} DrainOpen(world: World, s: Sys) returns (steps: seq<Step>)
    requires Ready(s) && !s.ended && s.w.waves == map[]
    ensures Possible(world, s, steps) && forall step :: step in steps ==> step.WriterLive?
    ensures var d := After(world, s, steps);
            && !d.ended && Ready(d) && Quiet(s, d) && d.w.waves == map[] && d.queue == []
            && d.groupSeen == s.groupSeen && d.welcomeSeen == s.welcomeSeen
    decreases |s.queue|
  {
    hide Ready, Quiet, Apply, Enabled;
    steps := [];
    Itself(s);
    if s.queue != [] {
      LiveOnward(world, s);
      OneStep(world, s, WriterLive);
      var s1 := Apply(world, s, WriterLive);
      var rest := DrainOpen(world, s1);
      Chain(world, s, [WriterLive], rest);
      QuietOn(s, s1, After(world, s1, rest));
      steps := [WriterLive] + rest;
    }
  }

  // ----- offering the rest of a table -----

  predicate Offering(steps: seq<Step>) {
    forall step :: step in steps ==> step.WriterLive? || step.Dispatch?
  }

  lemma DispatchOnward(world: World, s: Sys, k: Kind)
    requires Ready(s) && !s.ended && s.open && world.capacity >= 1 && s.queue == []
    requires NextRow(Table(s, k), Seen(s, k)).Some?
    ensures Enabled(world, s, Dispatch(k))
    ensures var d, r := Apply(world, s, Dispatch(k)), NextRow(Table(s, k), Seen(s, k)).value;
            && !d.ended && Ready(d) && Quiet(s, d) && d.w == s.w && Seen(d, k) == r.id
            && Seen(d, Other(k)) == Seen(s, Other(k))
            && Seen(s, k) < r.id <= MaxId(Table(s, k))
  {
    hide Ready, Apply, NextRow, Inv, Quiet, Sound, Draining, Waiting, MarkersQueued;
    var r := NextRow(Table(s, k), Seen(s, k)).value;
    ReadyInv(s);
    TablesFine(s, k);
    NextRowFacts(Table(s, k), Seen(s, k));
    MaxIdBounds(Table(s, k), r);
    DispatchMoves(world, s, k);
    StepReady(world, s, Dispatch(k));
  }

  lemma DispatchMoves(world: World, s: Sys, k: Kind)
    requires Enabled(world, s, Dispatch(k)) && world.capacity >= 1 && s.queue == [] && TableOk(Table(s, k), k)
    requires NextRow(Table(s, k), Seen(s, k)).value in Table(s, k)
    ensures var d, r := Apply(world, s, Dispatch(k)), NextRow(Table(s, k), Seen(s, k)).value;
            && d.ended == s.ended && Quiet(s, d) && d.w == s.w && Seen(d, k) == r.id
            && Seen(d, Other(k)) == Seen(s, Other(k))
  {
    hide NextRow;
    DispatchCases(world, s, NextRow(Table(s, k), Seen(s, k)).value);
    hide DispatchRow;
  }

  function Other(k: Kind): Kind { if k == Group then Welcome else Group }

  /** The rest of a kind's table can be offered and taken, one row after the other. */
  lemma {:induction false} OfferAll(world: World, s: Sys, k: Kind) returns (steps: seq<Step>)
    requires Ready(s) && !s.ended && s.open && world.capacity >= 1 && s.w.waves == map[]
    ensures Possible(world, s, steps) && Offering(steps)
    ensures var d := After(world, s, steps);
            && !d.ended && Ready(d) && Quiet(s, d) && d.w.waves == map[] && d.queue == []
            && NextRow(Table(d, k), Seen(d, k)).None? && Seen(d, Other(k)) == Seen(s, Other(k))
    decreases MaxId(Table(s, k)) - Seen(s, k)
  {
    hide Ready, Quiet, Apply, Enabled;
    steps := DrainOpen(world, s);
    var s1 := After(world, s, steps);
    SameTables(s, s1, k);
    if NextRow(Table(s1, k), Seen(s1, k)).Some? {
      DispatchOnward(world, s1, k);
      OneStep(world, s1, Dispatch(k));
      var s2 := Apply(world, s1, Dispatch(k));
      SameTables(s1, s2, k);
      var rest := OfferAll(world, s2, k);
      QuietOn(s1, s2, After(world, s2, rest));
      QuietOn(s, s1, After(world, s2, rest));
      Chain(world, s1, [Dispatch(k)], rest);
      Chain(world, s, steps, [Dispatch(k)] + rest);
      steps := steps + ([Dispatch(k)] + rest);
    }
  }

  lemma SameTables(s: Sys, d: Sys, k: Kind)
    requires Quiet(s, d)
    ensures Table(d, k) == Table(s, k) && d.open == s.open
  {
  }

  // ----- everything can arrive -----

  /** Every subscribed topic has been sent all its rows above its floor. */
  ghost predicate AllDelivered(s: Sys) {
    forall t :: t in s.w.subscribed ==>
      && t in s.w.epochs
      && DeliveredSince(s.w.out, s.w.epochs[t].start, t)
         == Between(Table(s, t.kind), t, s.w.epochs[t].floor, MaxId(Table(s, t.kind)))
  }

  lemma {:induction false} NothingNext(tab: seq<Row>, seen: nat)
    requires NextRow(tab, seen).None?
    ensures forall r :: r in tab ==> r.id <= seen
  {
    if tab != [] {
      NothingNext(tab[1..], seen);
      assert tab == [tab[0]] + tab[1..];
    }
  }

  lemma SameRange(tab: seq<Row>, t: Topic, lo: nat, a: nat, b: nat)
    requires Ascending(tab) && forall r :: r in tab ==> r.id <= a && r.id <= b
    ensures Between(tab, t, lo, a) == Between(tab, t, lo, b)
  {
    BetweenIsExact(tab, t, lo, a);
    ExactlyIsBetween(tab, t, lo, b, Between(tab, t, lo, a));
    hide Between;
  }

  lemma DeliveredNow(s: Sys, t: Topic)
    requires Inv(s) && s.queue == [] && s.w.topicWave == map[] && t in s.w.subscribed
    requires NextRow(Table(s, t.kind), Seen(s, t.kind)).None?
    ensures t in s.w.epochs
    ensures DeliveredSince(s.w.out, s.w.epochs[t].start, t)
         == Between(Table(s, t.kind), t, s.w.epochs[t].floor, MaxId(Table(s, t.kind)))
  {
    hide Inv, DeliveredSince, Between;
    LiveTopics(s, t);
    TopicFacts(s, t);
    var v, tab := ViewOf(s, t), Table(s, t.kind);
    NothingNext(tab, Seen(s, t.kind));
    forall r | r in tab ensures r.id <= MaxId(tab) { MaxIdBounds(tab, r); }
    OpenIsBetween(v, t);
    assert v.queued == [] && Rise(v.hw, []) == [];
    assert v.del + [] == v.del;
    SameRange(tab, t, v.floor, Max(v.hw, v.seen), MaxId(tab));
  }

  lemma DeliveredAll(s: Sys)
    requires Ready(s) && s.queue == [] && s.w.waves == map[]
    requires forall k: Kind :: NextRow(Table(s, k), Seen(s, k)).None?
    ensures AllDelivered(s)
  {
    hide Ready, Inv, Sound, DeliveredSince, Between;
    ReadyInv(s);
    NoGates(s.w);
    forall t | t in s.w.subscribed
      ensures t in s.w.epochs
      ensures DeliveredSince(s.w.out, s.w.epochs[t].start, t)
           == Between(Table(s, t.kind), t, s.w.epochs[t].floor, MaxId(Table(s, t.kind)))
    {
      DeliveredNow(s, t);
    }
  }

  /** Steps of everything but the client and the publishers. */
  predicate OnItsOwn(steps: seq<Step>) {
    forall step :: step in steps ==>
      !step.Publish? && !step.WriterMutate? && !step.WriterHalfClose? && !step.WriterAborted?
  }

  lemma Deliver(world: World, s: Sys) returns (more: seq<Step>)
    requires Ready(s) && !s.ended && s.open && world.capacity >= 1 && !s.w.halfClosed
    ensures Possible(world, s, more) && OnItsOwn(more) && OneAtATime(world, s, more)
    ensures var d := After(world, s, more);
            !d.ended && Quiet(s, d) && d.w.waves == map[] && d.queue == [] && AllDelivered(d)
  {
    hide Ready, Quiet, Onward, Apply, Enabled, AllDelivered;
    var first := CatchUp(world, s);
    var s1 := After(world, s, first);
    OnwardReady(s, s1);
    OnwardQuiet(s, s1);
    SameTables(s, s1, Group);
    var groups := OfferAll(world, s1, Group);
    var s2 := After(world, s1, groups);
    SameTables(s1, s2, Group);
    var welcomes := OfferAll(world, s2, Welcome);
    var d := After(world, s2, welcomes);
    SameTables(s2, d, Group);
    QuietOn(s1, s2, d);
    QuietOn(s, s1, d);
    Chain(world, s1, groups, welcomes);
    NothingHandedOver(world, s1, groups + welcomes);
    OneByOne(world, s, first, groups + welcomes);
    more := first + (groups + welcomes);
    forall k: Kind ensures NextRow(Table(d, k), Seen(d, k)).None? {
      assert k == Group || k == Welcome;
    }
    DeliveredAll(d);
  }

  /** No row is held back for ever. From every state a live stream can reach in which its
      subscription is open and its client has not half-closed, the scans, the poller and the writer
      can on their own, with no new row and no request, complete every wave and send every
      subscribed topic, from its registration on, exactly all the rows the store has above its
      floor. */
  lemma EverythingCanArrive(world: World, run: seq<Sys>, steps: seq<Step>)
    requires Run(world, run, steps) && world.capacity >= 1
    requires var s := run[|steps|]; !s.ended && s.open && !s.w.halfClosed
    ensures var s := run[|steps|];
            exists more :: Possible(world, s, more) && OnItsOwn(more) && OneAtATime(world, s, more)
                           && Arrived(s, After(world, s, more))
  {
    hide Ready, OnItsOwn, OneAtATime, Quiet, Arrived, AllDelivered;
    RunReady(world, run, steps, |steps|);
    hide Run;
    var s := run[|steps|];
    var more := Deliver(world, s);
    QuietArrives(s, After(world, s, more));
  }

  ghost predicate Arrived(s: Sys, d: Sys) {
    && !d.ended && d.w.waves == map[] && d.queue == [] && AllDelivered(d)
    && d.groups == s.groups && d.welcomes == s.welcomes && d.w.subscribed == s.w.subscribed
    && forall t :: t in s.w.subscribed && t in s.w.epochs ==>
         t in d.w.epochs && d.w.epochs[t].floor == s.w.epochs[t].floor && d.w.epochs[t].start == s.w.epochs[t].start
  }

  lemma QuietArrives(s: Sys, d: Sys)
    requires Quiet(s, d) && !d.ended && d.w.waves == map[] && d.queue == [] && AllDelivered(d)
    ensures Arrived(s, d)
  {
    hide AllDelivered;
  }

  /** Steps of the scans and the writer alone. */
  predicate ByWriter(steps: seq<Step>) {
    forall step :: step in steps ==>
      step.Snapshot? || step.Refresh? || step.ScanTurn? || step.Finish? || step.WriterBatch? || step.WriterLive?
      || step.WriterAborted?
  }

  /** The handler has returned with no wave in flight and, unless the client had half-closed,
      nothing left in the queue. */
  ghost predicate Over(s: Sys, d: Sys) { d.ended && d.w.waves == map[] && (s.w.halfClosed || d.queue == []) }

  lemma Abort(world: World, s: Sys)
    requires !s.ended && !s.open && s.queue == []
    ensures Enabled(world, s, WriterAborted) && Apply(world, s, WriterAborted) == s.(ended := true)
  {
  }

  lemma EndClosed(world: World, s: Sys) returns (more: seq<Step>)
    requires Ready(s) && !s.ended && !s.open
    ensures Possible(world, s, more) && ByWriter(more) && OneAtATime(world, s, more) && Over(s, After(world, s, more))
  {
    hide Ready, Quiet, Onward, Apply, Enabled;
    more := CatchUp(world, s);
    var s1 := After(world, s, more);
    OnwardQuiet(s, s1);
    SameTables(s, s1, Group);
    if !s1.ended {
      OnwardReady(s, s1);
      var live := DrainOpen(world, s1);
      var s2 := After(world, s1, live);
      SameTables(s1, s2, Group);
      Abort(world, s2);
      OneStep(world, s2, WriterAborted);
      Chain(world, s1, live, [WriterAborted]);
      NothingHandedOver(world, s1, live + [WriterAborted]);
      OneByOne(world, s, more, live + [WriterAborted]);
      more := more + (live + [WriterAborted]);
    }
  }

  /** A stream whose subscription was closed can end: the scans and the writer can on their own
      complete every wave and send all that was queued before the closure, and then the handler
      returns. */
  lemma ClosedCanEnd(world: World, run: seq<Sys>, steps: seq<Step>)
    requires Run(world, run, steps) && !run[|steps|].ended && !run[|steps|].open
    ensures var s := run[|steps|];
            exists more :: Possible(world, s, more) && ByWriter(more) && OneAtATime(world, s, more)
                           && Over(s, After(world, s, more))
  {
    hide Ready, ByWriter, OneAtATime, Over;
    RunReady(world, run, steps, |steps|);
    hide Run;
    var more := EndClosed(world, run[|steps|]);
  }

  // ----- what delivery is counted from -----

  lemma OlderWave(w: State, t: Topic)
    requires Book(w, {}, 0) && t in w.topicWave
    ensures w.topicWave[t] < w.nextWave
  {
  }

  /** A registration starts from what the client asked for: when a Mutate registers a topic, its
      floor is the lowest cursor any of the request's adds names the topic with, nothing has been
      sent of it since, and it is live exactly when the request is not for history only. */
  lemma RegisteredAsAsked(world: World, run: seq<Sys>, steps: seq<Step>, i: nat, t: Topic, cursor: nat)
    requires Run(world, run, steps) && i < |steps| && steps[i].WriterMutate? && !run[i + 1].ended
    requires M.Wants(steps[i].m.adds, t, cursor)
    requires t in run[i + 1].w.topicWave && run[i + 1].w.topicWave[t] == run[i].w.nextWave
    ensures var d := run[i + 1].w;
            && t in d.epochs && d.epochs[t].floor == cursor && DeliveredSince(d.out, d.epochs[t].start, t) == []
            && (t in d.subscribed <==> !steps[i].m.historyOnly)
  {
    hide Inv, Sound, Apply, Enabled, DeliveredSince, Mutate, M.Wants, M.Requests, M.Names, Spawning;
    var s, m := run[i], steps[i].m;
    assert Enabled(world, s, steps[i]) && run[i + 1] == Apply(world, s, steps[i]);
    if s.ended { EndedStays(world, s, steps[i]); }
    RunInv(world, run, steps, i);
    RunWriterSound(world, run, steps, i);
    hide Run;
    Registration(world, s, m, t);
    MutateEnds(world, s, m);
    MutateSteps.MutateIs(world, s, m);
    M.TopicFate(world.cfg, s.w, m, t);
    SoundBook(s.w);
    if t in s.w.topicWave { OlderWave(s.w, t); }
  }
}
