/** Which steps end a stream, and that no other does. */
module Verdicts {
  import opened Rows
  import opened WaveScan
  import opened Fetcher
  import opened Frames
  import opened Writer
  import opened StreamSystem
  import opened Bookkeeping
  import opened TopicSlice
  import opened Delivery
  import opened LogSteps
  import opened WriterRuns
  import opened Theorems
  import M = MutateMeaning
  import V = TopicView

  // ----- the writer's verdicts -----

  /** A live envelope is refused in one case only: its topic is catching up and what is held back,
      with this envelope, is more than the cap. */
  lemma LiveVerdict(cfg: Config, s: State, r: Row)
    requires Book(s, {}, 0)
    ensures TakeLive(cfg, s, r).1 ==
            if r.topic in s.catchingUp && HeldBytes(s.pending) + r.wire > cfg.maxPendingBytes
            then Fail(ResourceExhausted) else Continue
  {
    hide Waves, Ids, Gates, Emit;
  }

  /** The same in every state the writer can reach, whatever it has been fed. */
  lemma LiveFailsExactly(cfg: Config, states: seq<State>, inputs: seq<Input>, r: Row)
    requires WriterRun(cfg, states, inputs)
    ensures var s := states[|inputs|];
            TakeLive(cfg, s, r).1 ==
            if r.topic in s.catchingUp && HeldBytes(s.pending) + r.wire > cfg.maxPendingBytes
            then Fail(ResourceExhausted) else Continue
  {
    hide Logs, Tags, InFlight, Book, TakeLive;
    RunSound(cfg, states, inputs, |inputs|);
    LiveVerdict(cfg, states[|inputs|], r);
  }

  /** The last marker of the only wave left. */
  predicate LastOfAll(s: State, b: Batch) {
    b.done && s.waves.Keys == {b.wave} && s.waves[b.wave].scansLeft <= 1
  }

  /** A batch never fails the stream, and closes it exactly when the client has half-closed and
      this is the last marker of the only wave left. */
  lemma BatchVerdict(cfg: Config, s: State, b: Batch)
    requires s.halfClosed ==> s.waves != map[]
    ensures TakeBatch(cfg, s, b).1 == if s.halfClosed && LastOfAll(s, b) then Close else Continue
  {
    hide Emit, Wanted, CompleteWave;
    if b.wave in s.waves {
      var w := s.waves[b.wave];
      var s1 := Emit(cfg, s, w.mutateId, Wanted(s.topicWave, b.wave, b.rows));
      EmitWaves(cfg, s, w.mutateId, Wanted(s.topicWave, b.wave, b.rows));
      CompleteRest(cfg, s1, b.wave, w.(scansLeft := w.scansLeft - 1));
      OneKey(s.waves, b.wave);
    }
  }

  lemma OneKey(waves: map<nat, Wave>, v: nat)
    requires v in waves
    ensures waves - {v} == map[] <==> waves.Keys == {v}
  {
    assert (waves - {v}).Keys == waves.Keys - {v};
    assert waves - {v} == map[] <==> (waves - {v}).Keys == {};
  }

  // ----- the system's -----

  /** The ways a stream ends: a held-back buffer beyond its cap, a request it cannot serve, a
      subscription that was closed and is drained, or, for a client that has nothing in flight,
      its half-close or the completion of the last wave after it. */
  ghost predicate Ends(world: World, s: Sys, step: Step)
    requires Enabled(world, s, step)
  {
    match step
    case WriterLive =>
      var r := s.queue[0];
      r.topic in s.w.catchingUp && HeldBytes(s.w.pending) + r.wire > world.cfg.maxPendingBytes
    case WriterMutate(m) => !M.Acceptable(world.cfg, s.w, m)
    case WriterAborted => true
    case WriterHalfClose => s.w.waves == map[]
    case WriterBatch => s.w.halfClosed && LastOfAll(s.w, s.lane[0])
    case _ => false
  }

  lemma StepEnds(world: World, s: Sys, step: Step)
    requires Enabled(world, s, step) && !s.ended && Sound(s.w, {}, 0, 0) && Draining(s.w)
    ensures Apply(world, s, step).ended <==> Ends(world, s, step)
  {
    hide Sound, M.Acceptable, Mutate, TakeBatch, TakeLive, DispatchRow, RunTurn, Prune, LastOfAll, StaleAfter;
    match step
    case Dispatch(k) => DispatchCases(world, s, NextRow(Table(s, k), Seen(s, k)).value);
    case WriterLive =>
      SoundBook(s.w);
      LiveVerdict(world.cfg, s.w, s.queue[0]);
    case WriterBatch => BatchVerdict(world.cfg, s.w, s.lane[0]);
    case WriterMutate(m) =>
      MutateEnds(world, s, m);
      M.SucceedsExactly(world.cfg, s.w, m);
    case _ =>
  }

  lemma SoundBook(w: State)
    requires Sound(w, {}, 0, 0)
    ensures Book(w, {}, 0)
  {
  }

  lemma {:induction false} RunDraining(world: World, run: seq<Sys>, steps: seq<Step>, i: nat)
    requires Run(world, run, steps) && i <= |steps| && !run[i].ended
    ensures Draining(run[i].w)
  {
    hide Apply, Enabled, Take;
    if i > 0 {
      var s, step := run[i - 1], steps[i - 1];
      assert Enabled(world, s, step) && run[i] == Apply(world, s, step);
      if s.ended { EndedStays(world, s, step); }
      RunDraining(world, run, steps, i - 1);
      StepDraining(world, s, step);
    }
  }

  lemma StepDraining(world: World, s: Sys, step: Step)
    requires Draining(s.w) && Enabled(world, s, step) && !Apply(world, s, step).ended
    ensures Draining(Apply(world, s, step).w)
  {
    hide Draining, Apply, Take;
    StepInput(world, s, step);
    if InputOf(s, step).Some? {
      InputAccepted(world, s, step);
      DrainStep(world.cfg, s.w, InputOf(s, step).value);
    }
  }

  lemma InputAccepted(world: World, s: Sys, step: Step)
    requires Enabled(world, s, step) && InputOf(s, step).Some?
    ensures Accepts(s.w, InputOf(s, step).value)
  {
  }

  /** A step of a live stream's run ends it exactly in these ways: taking a batch never fails, and
      no step of the tables, the poller, the dispatcher or the scans ends it. */
  lemma EndsExactly(world: World, run: seq<Sys>, steps: seq<Step>, i: nat)
    requires Run(world, run, steps) && i < |steps| && !run[i].ended
    ensures Enabled(world, run[i], steps[i])
    ensures run[i + 1].ended <==> Ends(world, run[i], steps[i])
  {
    hide Sound, Apply, Enabled, Ends, Draining;
    RunWriterSound(world, run, steps, i);
    RunDraining(world, run, steps, i);
    assert Enabled(world, run[i], steps[i]) && run[i + 1] == Apply(world, run[i], steps[i]);
    StepEnds(world, run[i], steps[i]);
  }

  lemma StepHalfCloses(world: World, s: Sys, step: Step)
    requires Enabled(world, s, step) && !Apply(world, s, step).ended
    ensures Apply(world, s, step).w.halfClosed <==> s.w.halfClosed || step.WriterHalfClose?
  {
    hide Mutate, TakeBatch, Emit, DispatchRow, RunTurn, Prune, StaleAfter;
    match step
    case Dispatch(k) => DispatchCases(world, s, NextRow(Table(s, k), Seen(s, k)).value);
    case WriterBatch => BatchLowers(world.cfg, s.w, s.lane[0]);
    case WriterMutate(m) => MutateLowers(world.cfg, s.w, m);
    case WriterLive => EmitWaves(world.cfg, s.w, 0, [s.queue[0]]);
    case _ =>
  }

  /** A stream that has not ended is half-closed exactly when its client has half-closed, and then
      some wave is still in flight. */
  lemma {:induction false} HalfClosedExactly(world: World, run: seq<Sys>, steps: seq<Step>, i: nat)
    requires Run(world, run, steps) && i <= |steps| && !run[i].ended
    ensures run[i].w.halfClosed <==> exists j :: 0 <= j < i && steps[j].WriterHalfClose?
    ensures run[i].w.halfClosed ==> run[i].w.waves != map[]
  {
    hide Apply, Enabled;
    RunDraining(world, run, steps, i);
    if i > 0 {
      var s, step := run[i - 1], steps[i - 1];
      assert Enabled(world, s, step) && run[i] == Apply(world, s, step);
      if s.ended { EndedStays(world, s, step); }
      HalfClosedExactly(world, run, steps, i - 1);
      StepHalfCloses(world, s, step);
    }
  }

  /** The poller's next row of this kind. */
  ghost predicate NextUp(s: Sys, k: Kind, r: Row) {
    r in Table(s, k) && Seen(s, k) < r.id && forall x :: x in Table(s, k) && Seen(s, k) < x.id ==> r.id <= x.id
  }

  /** A live stream's subscription is closed by one thing only: the poller offers it a row of a
      topic it subscribes to while its channel is full. */
  lemma ClosesExactly(world: World, run: seq<Sys>, steps: seq<Step>, i: nat)
    requires Run(world, run, steps) && i < |steps| && !run[i].ended
    ensures var s, step := run[i], steps[i];
            run[i + 1].open <==>
            s.open && !(step.Dispatch? && |s.queue| >= world.capacity
                        && exists r :: NextUp(s, step.kind, r) && r.known && r.topic in s.w.subscribed)
  {
    hide Inv, Sound, Apply, Enabled, NextUp;
    RunInv(world, run, steps, i);
    RunWriterSound(world, run, steps, i);
    assert Enabled(world, run[i], steps[i]) && run[i + 1] == Apply(world, run[i], steps[i]);
    StepCloses(world, run[i], steps[i]);
  }

  lemma StepCloses(world: World, s: Sys, step: Step)
    requires Enabled(world, s, step) && Inv(s) && Sound(s.w, {}, 0, 0)
    ensures Apply(world, s, step).open <==>
            s.open && !(step.Dispatch? && |s.queue| >= world.capacity
                        && exists r :: NextUp(s, step.kind, r) && r.known && r.topic in s.w.subscribed)
  {
    hide Inv, Sound, Mutate, TakeBatch, TakeLive, RunTurn, Prune, StaleAfter, DispatchRow, NextUp;
    match step
    case Dispatch(k) =>
      var r := NextRow(Table(s, k), Seen(s, k)).value;
      DispatchCases(world, s, r);
      OnlyNext(s, k, r);
      LiveSet(s.w);
    case _ =>
  }

  lemma LiveSet(w: State)
    requires Sound(w, {}, 0, 0)
    ensures w.live == w.subscribed
  {
  }

  lemma OnlyNext(s: Sys, k: Kind, r: Row)
    requires Inv(s) && NextRow(Table(s, k), Seen(s, k)) == Some(r)
    ensures forall x :: NextUp(s, k, x) <==> x == r
  {
    TablesAscend(s);
    NextRowFacts(Table(s, k), Seen(s, k));
    hide Inv;
    forall x | x in Table(s, k) && x.id == r.id ensures x == r { V.SameId(Table(s, k), x, r); }
  }
}
