/** What each step of a live stream sends, frame by frame. */
module Output {
  import opened Rows
  import opened WaveScan
  import opened Fetcher
  import opened Frames
  import opened Writer
  import opened StreamSystem
  import opened Bookkeeping
  import opened TopicSlice
  import opened Delivery
  import opened LogSteps
  import opened AnswerCount
  import opened WriterRuns
  import opened Completion
  import opened Theorems
  import MutateShape
  import WriterSteps

  // ----- a Mutate only answers -----

  /** What follows `before` in `after` are answers. */
  ghost predicate Acks(before: seq<Frame>, after: seq<Frame>) {
    before <= after && forall i :: |before| <= i < |after| ==> after[i].CatchupComplete?
  }

  lemma AcksOn(a: seq<Frame>, b: seq<Frame>, c: seq<Frame>)
    requires Acks(a, b) && Acks(b, c)
    ensures Acks(a, c)
  {
  }

  lemma DropAcks(s: State, t: Topic)
    ensures Acks(s.out, DropTopic(s, t).out)
  {
    SilenceFields(s, t);
    hide Silence;
  }

  lemma {:induction false} DropAllAcks(s: State, removes: seq<seq<byte>>)
    ensures Acks(s.out, DropAll(s, removes).0.out)
    decreases |removes|
  {
    hide DropTopic, SplitTopic, Acks;
    AcksNothing(s.out);
    if removes != [] && SplitTopic(removes[0]).Some? {
      var d := DropTopic(s, SplitTopic(removes[0]).value);
      DropAcks(s, SplitTopic(removes[0]).value);
      DropAllAcks(d, removes[1..]);
      AcksOn(s.out, d.out, DropAll(s, removes).0.out);
    }
  }

  lemma AcksNothing(out: seq<Frame>)
    ensures Acks(out, out)
  {
  }

  lemma AddOneAcks(a: Adding, t: Topic, cursor: nat, mutateId: nat, historyOnly: bool)
    ensures Acks(a.s.out, AddOne(a, t, cursor, mutateId, historyOnly).0.s.out)
  {
    DropAcks(a.s, t);
    hide DropTopic;
  }

  lemma {:induction false} AddAllAcks(a: Adding, order: seq<Topic>, cursors: map<Topic, nat>, mutateId: nat,
                                      historyOnly: bool)
    requires forall t :: t in order ==> t in cursors
    ensures Acks(a.s.out, AddAll(a, order, cursors, mutateId, historyOnly).0.s.out)
    decreases |order|
  {
    hide AddOne, Acks;
    AcksNothing(a.s.out);
    if order != [] {
      var (a', v) := AddOne(a, order[0], cursors[order[0]], mutateId, historyOnly);
      AddOneAcks(a, order[0], cursors[order[0]], mutateId, historyOnly);
      if v == Continue {
        AddAllAcks(a', order[1..], cursors, mutateId, historyOnly);
        AcksOn(a.s.out, a'.s.out, AddAll(a', order[1..], cursors, mutateId, historyOnly).0.s.out);
      }
    }
  }

  lemma MutateAcks(cfg: Config, s: State, m: MutateReq)
    requires Mutate(cfg, s, m).verdict == Continue
    ensures Acks(s.out, Mutate(cfg, s, m).s.out)
  {
    hide Mutate, DropAll, AddAll, ParseAdds, Acks;
    MutateShape.MutateUnfolds(cfg, s, m);
    var p := ParseAdds(Parsed([], map[]), m.adds).value;
    ParseKeepsOrder(Parsed([], map[]), m.adds);
    var s1 := DropAll(s, m.removes).0;
    DropAllAcks(s, m.removes);
    AddAllAcks(Adding(s1, [], [], 0), p.order, p.cursors, m.mutateId, m.historyOnly);
    var a := MutateShape.RunAdds(s, m).0;
    AcksOn(s.out, s1.out, a.s.out);
    OneAck(s.out, a.s.out, m.mutateId);
  }

  lemma OneAck(before: seq<Frame>, after: seq<Frame>, id: nat)
    requires Acks(before, after)
    ensures Acks(before, after + [CatchupComplete(id)])
  {
  }

  // ----- messages -----

  /** Message frames under this id, none empty or, but for a single message, over the cap, and none
      closed while the next message would have fitted. */
  ghost predicate Framed(frames: seq<Frame>, mutateId: nat, maxFrameBytes: int) {
    && (forall i :: 0 <= i < |frames| ==> Fits(frames[i], mutateId, maxFrameBytes))
    && (forall i :: 0 <= i < |frames| - 1 ==>
          TotalSize(frames[i].rows) + frames[i + 1].rows[0].size > maxFrameBytes)
  }

  lemma {:induction false} WantedSorted(topicWave: map<Topic, nat>, v: nat, rows: seq<Row>)
    requires NonDescending(rows)
    ensures NonDescending(Wanted(topicWave, v, rows)) && forall r :: r in Wanted(topicWave, v, rows) ==> r in rows
    decreases |rows|
  {
    hide NonDescending;
    if rows != [] {
      assert rows == [rows[0]] + rows[1..];
      SortedTail(rows);
      WantedSorted(topicWave, v, rows[1..]);
      SortedCons(rows[0], Wanted(topicWave, v, rows[1..]));
    }
  }

  /** The history a batch adds: of each topic its wave still owns, the rows above the topic's mark. */
  ghost predicate History(w: State, b: Batch, more: seq<Frame>, maxFrameBytes: int)
    requires b.wave in w.waves
  {
    && Framed(more, w.waves[b.wave].mutateId, maxFrameBytes)
    && (forall t :: Proj(RowsIn(more), t) ==
          if t in w.topicWave && w.topicWave[t] == b.wave then Rise(Mark(w.highWater, t), Proj(b.rows, t)) else [])
    && (NonDescending(b.rows) ==> NonDescending(RowsIn(more)))
  }

  lemma EmitHistory(cfg: Config, w: State, b: Batch) returns (more: seq<Frame>)
    requires b.wave in w.waves
    ensures Emit(cfg, w, w.waves[b.wave].mutateId, Wanted(w.topicWave, b.wave, b.rows)).out == w.out + more
    ensures History(w, b, more, cfg.maxFrameBytes)
  {
    hide Pack, Survivors, Advance, Wanted, RowsIn, Fits, NonDescending;
    var msgs := Wanted(w.topicWave, b.wave, b.rows);
    var id := w.waves[b.wave].mutateId;
    more := Pack(id, cfg.maxFrameBytes, Survivors(w.highWater, msgs));
    PackMeaning(id, cfg.maxFrameBytes, Survivors(w.highWater, msgs));
    forall t ensures Proj(RowsIn(more), t) ==
                     if t in w.topicWave && w.topicWave[t] == b.wave
                     then Rise(Mark(w.highWater, t), Proj(b.rows, t)) else []
    {
      SurvivorsOfTopic(w.highWater, msgs, t);
      WantedOfTopic(w.topicWave, b.wave, b.rows, t);
    }
    if NonDescending(b.rows) {
      WantedSorted(w.topicWave, b.wave, b.rows);
      SurvivorsSorted(w.highWater, msgs);
    }
  }

  /** An envelope of an open topic goes out under 0 unless it is a duplicate; a gated one waits. */
  ghost predicate Tail(w: State, r: Row, more: seq<Frame>, maxFrameBytes: int) {
    && Framed(more, 0, maxFrameBytes)
    && RowsIn(more) == if r.topic !in w.catchingUp && Mark(w.highWater, r.topic) < r.id then [r] else []
  }

  lemma LiveTail(cfg: Config, w: State, r: Row) returns (more: seq<Frame>)
    ensures TakeLive(cfg, w, r).0.out == w.out + more && Tail(w, r, more, cfg.maxFrameBytes)
  {
    hide Pack, Fits, RowsIn;
    OneSurvivor(w.highWater, r);
    var kept := if r.topic in w.catchingUp then [] else Survivors(w.highWater, [r]);
    more := Pack(0, cfg.maxFrameBytes, kept);
    PackMeaning(0, cfg.maxFrameBytes, kept);
    if r.topic in w.catchingUp {
      PackNothing(0, cfg.maxFrameBytes);
      assert w.out + [] == w.out;
    }
  }

  lemma OneSurvivor(hw: Marks, r: Row)
    ensures Survivors(hw, [r]) == if Mark(hw, r.topic) < r.id then [r] else []
  {
    assert [r][1..] == [] && [r] + [] == [r];
    assert forall m :: Survivors(m, []) == [];
  }

  lemma PackNothing(mutateId: nat, maxFrameBytes: int)
    ensures Pack(mutateId, maxFrameBytes, []) == []
  {
  }

  // ----- every step -----

  /** What a step sends. A live envelope goes out as `Tail` says. A batch of a wave in flight brings
      history, and its last marker the wave's completion; any other batch brings nothing. A Mutate
      brings answers, one for its own id unless it starts a wave and one for each wave it empties.
      No other step sends anything. */
  ghost predicate Sends(world: World, s: Sys, step: Step, d: Sys, more: seq<Frame>)
    requires Enabled(world, s, step)
  {
    match step
    case WriterLive => Tail(s.w, s.queue[0], more, world.cfg.maxFrameBytes)
    case WriterBatch =>
      var b := s.lane[0];
      if b.wave !in s.w.waves || (b.done && s.w.waves[b.wave].scansLeft > 1) then more == []
      else if !b.done then History(s.w, b, more, world.cfg.maxFrameBytes)
      else
        exists frames, marker ::
          Announced(s.w, d.w, b.wave, s.w.waves[b.wave].mutateId, world.cfg.maxFrameBytes, frames, marker)
    case WriterMutate(m) =>
      && (forall i :: 0 <= i < |more| ==> more[i].CatchupComplete?)
      && forall id ::
           Answers(more, id) == (if id == m.mutateId then 1 else 0) + (if InFlight(s.w, id) then 1 else 0)
                                - (if InFlight(d.w, id) then 1 else 0)
    case _ => more == []
  }

  lemma BatchSends(world: World, s: Sys) returns (more: seq<Frame>)
    requires Inv(s) && Sound(s.w, {}, 0, 0) && Enabled(world, s, WriterBatch)
    ensures var d := Apply(world, s, WriterBatch);
            d.w.out == s.w.out + more && Sends(world, s, WriterBatch, d, more)
  {
    hide Inv, Sound, Announced, History, CompleteWave, Emit, Afterwards;
    var b, w := s.lane[0], s.w;
    if b.done { WriterSteps.MarkerIsEmpty(s); }
    more := [];
    assert w.out + [] == w.out;
    if b.wave in w.waves {
      if !b.done {
        more := EmitHistory(world.cfg, w, b);
      } else {
        WriterSteps.EmitNothing(world.cfg, w, w.waves[b.wave].mutateId, b.wave);
        if w.waves[b.wave].scansLeft <= 1 {
          CompletionIsExact(world.cfg, w, b);
          more := AnnouncedMore(w, TakeBatch(world.cfg, w, b).0, b.wave, w.waves[b.wave].mutateId,
                                world.cfg.maxFrameBytes);
        }
      }
    }
  }

  lemma AnnouncedMore(s: State, d: State, v: nat, mutateId: nat, maxFrameBytes: int) returns (more: seq<Frame>)
    requires exists frames, marker :: Announced(s, d, v, mutateId, maxFrameBytes, frames, marker)
    ensures d.out == s.out + more
  {
    var frames, marker :| Announced(s, d, v, mutateId, maxFrameBytes, frames, marker);
    more := frames + [TopicsLive(marker), CatchupComplete(mutateId)];
    assert s.out + frames + [TopicsLive(marker), CatchupComplete(mutateId)] == s.out + more;
  }

  lemma MutateSends(world: World, s: Sys, m: MutateReq) returns (more: seq<Frame>)
    requires Sound(s.w, {}, 0, 0) && Enabled(world, s, WriterMutate(m)) && !Apply(world, s, WriterMutate(m)).ended
    ensures var d := Apply(world, s, WriterMutate(m));
            d.w.out == s.w.out + more && Sends(world, s, WriterMutate(m), d, more)
  {
    hide Sound, Mutate, Answers, InFlight, StaleAfter, Spawned;
    MutateEnds(world, s, m);
    MutateAcks(world.cfg, s.w, m);
    MutateSound(world.cfg, s.w, m);
    var out := Mutate(world.cfg, s.w, m).s.out;
    more := out[|s.w.out|..];
    assert out == s.w.out + more;
    assert forall i :: 0 <= i < |more| ==> more[i] == out[|s.w.out| + i];
    forall id ensures Answers(out, id) == Answers(s.w.out, id) + Answers(more, id) { AnswersConcat(s.w.out, more, id); }
    assert Apply(world, s, WriterMutate(m)).w == Mutate(world.cfg, s.w, m).s;
    forall id
      ensures Answers(more, id) == (if id == m.mutateId then 1 else 0) + (if InFlight(s.w, id) then 1 else 0)
                                   - (if InFlight(Mutate(world.cfg, s.w, m).s, id) then 1 else 0)
    {
      assert Owed(Mutate(world.cfg, s.w, m).s, id) == Owed(s.w, id) + if id == m.mutateId then 1 else 0;
    }
  }

  lemma StepSends(world: World, s: Sys, step: Step) returns (more: seq<Frame>)
    requires Inv(s) && Sound(s.w, {}, 0, 0) && Enabled(world, s, step)
    requires step.WriterMutate? ==> !Apply(world, s, step).ended
    ensures var d := Apply(world, s, step); d.w.out == s.w.out + more && Sends(world, s, step, d, more)
  {
    hide Inv, Sound, Mutate, TakeBatch, TakeLive, DispatchRow, RunTurn, Prune, StaleAfter, Tail, History, Announced;
    more := [];
    assert s.w.out + [] == s.w.out;
    match step
    case Dispatch(k) => DispatchCases(world, s, NextRow(Table(s, k), Seen(s, k)).value);
    case WriterLive => more := LiveTail(world.cfg, s.w, s.queue[0]);
    case WriterBatch => more := BatchSends(world, s);
    case WriterMutate(m) => more := MutateSends(world, s, m);
    case _ =>
  }

  /** Everything a live stream sends, step by step, in every run. */
  lemma OutputIsExact(world: World, run: seq<Sys>, steps: seq<Step>, i: nat)
    requires Run(world, run, steps) && i < |steps| && !run[i].ended
    requires steps[i].WriterMutate? ==> !run[i + 1].ended
    ensures Enabled(world, run[i], steps[i])
    ensures exists more :: run[i + 1].w.out == run[i].w.out + more && Sends(world, run[i], steps[i], run[i + 1], more)
  {
    hide Inv, Sound, Apply, Enabled, Sends;
    RunInv(world, run, steps, i);
    RunWriterSound(world, run, steps, i);
    assert Enabled(world, run[i], steps[i]) && run[i + 1] == Apply(world, run[i], steps[i]);
    var more := StepSends(world, run[i], steps[i]);
  }

  /** Started is the first frame of a stream and is never sent again. */
  lemma {:induction false} StartedOnce(world: World, run: seq<Sys>, steps: seq<Step>, i: nat)
    requires Run(world, run, steps) && i <= |steps| && !run[i].ended
    ensures var out := run[i].w.out; out != [] && out[0] == Started && forall k :: 0 < k < |out| ==> out[k] != Started
  {
    if i > 0 {
      hide Apply, Enabled, Sends;
      var s, step := run[i - 1], steps[i - 1];
      assert Enabled(world, s, step) && run[i] == Apply(world, s, step);
      if s.ended { EndedStays(world, s, step); }
      StartedOnce(world, run, steps, i - 1);
      OutputIsExact(world, run, steps, i - 1);
      var more :| run[i].w.out == s.w.out + more && Sends(world, s, step, run[i], more);
      NoStarted(world, s, step, run[i], more);
    }
  }

  lemma NoStarted(world: World, s: Sys, step: Step, d: Sys, more: seq<Frame>)
    requires Enabled(world, s, step) && d.w.out == s.w.out + more && Sends(world, s, step, d, more)
    ensures forall k :: 0 <= k < |more| ==> more[k] != Started
  {
    hide RowsIn, Answers, InFlight;
    if step.WriterBatch? && s.lane[0].wave in s.w.waves && s.lane[0].done
       && s.w.waves[s.lane[0].wave].scansLeft <= 1 {
      var b := s.lane[0];
      var frames, marker :|
        Announced(s.w, d.w, b.wave, s.w.waves[b.wave].mutateId, world.cfg.maxFrameBytes, frames, marker);
      var sent := frames + [TopicsLive(marker), CatchupComplete(s.w.waves[b.wave].mutateId)];
      assert s.w.out + sent == s.w.out + more;
      assert more == (s.w.out + more)[|s.w.out|..] == (s.w.out + sent)[|s.w.out|..] == sent;
    }
  }
}
