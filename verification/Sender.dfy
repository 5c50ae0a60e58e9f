/** The sender goroutine and the flush of a clean completion: the handler reports success only
    when everything it queued was sent, or the client's own context has ended. */
module Sender {
  import opened Rows
  import opened WaveScan
  import opened Fetcher
  import opened Frames
  import opened Writer
  import opened AnswerCount
  import opened WriterRuns
  import Sys = StreamSystem
  import Bookkeeping
  import Theorems
  import TopicSlice

  /** `handed`: every frame the writer has queued; `outbound`: the batches in the channel;
      `sending`: what is left of the batch the sender works on; `sent`: what the transport took;
      `finished`: the sender has returned; `failed`: because a send failed; `ctxDone`: the
      client's context has ended. */
  datatype Line = Line(handed: seq<Frame>, outbound: seq<seq<Frame>>, sending: seq<Frame>, sent: seq<Frame>,
                       closed: bool, finished: bool, failed: bool, ctxDone: bool)

  datatype Step = Handoff(batch: seq<Frame>) | Receive | SendOk | SendFails | Finish | CloseOutbound | Disconnect

  const EMPTY := Line([], [], [], [], false, false, false, false)

  predicate Enabled(depth: nat, l: Line, step: Step) {
    match step
    case Handoff(batch) => !l.closed && batch != [] && |l.outbound| < depth
    case Receive => !l.finished && l.sending == [] && l.outbound != []
    case SendOk => !l.finished && l.sending != []
    case SendFails => !l.finished && l.sending != []
    case Finish => !l.finished && l.closed && l.sending == [] && l.outbound == []
    case CloseOutbound => true
    case Disconnect => true
  }

  function Apply(depth: nat, l: Line, step: Step): Line
    requires Enabled(depth, l, step)
  {
    match step
    case Handoff(batch) => l.(handed := l.handed + batch, outbound := l.outbound + [batch])
    case Receive => l.(sending := l.outbound[0], outbound := l.outbound[1..])
    case SendOk => l.(sent := l.sent + [l.sending[0]], sending := l.sending[1..])
    case SendFails => l.(finished := true, failed := true)
    case Finish => l.(finished := true)
    case CloseOutbound => l.(closed := true)
    case Disconnect => l.(ctxDone := true)
  }

  ghost predicate Run(depth: nat, run: seq<Line>, steps: seq<Step>) {
    && |run| == |steps| + 1 && run[0] == EMPTY
    && forall i :: 0 <= i < |steps| ==> Enabled(depth, run[i], steps[i]) && run[i + 1] == Apply(depth, run[i], steps[i])
  }

  function Flatten(batches: seq<seq<Frame>>): seq<Frame> {
    if batches == [] then [] else batches[0] + Flatten(batches[1..])
  }

  lemma {:induction false} FlattenSnoc(batches: seq<seq<Frame>>, b: seq<Frame>)
    ensures Flatten(batches + [b]) == Flatten(batches) + b
  {
    if batches == [] {
      assert batches + [b] == [b] && [b][1..] == [];
      assert b + [] == [] + b;
    } else {
      assert (batches + [b])[1..] == batches[1..] + [b];
      FlattenSnoc(batches[1..], b);
    }
  }

  /** Nothing is lost, repeated or reordered on the way out, and a sender that ended without a
      failure had nothing left to send. */
  ghost predicate Conserved(l: Line) {
    && l.sent + l.sending + Flatten(l.outbound) == l.handed
    && (l.finished && !l.failed ==> l.closed && l.sending == [] && l.outbound == [])
  }

  lemma StepConserves(depth: nat, l: Line, step: Step)
    requires Conserved(l) && Enabled(depth, l, step)
    ensures Conserved(Apply(depth, l, step))
  {
    match step
    case Handoff(batch) =>
      FlattenSnoc(l.outbound, batch);
      assert l.sent + l.sending + (Flatten(l.outbound) + batch) == (l.sent + l.sending + Flatten(l.outbound)) + batch;
    case Receive =>
      assert l.sent + [] + (l.outbound[0] + Flatten(l.outbound[1..]))
          == l.sent + l.outbound[0] + Flatten(l.outbound[1..]);
    case SendOk =>
      assert (l.sent + [l.sending[0]]) + l.sending[1..] == l.sent + l.sending;
    case _ =>
  }

  lemma {:induction false} RunConserves(depth: nat, run: seq<Line>, steps: seq<Step>, i: nat)
    requires Run(depth, run, steps) && i <= |steps|
    ensures Conserved(run[i])
  {
    hide Conserved, Apply, Enabled;
    if i == 0 {
      EmptyConserved();
    } else {
      RunConserves(depth, run, steps, i - 1);
      assert Enabled(depth, run[i - 1], steps[i - 1]) && run[i] == Apply(depth, run[i - 1], steps[i - 1]);
      StepConserves(depth, run[i - 1], steps[i - 1]);
    }
  }

  lemma EmptyConserved()
    ensures Conserved(EMPTY)
  {
  }

  datatype Outcome = Success | SendError | DeadlineExceeded

  /** What flush may report in a state: the sender has returned, the client is gone, or the
      deadline passed first. */
  predicate FlushMayReport(l: Line, outcome: Outcome) {
    || (l.closed && l.finished && outcome == if l.failed then SendError else Success)
    || (l.ctxDone && outcome == Success)
    || outcome == DeadlineExceeded
  }

  /** A reported success with the client still there means every queued frame was sent, in order. */
  lemma SuccessMeansDrained(depth: nat, run: seq<Line>, steps: seq<Step>, i: nat)
    requires Run(depth, run, steps) && i <= |steps|
    requires FlushMayReport(run[i], Success) && !run[i].ctxDone
    ensures run[i].sent == run[i].handed
  {
    RunConserves(depth, run, steps, i);
    assert run[i].sent + [] + Flatten([]) == run[i].sent;
  }

  /** What flush may report, exactly: success when the sender has drained the closed channel or the
      client is gone, the sender's error when a send failed; while the sender is still at work and
      the client there, nothing but the deadline. */
  lemma ReportsExactly(depth: nat, run: seq<Line>, steps: seq<Step>, i: nat)
    requires Run(depth, run, steps) && i <= |steps|
    ensures var l := run[i];
            && (FlushMayReport(l, Success) <==> l.ctxDone || (l.closed && l.finished && !l.failed))
            && (FlushMayReport(l, SendError) <==> l.closed && l.finished && l.failed)
            && FlushMayReport(l, DeadlineExceeded)
            && (l.finished && !l.failed ==> l.sent == l.handed)
  {
    RunConserves(depth, run, steps, i);
    assert run[i].sent + [] + Flatten([]) == run[i].sent;
  }

  /** These steps can be taken, one after the other. */
  predicate Possible(depth: nat, l: Line, steps: seq<Step>)
    decreases |steps|
  {
    steps == [] || (Enabled(depth, l, steps[0]) && Possible(depth, Apply(depth, l, steps[0]), steps[1..]))
  }

  function After(depth: nat, l: Line, steps: seq<Step>): Line
    requires Possible(depth, l, steps)
    decreases |steps|
  {
    if steps == [] then l else After(depth, Apply(depth, l, steps[0]), steps[1..])
  }

  /** Steps of the sender alone, all its sends going through. */
  predicate Draining(steps: seq<Step>) {
    forall step :: step in steps ==> step.Receive? || step.SendOk? || step.Finish?
  }

  lemma {:induction false} Drain(depth: nat, l: Line) returns (steps: seq<Step>)
    requires Conserved(l) && l.closed && !l.failed
    ensures Possible(depth, l, steps) && Draining(steps)
    ensures var d := After(depth, l, steps); d.finished && !d.failed && d.closed && d.sent == l.handed
    decreases !l.finished, |l.outbound|, |l.sending|
  {
    if l.finished {
      steps := [];
      assert l.sent + [] + Flatten([]) == l.sent;
    } else {
      var step := if l.sending != [] then SendOk else if l.outbound != [] then Receive else Finish;
      StepConserves(depth, l, step);
      var rest := Drain(depth, Apply(depth, l, step));
      steps := [step] + rest;
      assert steps[1..] == rest;
    }
  }

  /** Flush can succeed: from every state in which the channel has been closed and no send has
      failed, the sender alone, every send going through, gets to where all that was handed over
      has been sent and flush reports success. */
  lemma FlushCanSucceed(depth: nat, run: seq<Line>, steps: seq<Step>)
    requires Run(depth, run, steps) && run[|steps|].closed && !run[|steps|].failed
    ensures var l := run[|steps|];
            exists more :: Possible(depth, l, more) && Draining(more) && Delivered(l, After(depth, l, more))
  {
    RunConserves(depth, run, steps, |steps|);
    var more := Drain(depth, run[|steps|]);
    assert Delivered(run[|steps|], After(depth, run[|steps|], more));
  }

  predicate Delivered(l: Line, d: Line) { d.sent == l.handed && FlushMayReport(d, Success) }

  lemma {:induction false} Chain(depth: nat, l: Line, a: seq<Step>, b: seq<Step>)
    requires Possible(depth, l, a) && Possible(depth, After(depth, l, a), b)
    ensures Possible(depth, l, a + b) && After(depth, l, a + b) == After(depth, After(depth, l, a), b)
    decreases |a|
  {
    hide Enabled, Apply;
    if a == [] {
      assert a + b == b;
    } else {
      assert (a + b)[1..] == a[1..] + b;
      Chain(depth, Apply(depth, l, a[0]), a[1..], b);
    }
  }

  /** The sender can empty an open channel. */
  lemma {:induction false} DrainOpen(depth: nat, l: Line) returns (steps: seq<Step>)
    requires Conserved(l) && !l.failed && !l.finished
    ensures Possible(depth, l, steps) && Draining(steps)
    ensures var d := After(depth, l, steps);
            d == l.(sent := l.handed, sending := [], outbound := [])
    decreases |l.outbound|, |l.sending|
  {
    steps := [];
    if l.sending == [] && l.outbound == [] {
      assert l.sent + [] + Flatten([]) == l.sent;
    } else {
      var step := if l.sending != [] then SendOk else Receive;
      StepConserves(depth, l, step);
      var rest := DrainOpen(depth, Apply(depth, l, step));
      steps := [step] + rest;
      assert steps[1..] == rest;
    }
  }

  /** Steps of the writer handing over and of the sender, none of them failing. */
  predicate Serving(steps: seq<Step>) {
    forall step :: step in steps ==> !step.SendFails? && !step.Disconnect?
  }

  predicate SentAll(l: Line, frames: seq<Frame>) { l.sent == frames && FlushMayReport(l, Success) }

  predicate Working(l: Line) { !l.closed && !l.failed && !l.finished }

  lemma HandOver(depth: nat, l: Line, batch: seq<Frame>) returns (steps: seq<Step>)
    requires depth >= 1 && Conserved(l) && Working(l) && batch != []
    ensures Possible(depth, l, steps) && Serving(steps)
    ensures var d := After(depth, l, steps); Conserved(d) && Working(d) && d.handed == l.handed + batch
  {
    steps := DrainOpen(depth, l);
    var s1 := After(depth, l, steps);
    assert s1.sent + [] + Flatten([]) == s1.handed;
    StepConserves(depth, s1, Handoff(batch));
    assert [Handoff(batch)][1..] == [];
    Chain(depth, l, steps, [Handoff(batch)]);
    steps := steps + [Handoff(batch)];
  }

  /** Whatever batches the writer still has, they can be handed over. */
  lemma {:induction false} SendAll(depth: nat, l: Line, batches: seq<seq<Frame>>) returns (steps: seq<Step>)
    requires depth >= 1 && Conserved(l) && Working(l) && forall b :: b in batches ==> b != []
    ensures Possible(depth, l, steps) && Serving(steps)
    ensures var d := After(depth, l, steps); Conserved(d) && Working(d) && d.handed == l.handed + Flatten(batches)
    decreases |batches|
  {
    hide Conserved, Enabled, Apply;
    if batches == [] {
      steps := [];
      assert l.handed + [] == l.handed;
    } else {
      assert batches[0] in batches && forall b :: b in batches[1..] ==> b in batches;
      steps := HandOver(depth, l, batches[0]);
      var rest := SendAll(depth, After(depth, l, steps), batches[1..]);
      Chain(depth, l, steps, rest);
      assert (l.handed + batches[0]) + Flatten(batches[1..]) == l.handed + Flatten(batches);
      steps := steps + rest;
    }
  }

  lemma CloseAndDrain(depth: nat, l: Line) returns (steps: seq<Step>)
    requires Conserved(l) && !l.failed
    ensures Possible(depth, l, steps) && Serving(steps) && SentAll(After(depth, l, steps), l.handed)
  {
    var s1 := Apply(depth, l, CloseOutbound);
    StepConserves(depth, l, CloseOutbound);
    var rest := Drain(depth, s1);
    steps := [CloseOutbound] + rest;
    assert steps[1..] == rest;
  }

  /** The line never blocks for good: from every reachable state in which the channel is open and no
      send has failed, whatever batches the writer still has can be handed over and sent behind what
      was handed over before, and flush then reports success. */
  lemma EverythingCanBeSent(depth: nat, run: seq<Line>, steps: seq<Step>, batches: seq<seq<Frame>>)
    requires Run(depth, run, steps) && depth >= 1 && !run[|steps|].closed && !run[|steps|].failed
    requires forall b :: b in batches ==> b != []
    ensures var l := run[|steps|];
            exists more :: Possible(depth, l, more) && Serving(more)
                           && SentAll(After(depth, l, more), l.handed + Flatten(batches))
  {
    RunConserves(depth, run, steps, |steps|);
    hide Run, Conserved, Flatten;
    var l := run[|steps|];
    var first := SendAll(depth, l, batches);
    var s1 := After(depth, l, first);
    var last := CloseAndDrain(depth, s1);
    Chain(depth, l, first, last);
    hide After, Possible;
    assert SentAll(After(depth, l, first + last), l.handed + Flatten(batches));
  }

  /** The channel never holds more batches than it has room for. */
  lemma {:induction false} ChannelBounded(depth: nat, run: seq<Line>, steps: seq<Step>, i: nat)
    requires Run(depth, run, steps) && i <= |steps|
    ensures |run[i].outbound| <= depth
  {
    if i > 0 {
      ChannelBounded(depth, run, steps, i - 1);
      assert Enabled(depth, run[i - 1], steps[i - 1]) && run[i] == Apply(depth, run[i - 1], steps[i - 1]);
    }
  }

  /** End to end: when the writer finishes cleanly and flush reports success to a client that is
      still there, the client has been sent exactly one CatchupComplete for every Mutate it made. */
  lemma SuccessMeansAnswered(cfg: Config, states: seq<State>, inputs: seq<Input>, last: Input, id: nat,
                             depth: nat, run: seq<Line>, steps: seq<Step>, i: nat)
    requires WriterRun(cfg, states, inputs) && Accepts(states[|inputs|], last)
    requires Take(cfg, states[|inputs|], last).1 == Close
    requires Run(depth, run, steps) && i <= |steps| && run[i].handed == Take(cfg, states[|inputs|], last).0.out
    requires FlushMayReport(run[i], Success) && !run[i].ctxDone
    ensures Answers(run[i].sent, id) == Asked(inputs, id)
  {
    hide Take, WriterRun;
    SuccessMeansDrained(depth, run, steps, i);
    CleanCloseAnswersAll(cfg, states, inputs, last, id);
  }

  // ----- what the client holds -----

  lemma FinishGrows(cfg: Config, f: Fold, v: nat, mutateId: nat)
    ensures f.s.out < FinishFold(cfg, f, v, mutateId).out
    ensures var out := FinishFold(cfg, f, v, mutateId).out; out[|out| - 1] == CatchupComplete(mutateId)
  {
    hide Pack, Survivors, Advance, SortById;
  }

  lemma CompleteGrows(cfg: Config, w: State, v: nat, wave: Wave)
    ensures var out := CompleteWave(cfg, w, v, wave).out;
            w.out < out && out[|out| - 1] == CatchupComplete(wave.mutateId)
  {
    TopicSlice.SettleAllOut(Fold(w, [], [], []), v, wave.topics);
    hide SettleAll, FinishFold;
    FinishGrows(cfg, SettleAll(Fold(w, [], [], []), v, wave.topics), v, wave.mutateId);
  }

  lemma BatchGrows(cfg: Config, w: State, b: Batch)
    ensures w.out <= TakeBatch(cfg, w, b).0.out
  {
    hide CompleteWave, Pack, Survivors, Advance, Wanted;
    if b.wave in w.waves {
      var wave := w.waves[b.wave];
      var w1 := Emit(cfg, w, wave.mutateId, Wanted(w.topicWave, b.wave, b.rows));
      CompleteGrows(cfg, w1, b.wave, wave.(scansLeft := wave.scansLeft - 1));
    }
  }

  lemma DropGrows(w: State, t: Topic)
    ensures w.out <= DropTopic(w, t).out
  {
    Bookkeeping.SilenceFields(w, t);
    hide Silence;
  }

  lemma {:induction false} DropAllGrows(w: State, removes: seq<seq<byte>>)
    ensures w.out <= DropAll(w, removes).0.out
    decreases |removes|
  {
    hide DropTopic;
    if removes != [] && SplitTopic(removes[0]).Some? {
      DropGrows(w, SplitTopic(removes[0]).value);
      DropAllGrows(DropTopic(w, SplitTopic(removes[0]).value), removes[1..]);
    }
  }

  lemma {:induction false} AddAllGrows(a: Adding, order: seq<Topic>, cursors: map<Topic, nat>, mutateId: nat,
                                       historyOnly: bool)
    requires forall t :: t in order ==> t in cursors
    ensures a.s.out <= AddAll(a, order, cursors, mutateId, historyOnly).0.s.out
    decreases |order|
  {
    hide DropTopic;
    if order != [] {
      DropGrows(a.s, order[0]);
      var next := AddOne(a, order[0], cursors[order[0]], mutateId, historyOnly).0;
      AddAllGrows(next, order[1..], cursors, mutateId, historyOnly);
    }
  }

  lemma MutateGrows(cfg: Config, w: State, m: MutateReq)
    ensures w.out <= Mutate(cfg, w, m).s.out
  {
    DropAllGrows(w, m.removes);
    hide DropAll, AddAll, ParseAdds;
    match ParseAdds(Parsed([], map[]), m.adds)
    case None =>
    case Some(p) =>
      ParseKeepsOrder(Parsed([], map[]), m.adds);
      AddAllGrows(Adding(DropAll(w, m.removes).0, [], [], 0), p.order, p.cursors, m.mutateId, m.historyOnly);
  }

  lemma StepGrows(world: Sys.World, s: Sys.Sys, step: Sys.Step)
    requires Sys.Enabled(world, s, step)
    ensures s.w.out <= Sys.Apply(world, s, step).w.out
  {
    hide TakeBatch, Mutate, Pack, Survivors, Advance;
    match step
    case WriterBatch => BatchGrows(world.cfg, s.w, s.lane[0]);
    case WriterMutate(m) => MutateGrows(world.cfg, s.w, m);
    case _ =>
  }

  /** Frames handed to the sender are never taken back. */
  lemma {:induction false} RunGrows(world: Sys.World, run: seq<Sys.Sys>, steps: seq<Sys.Step>, i: nat, j: nat)
    requires Sys.Run(world, run, steps) && i <= j <= |steps|
    ensures run[i].w.out <= run[j].w.out
  {
    hide Sys.Apply, Sys.Enabled;
    if i < j {
      RunGrows(world, run, steps, i, j - 1);
      StepGrows(world, run[j - 1], steps[j - 1]);
    }
  }

  lemma CompletionAnswers(world: Sys.World, s: Sys.Sys)
    requires !s.ended && Theorems.Completing(s)
    ensures var out := Sys.Apply(world, s, Sys.WriterBatch).w.out;
            |s.w.out| < |out| && out[|out| - 1] == CatchupComplete(s.w.waves[s.lane[0].wave].mutateId)
  {
    var b := s.lane[0];
    var w := s.w.waves[b.wave];
    hide CompleteWave, Pack, Survivors, Advance, Wanted;
    CompleteGrows(world.cfg, Emit(world.cfg, s.w, w.mutateId, Wanted(s.w.topicWave, b.wave, b.rows)), b.wave,
                  w.(scansLeft := w.scansLeft - 1));
  }

  function ScanId(s: Sys.Sys, t: Topic): Sys.ScanId
    requires t in s.w.topicWave
  {
    Sys.ScanId(s.w.topicWave[t], t.kind)
  }

  /** End to end, for the rows: a client to which flush reported success was sent, ahead of each
      CatchupComplete, exactly the rows of each topic of that wave from its floor to its replay's
      bound, each once and in id order; the bound reaches every row visible when the wave began.
      `n` is where the stream ended, `i` where the wave did. */
  lemma SuccessMeansReplayed(world: Sys.World, run: seq<Sys.Sys>, steps: seq<Sys.Step>, i: nat, n: nat, t: Topic,
                             depth: nat, lines: seq<Line>, moves: seq<Step>, k: nat)
    requires Sys.Run(world, run, steps) && i < n <= |steps| && !run[i].ended && steps[i] == Sys.WriterBatch
    requires Theorems.Completing(run[i]) && Owns(run[i].w, run[i].lane[0].wave, t) && t !in run[i].stale
    requires Run(depth, lines, moves) && k <= |moves| && lines[k].handed == run[n].w.out
    requires FlushMayReport(lines[k], Success) && !lines[k].ctxDone
    ensures t in run[i].w.epochs && ScanId(run[i], t) in run[i].scans
    ensures var s, sent := run[i], lines[k].sent;
            var e, upTo := s.w.epochs[t], |run[i + 1].w.out| - 1;
            && |s.w.out| <= upTo < |sent| && sent[upTo] == CatchupComplete(s.w.waves[s.lane[0].wave].mutateId)
            && sent[..|s.w.out|] == s.w.out
            && Sys.DeliveredSince(sent[..|s.w.out|], e.start, t)
               == Between(Sys.Table(s, t.kind), t, e.floor, Theorems.ReplayBound(s, t))
    ensures forall j, r ::
              (0 <= j <= i && run[j].w.nextWave <= run[i].lane[0].wave && r in Sys.Table(run[j], t.kind)
               && run[i].w.epochs[t].floor < r.id) ==> r.id <= Theorems.ReplayBound(run[i], t)
  {
    hide Theorems.Completing, Sys.Apply, Sys.Enabled, Theorems.ReplayBound, Sys.DeliveredSince, Between;
    SuccessMeansDrained(depth, lines, moves, k);
    RunGrows(world, run, steps, i, i + 1);
    RunGrows(world, run, steps, i + 1, n);
    assert Sys.Enabled(world, run[i], steps[i]) && run[i + 1] == Sys.Apply(world, run[i], steps[i]);
    CompletionAnswers(world, run[i]);
    Theorems.CatchupCompleteIsTrue(world, run, steps, i, t);
  }
}
