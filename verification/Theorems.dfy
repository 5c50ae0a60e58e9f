/** What every run of a live stream guarantees: exact, gap-free, in-order delivery across the
    store, the poller, the dispatcher, the scans and the writer. */
module Theorems {
  import opened Rows
  import opened WaveScan
  import opened Fetcher
  import opened Frames
  import opened Writer
  import opened StreamSystem
  import opened Bookkeeping
  import opened TopicSlice
  import opened Delivery
  import opened EpochLog
  import opened LogSteps
  import opened WriterRuns
  import WriterSteps
  import MutateSteps
  import V = TopicView

  // ----- every reachable state -----

  /** Every step of a stream that has not returned keeps the invariant. */
  lemma StepKeeps(world: World, s: Sys, step: Step)
    requires Inv(s) && Enabled(world, s, step)
    ensures Apply(world, s, step).ended || Inv(Apply(world, s, step))
  {
    hide Inv, Apply;
    match step
    case Publish(row) => InvPublish(world, s, row);
    case Dispatch(k) => InvDispatch(world, s, k);
    case Snapshot(id) => InvSnapshot(world, s, id);
    case Refresh(id, fails) => InvRefresh(world, s, id, fails);
    case ScanTurn(id) => InvTurn(world, s, id);
    case Finish(id) => InvFinish(world, s, id);
    case WriterBatch => WriterSteps.InvBatch(world, s); Unended(world, s, step);
    case WriterLive => WriterSteps.InvLive(world, s); Unended(world, s, step);
    case WriterHalfClose => WriterSteps.InvHalfClose(world, s); Unended(world, s, step);
    case WriterAborted => Aborted(world, s);
    case WriterMutate(m) =>
      MutateEnds(world, s, m);
      if !Apply(world, s, step).ended { MutateSteps.InvMutate(world, s, m); }
  }

  lemma Unended(world: World, s: Sys, step: Step)
    requires Enabled(world, s, step) && (step.WriterBatch? || step.WriterLive? || step.WriterHalfClose?)
    ensures !s.ended
    ensures !Apply(world, s, step).ended ==> Apply(world, s, step).(ended := s.ended) == Apply(world, s, step)
  {
  }

  lemma Aborted(world: World, s: Sys)
    requires Enabled(world, s, WriterAborted)
    ensures Apply(world, s, WriterAborted).ended
  {
  }

  lemma MutateEnds(world: World, s: Sys, m: MutateReq)
    requires Enabled(world, s, WriterMutate(m))
    ensures Apply(world, s, WriterMutate(m)).ended <==> Mutate(world.cfg, s.w, m).verdict != Continue
  {
    hide Mutate;
  }

  lemma EndedStays(world: World, s: Sys, step: Step)
    requires Enabled(world, s, step) && s.ended
    ensures Apply(world, s, step).ended
  {
  }

  lemma {:induction false} RunInv(world: World, run: seq<Sys>, steps: seq<Step>, i: nat)
    requires Run(world, run, steps) && i <= |steps|
    ensures run[i].ended || Inv(run[i])
  {
    hide Inv;
    if i == 0 {
      InitialInv(run[0]);
    } else {
      hide Apply, Enabled;
      RunInv(world, run, steps, i - 1);
      var s, step := run[i - 1], steps[i - 1];
      assert Enabled(world, s, step) && run[i] == Apply(world, s, step);
      if s.ended { EndedStays(world, s, step); } else { StepKeeps(world, s, step); }
    }
  }

  // ----- delivery -----

  /** For an open topic, what was sent followed by what is still queued (less duplicates) is
      exactly the topic's rows from the floor to the last row offered. */
  lemma OpenExact(v: V.View, t: Topic)
    requires V.ViewOk(v, t) && Ascending(v.tab) && !v.inWave
    ensures Exactly(v.tab, t, v.floor, v.hw, v.del)
    ensures Exactly(v.tab, t, v.floor, Max(v.hw, v.seen), v.del + Rise(v.hw, v.queued))
  {
    assert v.held + v.queued == v.queued;
    AheadExact(v.tab, t, v.hw, v.seen, v.queued);
    ExactlyAppend(v.tab, t, v.floor, v.hw, Max(v.hw, v.seen), v.del, Rise(v.hw, v.queued));
  }

  lemma AheadExact(tab: seq<Row>, t: Topic, hw: nat, seen: nat, q: seq<Row>)
    requires Ascending(q) && V.FromTable(tab, t, seen, q) && V.Covers(tab, t, hw, seen, q)
    ensures Exactly(tab, t, hw, Max(hw, seen), Rise(hw, q))
  {
    RiseOfAscending(hw, q);
    RiseRows(hw, q);
  }

  /** When a gated topic's scan is over and handed over, what was sent followed by what is
      buffered and queued (less duplicates) is exactly the topic's rows from the floor to the
      scan's bound and the last row offered, whichever is higher. */
  lemma ReplayExact(v: V.View, t: Topic)
    requires V.ViewOk(v, t) && Ascending(v.tab) && v.inWave && v.started && v.flight == [] && v.pos == v.end
    ensures v.floor <= v.end && Exactly(v.tab, t, v.floor, v.end, v.del)
    ensures v.gated ==> Exactly(v.tab, t, v.floor, Max(v.end, v.seen), v.del + Rise(v.hw, v.held + v.queued))
  {
    ExactlyAppend(v.tab, t, v.floor, v.hw, v.end, v.del, []);
    assert v.del + [] == v.del;
    if v.gated {
      var q := v.held + v.queued;
      RiseOfAscending(v.hw, q);
      RiseRows(v.hw, q);
      forall r
        ensures r in Rise(v.hw, q)
            <==> r in v.tab && r.topic == t && r.known && v.hw < r.id <= Max(v.end, v.seen) {
        if r in v.tab && r.topic == t && r.known && v.hw < r.id <= Max(v.end, v.seen) {
          assert r.id <= v.end ==> r in v.flight;
        }
      }
      ExactlyAppend(v.tab, t, v.floor, v.hw, Max(v.end, v.seen), v.del, Rise(v.hw, q));
    }
  }

  /** The facts a reader may use about a registered topic of a stream that has not returned. */
  lemma TopicFacts(s: Sys, t: Topic)
    requires Inv(s) && t in s.w.epochs && t !in s.stale
    ensures V.ViewOk(ViewOf(s, t), t) && Ascending(Table(s, t.kind))
    ensures var v, e := ViewOf(s, t), s.w.epochs[t];
            && v.tab == Table(s, t.kind) && v.seen == Seen(s, t.kind)
            && v.queued == Proj(s.queue, t) && v.floor == e.floor
            && v.del == DeliveredSince(s.w.out, e.start, t) && v.hw == Mark(s.w.highWater, t)
            && v.held == PendingOf(s.w, t)
            && (v.inWave <==> t in s.w.topicWave) && (v.gated <==> t in s.w.catchingUp)
  {
    hide QueueOk, Book, ScansOk, LaneOk, WaveScans, StaleOk;
    assert TopicOk(s, t) && TableOk(s.groups, Group) && TableOk(s.welcomes, Welcome);
    hide V.ViewOk, DeliveredSince, InLane, Position, Proj, TopicOk;
  }

  lemma LiveTopics(s: Sys, t: Topic)
    requires Inv(s) && t in s.w.subscribed
    ensures t in s.w.epochs && t !in s.stale && (t in s.w.catchingUp <==> t in s.w.topicWave)
  {
    hide QueueOk, ScansOk, LaneOk, WaveScans, TopicsOk, EnvOk, Gauges, Waves, Ids;
  }

  /** End-to-end delivery. In every state a live stream can reach, by any interleaving of
      publishes, polls, scans, batches, live envelopes and Mutates: the rows sent for a
      subscribed topic since its registration are exactly that topic's rows above its floor up
      to its high-water mark, each once and in id order; and once its gate is open, adding what
      its channel still holds gives exactly its rows above the floor up to everything the
      poller has offered. Nothing is lost, repeated or reordered. */
  lemma EndToEndDelivery(world: World, run: seq<Sys>, steps: seq<Step>, i: nat, t: Topic)
    requires Run(world, run, steps) && i <= |steps| && !run[i].ended && t in run[i].w.subscribed
    ensures t in run[i].w.epochs
    ensures var s := run[i];
            var e, hw := s.w.epochs[t], Mark(s.w.highWater, t);
            var sent := DeliveredSince(s.w.out, e.start, t);
            && sent == Between(Table(s, t.kind), t, e.floor, hw)
            && (t !in s.w.catchingUp ==>
                  sent + Rise(hw, Proj(s.queue, t)) == Between(Table(s, t.kind), t, e.floor, Max(hw, Seen(s, t.kind))))
  {
    var s := run[i];
    RunInv(world, run, steps, i);
    hide Inv, Run;
    LiveTopics(s, t);
    TopicFacts(s, t);
    var v := ViewOf(s, t);
    SentExact(v, t);
    if t !in s.w.catchingUp { OpenIsBetween(v, t); }
  }

  lemma SentExact(v: V.View, t: Topic)
    requires V.ViewOk(v, t) && Ascending(v.tab)
    ensures v.del == Between(v.tab, t, v.floor, v.hw)
  {
    ExactlyIsBetween(v.tab, t, v.floor, v.hw, v.del);
  }

  lemma OpenIsBetween(v: V.View, t: Topic)
    requires V.ViewOk(v, t) && Ascending(v.tab) && !v.inWave
    ensures v.del + Rise(v.hw, v.queued) == Between(v.tab, t, v.floor, Max(v.hw, v.seen))
  {
    OpenExact(v, t);
    ExactlyIsBetween(v.tab, t, v.floor, Max(v.hw, v.seen), v.del + Rise(v.hw, v.queued));
  }

  // ----- completion -----

  /** The bound of a topic's replay: its cursor if the first ceiling had nothing above it, else
      the ceiling its scan ended up with. */
  function ReplayBound(s: Sys, t: Topic): nat
    requires t in s.w.epochs && t in s.w.topicWave && ScanId(s.w.topicWave[t], t.kind) in s.scans
  {
    var sc := s.scans[ScanId(s.w.topicWave[t], t.kind)];
    Bound(s.w.epochs[t].floor, sc.first, sc.ceiling)
  }

  /** The next batch is the last done marker of its wave. */
  predicate Completing(s: Sys) {
    && s.lane != [] && s.lane[0].done && s.lane[0].wave in s.w.waves
    && s.w.waves[s.lane[0].wave].scansLeft - 1 <= 0
  }

  lemma CompletingView(s: Sys, t: Topic)
    requires Inv(s) && Completing(s) && Owns(s.w, s.lane[0].wave, t)
    ensures t in s.w.epochs && ScanId(s.w.topicWave[t], t.kind) in s.scans
    ensures var v := ViewOf(s, t); v.started && v.flight == [] && v.pos == v.end && v.end == ReplayBound(s, t)
  {
    var v, s1 := s.lane[0].wave, WriterSteps.Marked(s);
    assert WaveScans(s.w, s.scans);
    hide EnvOk, QueueOk, Book, LaneOk, TopicsOk, ScansOk, StaleOk, WriterSteps.Marked, Left;
    WriterSteps.MarkedInv(s);
    WriterSteps.MarkedAccounts(s);
    WriterSteps.LeftIsNatural(s1.scans, v);
    hide WaveScans;
    WriterSteps.WaveScansParts(s.w, s.scans);
    WriterSteps.ScanOver(s1, v, t);
    MarkedSameView(s, t);
  }

  lemma MarkedSameView(s: Sys, t: Topic)
    requires Inv(s) && Completing(s) && t in s.w.epochs && t in s.w.topicWave
    requires ScanId(s.w.topicWave[t], t.kind) in s.scans
    ensures ViewOf(WriterSteps.Marked(s), t) == ViewOf(s, t)
    ensures ViewOf(s, t).end == ReplayBound(s, t)
  {
    hide Inv, WriterSteps.Marked;
    WriterSteps.MarkerIsEmpty(s);
    WriterSteps.MarkedView(s, t);
    BoundView(s, t);
  }

  lemma BoundView(s: Sys, t: Topic)
    requires t in s.w.epochs && t in s.w.topicWave && ScanId(s.w.topicWave[t], t.kind) in s.scans
    ensures ViewOf(s, t).end == ReplayBound(s, t)
  {
    hide DeliveredSince, InLane, Position, Proj;
  }

  /** A wave's CatchupComplete tells the truth. When the writer takes the last done marker of a
      wave, every topic the wave still owns has been sent exactly its rows above its floor up to
      its replay's bound, and the bound reaches every row that was visible when the wave began; for
      a topic going live, adding what was buffered and queued behind the replay gives exactly its
      rows up to everything the poller has offered as well. */
  lemma CatchupCompleteIsTrue(world: World, run: seq<Sys>, steps: seq<Step>, i: nat, t: Topic)
    requires Run(world, run, steps) && i <= |steps| && !run[i].ended
    requires Completing(run[i]) && Owns(run[i].w, run[i].lane[0].wave, t) && t !in run[i].stale
    ensures t in run[i].w.epochs && ScanId(run[i].w.topicWave[t], t.kind) in run[i].scans
    ensures forall j, r ::
              (0 <= j <= i && run[j].w.nextWave <= run[i].lane[0].wave && r in Table(run[j], t.kind)
               && run[i].w.epochs[t].floor < r.id) ==> r.id <= ReplayBound(run[i], t)
    ensures var s := run[i];
            var e, bound := s.w.epochs[t], ReplayBound(s, t);
            var sent := DeliveredSince(s.w.out, e.start, t);
            && sent == Between(Table(s, t.kind), t, e.floor, bound)
            && (t in s.w.catchingUp ==>
                  sent + Rise(Mark(s.w.highWater, t), PendingOf(s.w, t) + Proj(s.queue, t)) ==
                  Between(Table(s, t.kind), t, e.floor, Max(bound, Seen(s, t.kind))))
  {
    RunInv(world, run, steps, i);
    hide Inv, Run, ReplayBound, Completing;
    CompletionIsTrue(run[i], t);
    forall j, r | 0 <= j <= i && run[j].w.nextWave <= run[i].lane[0].wave && r in Table(run[j], t.kind)
      ensures run[i].w.epochs[t].floor < r.id ==> r.id <= ReplayBound(run[i], t)
    {
      BoundCoversRegistration(world, run, steps, j, i, t, r);
    }
  }

  lemma CompletionIsTrue(s: Sys, t: Topic)
    requires Inv(s) && Completing(s) && Owns(s.w, s.lane[0].wave, t) && t !in s.stale
    ensures t in s.w.epochs && ScanId(s.w.topicWave[t], t.kind) in s.scans
    ensures var e, bound := s.w.epochs[t], ReplayBound(s, t);
            var sent := DeliveredSince(s.w.out, e.start, t);
            && sent == Between(Table(s, t.kind), t, e.floor, bound)
            && (t in s.w.catchingUp ==>
                  sent + Rise(Mark(s.w.highWater, t), PendingOf(s.w, t) + Proj(s.queue, t)) ==
                  Between(Table(s, t.kind), t, e.floor, Max(bound, Seen(s, t.kind))))
  {
    hide Inv, ReplayBound;
    CompletingView(s, t);
    TopicFacts(s, t);
    ReplayIsBetween(ViewOf(s, t), t);
  }

  lemma ReplayIsBetween(v: V.View, t: Topic)
    requires V.ViewOk(v, t) && Ascending(v.tab) && v.inWave && v.started && v.flight == [] && v.pos == v.end
    ensures v.del == Between(v.tab, t, v.floor, v.end)
    ensures v.gated ==> v.del + Rise(v.hw, v.held + v.queued) == Between(v.tab, t, v.floor, Max(v.end, v.seen))
  {
    ReplayExact(v, t);
    ExactlyIsBetween(v.tab, t, v.floor, v.end, v.del);
    if v.gated {
      ExactlyIsBetween(v.tab, t, v.floor, Max(v.end, v.seen), v.del + Rise(v.hw, v.held + v.queued));
    }
  }

  // ----- how far a replay reaches -----

  /** Once a scan has taken its ceiling, it reaches at least `id`. */
  ghost predicate ScanReaches(s: Sys, id: ScanId, upTo: nat) {
    id in s.scans && s.scans[id].started ==> upTo <= s.scans[id].first
  }

  lemma StepReaches(world: World, s: Sys, step: Step, id: ScanId, upTo: nat)
    requires Inv(s) && Enabled(world, s, step) && ScanReaches(s, id, upTo) && upTo <= MaxId(Table(s, id.kind))
    ensures ScanReaches(Apply(world, s, step), id, upTo)
    ensures upTo <= MaxId(Table(Apply(world, s, step), id.kind))
  {
    hide Inv, Mutate, TakeBatch, TakeLive, RunTurn, Prune, DispatchRow, StaleAfter;
    match step
    case Dispatch(k) => DispatchCases(world, s, NextRow(Table(s, k), Seen(s, k)).value);
    case _ =>
  }

  /** A state of the run before wave `v` began sees only rows its scans will reach. */
  lemma {:induction false} RunReaches(world: World, run: seq<Sys>, steps: seq<Step>, j: nat, i: nat, id: ScanId)
    requires Run(world, run, steps) && j <= i <= |steps| && !run[i].ended && run[j].w.nextWave <= id.wave
    ensures ScanReaches(run[i], id, MaxId(Table(run[j], id.kind)))
    ensures MaxId(Table(run[j], id.kind)) <= MaxId(Table(run[i], id.kind))
  {
    hide Inv, Apply, Enabled, ScanReaches;
    if i == j {
      RunInv(world, run, steps, j);
      NoScanYet(run[j], id, MaxId(Table(run[j], id.kind)));
    } else {
      var s, step := run[i - 1], steps[i - 1];
      assert Enabled(world, s, step) && run[i] == Apply(world, s, step);
      if s.ended { EndedStays(world, s, step); }
      RunInv(world, run, steps, i - 1);
      RunReaches(world, run, steps, j, i - 1, id);
      StepReaches(world, s, step, id, MaxId(Table(run[j], id.kind)));
    }
  }

  lemma NoScanYet(s: Sys, id: ScanId, upTo: nat)
    requires Inv(s) && s.w.nextWave <= id.wave
    ensures ScanReaches(s, id, upTo)
  {
    hide EnvOk, QueueOk, Book, LaneOk, WaveScans, TopicsOk, StaleOk;
  }

  /** The bound a wave's CatchupComplete speaks of covers every row of the topic above its floor
      that was visible in any state before the wave began, the one its Mutate found included. */
  lemma BoundCoversRegistration(world: World, run: seq<Sys>, steps: seq<Step>, j: nat, i: nat, t: Topic, r: Row)
    requires Run(world, run, steps) && j <= i <= |steps| && !run[i].ended
    requires Completing(run[i]) && Owns(run[i].w, run[i].lane[0].wave, t)
    requires run[j].w.nextWave <= run[i].lane[0].wave && r in Table(run[j], t.kind)
    ensures t in run[i].w.epochs && ScanId(run[i].w.topicWave[t], t.kind) in run[i].scans
    ensures run[i].w.epochs[t].floor < r.id ==> r.id <= ReplayBound(run[i], t)
  {
    var id := ScanId(run[i].lane[0].wave, t.kind);
    RunInv(world, run, steps, j);
    RunInv(world, run, steps, i);
    RunReaches(world, run, steps, j, i, id);
    if run[j].ended { EndedBefore(world, run, steps, j, i); }
    hide Inv, Run;
    CompletingView(run[i], t);
    CompletingBound(run[i], t);
    TablesRead(run[j], t.kind);
    MaxIdBounds(Table(run[j], t.kind), r);
  }

  lemma {:induction false} EndedBefore(world: World, run: seq<Sys>, steps: seq<Step>, j: nat, i: nat)
    requires Run(world, run, steps) && j <= i <= |steps| && run[j].ended
    ensures run[i].ended
  {
    hide Apply, Enabled;
    if j < i {
      EndedBefore(world, run, steps, j, i - 1);
      EndedStays(world, run[i - 1], steps[i - 1]);
    }
  }

  lemma CompletingBound(s: Sys, t: Topic)
    requires Inv(s) && t in s.w.epochs && t in s.w.topicWave && ScanId(s.w.topicWave[t], t.kind) in s.scans
    requires ViewOf(s, t).started
    ensures var sc := s.scans[ScanId(s.w.topicWave[t], t.kind)];
            sc.started && (s.w.epochs[t].floor < sc.first ==> sc.first <= ReplayBound(s, t))
  {
    ScanAt(s, ScanId(s.w.topicWave[t], t.kind));
    hide Inv, DeliveredSince, InLane, Position, Proj;
  }

  lemma TablesRead(s: Sys, k: Kind)
    requires Inv(s)
    ensures Ascending(Table(s, k))
  {
    TablesAscend(s);
  }

  // ----- the fold's order -----

  /** Two rows of one topic appear in its share of a list in the list's order. */
  lemma ProjOrder(s: seq<Row>, i: nat, j: nat, t: Topic)
    requires i < j < |s| && s[i].topic == t && s[j].topic == t && Ascending(Proj(s, t))
    ensures s[i].id < s[j].id
  {
    var before, after := s[..i], s[i + 1..];
    assert s == before + ([s[i]] + after);
    ProjConcat(before, [s[i]] + after, t);
    ProjCons(s[i], after, t);
    assert after[j - i - 1] == s[j];
    ProjMember(after, t, s[j]);
    var p, n := Proj(s, t), |Proj(before, t)|;
    assert p[n] == s[i];
    var m :| 0 <= m < |Proj(after, t)| && Proj(after, t)[m] == s[j];
    assert p[n + 1 + m] == s[j];
  }

  /** Rows from one table, each topic's in order, have distinct ids: any sort gives the same. */
  lemma SortIsForced(tab: seq<Row>, s: seq<Row>, sorted: seq<Row>)
    requires Ascending(tab) && forall t :: Ascending(Proj(s, t)) && forall r :: r in Proj(s, t) ==> r in tab
    requires NonDescending(sorted) && multiset(sorted) == multiset(s)
    ensures sorted == SortById(s)
  {
    forall i, j | 0 <= i < j < |s| ensures s[i].id != s[j].id {
      if s[i].id == s[j].id {
        ProjMember(s, s[i].topic, s[i]);
        ProjMember(s, s[j].topic, s[j]);
        V.SameId(tab, s[i], s[j]);
        ProjOrder(s, i, j, s[i].topic);
      }
    }
    SortUnique(s, sorted);
  }

  /** What the completion of wave `v` folds in for one topic: its buffered rows, in order and
      from the store. */
  lemma FoldOfTopic(s: Sys, v: nat, t: Topic)
    requires Inv(s) && v in s.w.waves
    ensures var f := SettleAll(Fold(s.w, [], [], []), v, s.w.waves[v].topics);
            && Ascending(Proj(f.groups, t)) && (forall r :: r in Proj(f.groups, t) ==> r in s.groups)
            && Ascending(Proj(f.welcomes, t)) && (forall r :: r in Proj(f.welcomes, t) ==> r in s.welcomes)
  {
    hide Inv, SettleAll, SliceOf, FoldedRows, HeldPure;
    PureHeld(s);
    SettleAllTopic(Fold(s.w, [], [], []), v, s.w.waves[v].topics, t);
    HeldRows(s, t);
    var held := FoldedRows(SliceOf(s.w, t));
    assert [] + held == held;
  }

  lemma PureHeld(s: Sys)
    requires Inv(s)
    ensures HeldPure(s.w)
  {
    WriterSteps.BookParts(s.w);
  }

  lemma HeldRows(s: Sys, t: Topic)
    requires Inv(s)
    ensures Ascending(FoldedRows(SliceOf(s.w, t)))
    ensures forall r :: r in FoldedRows(SliceOf(s.w, t)) ==> r in Table(s, t.kind)
  {
    if t in s.w.catchingUp {
      GatedSubscribed(s, t);
      LiveTopics(s, t);
      TopicFacts(s, t);
      hide Inv;
      var v := ViewOf(s, t);
      V.ConcatAscending(v.held, v.queued);
      assert forall r :: r in v.held ==> r in v.held + v.queued;
    }
  }

  lemma GatedSubscribed(s: Sys, t: Topic)
    requires Inv(s) && t in s.w.catchingUp
    ensures t in s.w.subscribed
  {
    hide EnvOk, QueueOk, ScansOk, LaneOk, WaveScans, StaleOk, TopicsOk, Gates, Waves, Ids;
  }

  /** Whichever way a wave's folded messages are sorted by id, stably or not, the result is the
      same: no two of one kind share an id. */
  lemma FoldOrderIsForced(world: World, run: seq<Sys>, steps: seq<Step>, i: nat, v: nat, sorted: seq<Row>)
    requires Run(world, run, steps) && i <= |steps| && !run[i].ended && v in run[i].w.waves && NonDescending(sorted)
    ensures var f := SettleAll(Fold(run[i].w, [], [], []), v, run[i].w.waves[v].topics);
            && (multiset(sorted) == multiset(f.groups) ==> sorted == SortById(f.groups))
            && (multiset(sorted) == multiset(f.welcomes) ==> sorted == SortById(f.welcomes))
  {
    hide Inv, SettleAll, Apply, Enabled;
    RunInv(world, run, steps, i);
    hide Run;
    var s := run[i];
    var f := SettleAll(Fold(s.w, [], [], []), v, s.w.waves[v].topics);
    forall t: Topic
      ensures Ascending(Proj(f.groups, t)) && Ascending(Proj(f.welcomes, t))
      ensures forall r :: r in Proj(f.groups, t) ==> r in s.groups
      ensures forall r :: r in Proj(f.welcomes, t) ==> r in s.welcomes
    {
      FoldOfTopic(s, v, t);
    }
    TablesAscend(s);
    if multiset(sorted) == multiset(f.groups) { SortIsForced(s.groups, f.groups, sorted); }
    if multiset(sorted) == multiset(f.welcomes) { SortIsForced(s.welcomes, f.welcomes, sorted); }
  }

  lemma TablesAscend(s: Sys)
    requires Inv(s)
    ensures Ascending(s.groups) && Ascending(s.welcomes)
  {
  }

  // ----- the seam, in the system -----

  /** The writer input a step of the system is, if any. */
  function InputOf(s: Sys, step: Step): Option<Input> {
    match step
    case WriterBatch => if s.lane == [] then None else Some(TakesBatch(s.lane[0]))
    case WriterLive => if s.queue == [] then None else Some(TakesLive(s.queue[0]))
    case WriterMutate(m) => Some(TakesMutate(m))
    case WriterHalfClose => Some(TakesHalfClose)
    case _ => None
  }

  lemma StepInput(world: World, s: Sys, step: Step)
    requires Enabled(world, s, step) && !Apply(world, s, step).ended
    ensures var input := InputOf(s, step);
            if input.None? then Apply(world, s, step).w == s.w
            else Take(world.cfg, s.w, input.value) == (Apply(world, s, step).w, Continue)
  {
    hide TakeBatch, TakeLive, Mutate, HalfClose, DispatchRow;
    match step
    case Dispatch(k) => DispatchCases(world, s, NextRow(Table(s, k), Seen(s, k)).value);
    case _ =>
  }

  lemma {:induction false} RunWriterSound(world: World, run: seq<Sys>, steps: seq<Step>, i: nat)
    requires Run(world, run, steps) && i <= |steps| && !run[i].ended
    ensures Sound(run[i].w, {}, 0, 0)
  {
    hide Sound, Apply, Enabled, Init;
    if i == 0 {
      InitSound();
    } else {
      var s, step := run[i - 1], steps[i - 1];
      assert Enabled(world, s, step) && run[i] == Apply(world, s, step);
      if s.ended { EndedStays(world, s, step); }
      RunWriterSound(world, run, steps, i - 1);
      StepSound(world, s, step);
    }
  }

  lemma StepSound(world: World, s: Sys, step: Step)
    requires Sound(s.w, {}, 0, 0) && Enabled(world, s, step) && !Apply(world, s, step).ended
    ensures Sound(Apply(world, s, step).w, {}, 0, 0)
  {
    hide Sound, Take, Apply;
    StepInput(world, s, step);
    if InputOf(s, step).Some? { TakeSound(world.cfg, s.w, InputOf(s, step).value); }
  }

  /** In the running system: a live topic's log is its wave's replay under the wave's id, then
      TopicsLive and CatchupComplete side by side, then live frames under 0. */
  lemma SeamInEveryRun(world: World, run: seq<Sys>, steps: seq<Step>, i: nat, t: Topic)
    requires Run(world, run, steps) && i <= |steps| && !run[i].ended && t in run[i].w.subscribed
    ensures t in run[i].w.epochs && Seam(run[i].w.out, run[i].w.epochs[t], t, t in run[i].w.catchingUp)
  {
    RunWriterSound(world, run, steps, i);
    SubscribedRegistered(run[i].w, t);
    LogOf(run[i].w, {}, 0, 0, t);
  }
}
