/** A run in which a history_only replay is announced complete with a row missing: an envelope
    queued while the topic was live is sent after the topic has been removed and re-added for
    history, and its higher id makes the dedup discard the replay below it. */
module StaleReplay {
  import opened Rows
  import opened WaveScan
  import opened Fetcher
  import opened Frames
  import opened Writer
  import opened StreamSystem

  const G := Topic(Group, [1])
  const R1 := Row(1, G, 1, 1, true)
  const R2 := Row(2, G, 1, 1, true)
  const WIRE: seq<byte> := [0, 1]
  const WORLD := World(Config(1000, 1000, 10), 10, 10, 10)

  /** Go live on the topic, then remove it and read its history once, in one request. */
  const LIVE := MutateReq(1, [AddReq(WIRE, 0)], [], false)
  const HISTORY := MutateReq(2, [AddReq(WIRE, 0)], [WIRE], true)

  const OLD := ScanId(0, Group)
  const NEW := ScanId(1, Group)

  function Writer1(): State {
    State(map[G := 0], {G}, map[], 0, {G}, 1, {G}, map[0 := Wave(1, 1, 1, [G])], 1, map[G := 0], false,
          [Frame.Started], map[G := Epoch(0, 1, 1, 0)])
  }

  function Writer3(): State {
    State(map[G := 0], {}, map[], 0, {}, 0, {}, map[1 := Wave(2, 1, 1, [G])], 2, map[G := 1], false,
          [Frame.Started, CatchupComplete(1)], map[G := Epoch(0, 2, 2, 0)])
  }

  function Writer4(): State { Writer3().(highWater := map[G := 2], out := Writer3().out + [Messages(0, [R2])]) }

  function State0(): Sys { Sys([R1, R2], [], 1, 0, [], true, [], map[], {}, Init, false) }
  function State1(): Sys { State0().(w := Writer1(), scans := map[OLD := NewScan([Add(G, 0)])]) }
  function State2(): Sys { State1().(groupSeen := 2, queue := [R2]) }
  function State3(): Sys {
    State2().(w := Writer3(), scans := map[OLD := NewScan([Add(G, 0)]), NEW := NewScan([Add(G, 0)])], stale := {G})
  }
  function State4(): Sys { State3().(w := Writer4(), queue := []) }

  /** The state with the history scan at `sc`, this lane, and the writer at `w`. */
  function Later(sc: Scan, lane: seq<Batch>, w: State): Sys {
    State4().(scans := map[OLD := NewScan([Add(G, 0)]), NEW := sc], lane := lane, w := w)
  }

  function Snapped(): Scan { Scan([Add(G, 0)], true, 2, 2, [Add(G, 0)], false, false, false) }
  function Ready(): Scan { Snapped().(refreshed := true) }
  function Drained(): Scan { Ready().(queue := []) }
  function Over(): Scan { Drained().(done := true) }
  function Writer10(): State {
    Writer4().(highWater := map[], waves := map[], topicWave := map[], epochs := map[],
               out := Writer4().out + [TopicsLive([G]), CatchupComplete(2)])
  }
  function State5(): Sys { Later(Snapped(), [], Writer4()) }
  function State6(): Sys { Later(Ready(), [], Writer4()) }
  function State7(): Sys { Later(Drained(), [Batch(1, Group, [R1, R2], false)], Writer4()) }
  function State8(): Sys { Later(Drained(), [], Writer4()) }
  function State9(): Sys { Later(Over(), [Batch(1, Group, [], true)], Writer4()) }
  function State10(): Sys { Later(Over().(taken := true), [], Writer10()) }

  lemma Wire()
    ensures SplitTopic(WIRE) == Some(G)
  {
    assert WIRE[1..] == [1];
  }

  lemma Parsing()
    ensures ParseAdds(Parsed([], map[]), [AddReq(WIRE, 0)]) == Some(Parsed([G], map[G := 0]))
  {
    var adds := [AddReq(WIRE, 0)];
    Wire();
    hide SplitTopic;
    assert adds[1..] == [];
    assert ParseOne(Parsed([], map[]), G, 0) == Parsed([G], map[G := 0]) by {
      assert [] + [G] == [G];
      assert map[][G := 0] == map[G := 0];
    }
  }

  lemma AddsOne(s: State, mutateId: nat, historyOnly: bool)
    requires G !in s.topicWave && !Active(s, G)
    ensures AddAll(Adding(s, [], [], 0), [G], map[G := 0], mutateId, historyOnly) ==
            (Adding(Register(s, G, 0, mutateId, historyOnly), [Add(G, 0)], [], if historyOnly then 0 else 1), Continue)
  {
    hide Register;
    var a := Adding(s, [], [], 0);
    assert [] + [Add(G, 0)] == [Add(G, 0)];
    var a' := AddOne(a, G, 0, mutateId, historyOnly).0;
    assert a' == Adding(Register(s, G, 0, mutateId, historyOnly), [Add(G, 0)], [], if historyOnly then 0 else 1);
    assert [G][1..] == [];
    assert AddAll(a', [], map[G := 0], mutateId, historyOnly) == (a', Continue);
  }

  lemma Mutates(s: State, s1: State, m: MutateReq, removes: seq<seq<byte>>, historyOnly: bool)
    requires m == MutateReq(m.mutateId, [AddReq(WIRE, 0)], removes, historyOnly)
    requires m.mutateId != 0 && !InFlight(s, m.mutateId) && DropAll(s, removes) == (s1, Continue)
    requires G !in s1.topicWave && !Active(s1, G)
    ensures var w := Register(s1, G, 0, m.mutateId, historyOnly);
            var w2 := w.(subscribedTopics := w.subscribedTopics + if historyOnly then 0 else 1);
            Mutate(WORLD.cfg, s, m)
            == Mutated(StartWave(w2, m.mutateId, [Add(G, 0)], []), Continue, s1.nextWave, [Add(G, 0)], [])
  {
    hide Register, StartWave, DropAll, AddAll, ParseAdds;
    Parsing();
    AddsOne(s1, m.mutateId, historyOnly);
    RegisterNext(s1, m.mutateId, historyOnly);
  }

  lemma RegisterNext(s: State, mutateId: nat, historyOnly: bool)
    ensures Register(s, G, 0, mutateId, historyOnly).nextWave == s.nextWave
  {
  }

  lemma Starts(s: State, mutateId: nat)
    ensures StartWave(s, mutateId, [Add(G, 0)], []) ==
            s.(nextWave := s.nextWave + 1, waves := s.waves[s.nextWave := Wave(mutateId, 1, 1, [G])],
               topicWave := s.topicWave[G := s.nextWave])
  {
    assert [Add(G, 0)][1..] == [];
    assert TopicsOf([Add(G, 0)]) == [G];
    assert [G] + [] == [G];
    assert AssignWave(s.topicWave, [G], s.nextWave) == s.topicWave[G := s.nextWave];
  }

  lemma GoLive()
    ensures Mutate(WORLD.cfg, Init, LIVE) == Mutated(Writer1(), Continue, 0, [Add(G, 0)], [])
  {
    assert DropAll(Init, []) == (Init, Continue);
    Mutates(Init, Init, LIVE, [], false);
    var w := Register(Init, G, 0, 1, false);
    Starts(w.(subscribedTopics := 1), 1);
    hide Mutate, StartWave;
    assert map[][G := Epoch(0, 1, 1, 0)] == map[G := Epoch(0, 1, 1, 0)];
  }

  lemma Removing()
    ensures DropAll(Writer1(), [WIRE]) ==
            (State(map[], {}, map[], 0, {}, 0, {}, map[], 1, map[], false, [Frame.Started, CatchupComplete(1)],
                   map[]), Continue)
  {
    Wire();
    hide SplitTopic;
    assert [WIRE][1..] == [];
    var s1 := Silence(Writer1(), G);
    assert map[G := 0] - {G} == map[] && map[G := Epoch(0, 1, 1, 0)] - {G} == map[];
    assert s1 == State(map[], {}, map[], 0, {}, 0, {}, map[0 := Wave(1, 1, 1, [G])], 1, map[G := 0], false,
                       [Frame.Started], map[]);
    assert map[0 := Wave(1, 1, 1, [G])] - {0} == map[];
    assert Disown(s1, G)
        == State(map[], {}, map[], 0, {}, 0, {}, map[], 1, map[], false,
                 [Frame.Started, CatchupComplete(1)], map[]);
  }

  lemma ReadHistory()
    ensures Mutate(WORLD.cfg, Writer1(), HISTORY) == Mutated(Writer3(), Continue, 1, [Add(G, 0)], [])
  {
    Removing();
    var s1 := DropAll(Writer1(), [WIRE]).0;
    Mutates(Writer1(), s1, HISTORY, [WIRE], true);
    Starts(Register(s1, G, 0, 2, true), 2);
    hide Mutate, StartWave, DropAll;
  }

  lemma Step1()
    ensures Enabled(WORLD, State0(), WriterMutate(LIVE)) && Apply(WORLD, State0(), WriterMutate(LIVE)) == State1()
  {
    GoLive();
    hide Mutate;
  }

  lemma Step2()
    ensures Enabled(WORLD, State1(), Dispatch(Group)) && Apply(WORLD, State1(), Dispatch(Group)) == State2()
  {
    assert NextRow([R1, R2], 1) == Some(R2);
  }

  lemma Step3()
    ensures Enabled(WORLD, State2(), WriterMutate(HISTORY))
    ensures Apply(WORLD, State2(), WriterMutate(HISTORY)) == State3()
  {
    ReadHistory();
    hide Mutate;
    assert Proj([R2], G) == [R2] by { assert [R2][1..] == []; }
  }

  lemma Step4()
    ensures Enabled(WORLD, State3(), WriterLive) && Apply(WORLD, State3(), WriterLive) == State4()
  {
    assert [R2][1..] == [];
    assert Survivors(map[G := 0], [R2]) == [R2];
    assert [] + [R2] == [R2];
    assert PackFrom(0, 1000, [R2], []) == [Messages(0, [R2])];
    assert PackFrom(0, 1000, [], [R2]) == PackFrom(0, 1000, [] + [R2], [R2][1..]);
    assert Advance(map[G := 0], [R2]) == map[G := 2];
  }

  lemma Step5()
    ensures Enabled(WORLD, State4(), Snapshot(NEW)) && Apply(WORLD, State4(), Snapshot(NEW)) == State5()
  {
    assert Prune([Add(G, 0)], 2) == [Add(G, 0)] by { assert [Add(G, 0)][1..] == []; }
  }

  lemma Step6()
    ensures Enabled(WORLD, State5(), Refresh(NEW, false)) && Apply(WORLD, State5(), Refresh(NEW, false)) == State6()
  {
  }

  lemma BothRows()
    ensures Raw([R1, R2], G, 0, 2) == [R1, R2]
  {
    assert [R1, R2][1..] == [R2] && [R2][1..] == [];
    assert Raw([R2], G, 0, 2) == [R2] + Raw([], G, 0, 2);
    assert Raw([R1, R2], G, 0, 2) == [R1] + Raw([R2], G, 0, 2);
  }

  /** The scan reads both rows in one turn. */
  lemma OneTurn()
    ensures RunTurn([R1, R2], [Add(G, 0)], 2, 10, 10) == Turn([R1, R2], [])
  {
    var q := [Add(G, 0)];
    assert q[..1] == q && q[1..] == [];
    BothRows();
    assert Probe([R1, R2], Add(G, 0), 0, 2, 10) == [R1, R2];
    assert Probes([R1, R2], q, 0, 2, 10) == [R1, R2];
    assert SortById([R1, R2]) == [R1, R2] by { SortOfAscending([R1, R2]); }
    assert Rotated([R1, R2], q, 2, 10) == [];
  }

  lemma Step7()
    ensures Enabled(WORLD, State6(), ScanTurn(NEW)) && Apply(WORLD, State6(), ScanTurn(NEW)) == State7()
  {
    OneTurn();
    hide RunTurn, Known;
    assert Known([R1, R2]) == [R1, R2] by { KnownAll([R1, R2]); }
    assert RunTurn(Table(State6(), Group), State6().scans[NEW].queue, 2, 10, 10) == Turn([R1, R2], []);
    var lane := [Batch(1, Group, [R1, R2], false)];
    assert Forward([], 1, Group, [R1, R2]) == lane by { assert [] + lane == lane; }
    var scans := State6().scans[NEW := Ready().(queue := [])];
    assert AtLeastOne(WORLD.scanBatchTopics) == 10 && AtLeastOne(WORLD.scanTopicPageLimit) == 10;
    assert Table(State6(), NEW.kind) == [R1, R2] && State6().scans[NEW] == Ready();
    hide Forward;
    assert Apply(WORLD, State6(), ScanTurn(NEW)) == State6().(scans := scans, lane := lane);
    assert scans == State7().scans;
  }

  /** Both rows are at or below the mark the stale envelope raised. */
  lemma Step8()
    ensures Enabled(WORLD, State7(), WriterBatch) && Apply(WORLD, State7(), WriterBatch) == State8()
  {
    var tw := map[G := 1];
    var rows := [R1, R2];
    assert rows[1..] == [R2] && [R2][1..] == [];
    assert Wanted(tw, 1, [R2]) == [R2];
    assert Wanted(tw, 1, rows) == rows;
    assert Survivors(map[G := 2], [R2]) == [] && Advance(map[G := 2], [R2]) == map[G := 2];
    assert Survivors(map[G := 2], rows) == [] && Advance(map[G := 2], rows) == map[G := 2];
    assert Writer4().out + [] == Writer4().out;
    assert State7().lane[1..] == [];
  }

  lemma Step9()
    ensures Enabled(WORLD, State8(), Finish(NEW)) && Apply(WORLD, State8(), Finish(NEW)) == State9()
  {
  }

  lemma Completed()
    ensures CompleteWave(WORLD.cfg, Writer4(), 1, Wave(2, 0, 1, [G])) == Writer10()
  {
    var f0 := Fold(Writer4(), [], [], []);
    assert [G][1..] == [];
    assert map[G := 1] - {G} == map[] && map[G := 2] - {G} == map[];
    assert map[G := Epoch(0, 2, 2, 0)] - {G} == map[];
    var f := Settle(f0, 1, G);
    assert f == Fold(Writer4().(highWater := map[], topicWave := map[], epochs := map[]), [], [], [G]);
    assert SettleAll(f0, 1, [G]) == f;
    hide Settle, SettleAll;
    assert map[1 := Wave(2, 1, 1, [G])] - {1} == map[];
    assert Writer4().out + ([] + []) + [TopicsLive([G])] + [CatchupComplete(2)] == Writer10().out;
  }

  lemma LastMarker()
    ensures TakeBatch(WORLD.cfg, Writer4(), Batch(1, Group, [], true)) == (Writer10(), Continue)
  {
    var w := Writer4();
    hide CompleteWave, Emit;
    EmitsNothing(w);
    Completed();
  }

  lemma EmitsNothing(w: State)
    ensures Emit(WORLD.cfg, w, 2, Wanted(w.topicWave, 1, [])) == w
  {
    assert w.out + [] == w.out;
  }

  lemma Marking()
    ensures MarkTaken(State9().(lane := []), Batch(1, Group, [], true)) == Later(Over().(taken := true), [], Writer4())
  {
    hide Writer4;
  }

  lemma Step10()
    ensures Enabled(WORLD, State9(), WriterBatch) && Apply(WORLD, State9(), WriterBatch) == State10()
  {
    hide TakeBatch, Writer10, Writer4, MarkTaken;
    LastMarker();
    Marking();
    assert State9().lane[1..] == [];
  }

  function TheSteps(): seq<Step> {
    [WriterMutate(LIVE), Dispatch(Group), WriterMutate(HISTORY), WriterLive, Snapshot(NEW), Refresh(NEW, false),
     ScanTurn(NEW), WriterBatch, Finish(NEW), WriterBatch]
  }

  function TheRun(): seq<Sys> {
    [State0(), State1(), State2(), State3(), State4(), State5(), State6(), State7(), State8(), State9(), State10()]
  }

  lemma StepAt(i: nat)
    requires i < 10
    ensures Enabled(WORLD, TheRun()[i], TheSteps()[i])
    ensures TheRun()[i + 1] == Apply(WORLD, TheRun()[i], TheSteps()[i])
  {
    hide Enabled, Apply, State0, State1, State2, State3, State4, State5, State6, State7, State8, State9, State10;
    if i == 0 { Step1(); }
    else if i == 1 { Step2(); }
    else if i == 2 { Step3(); }
    else if i == 3 { Step4(); }
    else if i == 4 { Step5(); }
    else if i == 5 { Step6(); }
    else if i == 6 { Step7(); }
    else if i == 7 { Step8(); }
    else if i == 8 { Step9(); }
    else { Step10(); }
  }

  lemma Starting()
    ensures Initial(State0())
  {
  }

  lemma IsRun()
    ensures Run(WORLD, TheRun(), TheSteps())
  {
    Starting();
    assert |TheRun()| == 11 && |TheSteps()| == 10 && TheRun()[0] == State0();
    hide Enabled, Apply, Initial, TheRun, TheSteps;
    forall i | 0 <= i < 10
      ensures Enabled(WORLD, TheRun()[i], TheSteps()[i])
      ensures TheRun()[i + 1] == Apply(WORLD, TheRun()[i], TheSteps()[i]) {
      StepAt(i);
    }
  }

  /** The history_only read of a topic with two rows above its cursor is answered by TopicsLive
      and CatchupComplete, the handler has not failed, and since the registration only the
      second row was sent: the first is gone for good. */
  lemma StaleEnvelopeBreaksReplay()
    ensures Run(WORLD, TheRun(), TheSteps())
    ensures var s, last := TheRun()[9], TheRun()[10];
            && !last.ended
            && s.w.epochs[G].floor == 0 && s.w.epochs[G].mutateId == 2
            && last.w.out == s.w.out + [TopicsLive([G]), CatchupComplete(2)]
            && DeliveredSince(last.w.out, s.w.epochs[G].start, G) == [R2]
            && Between(s.groups, G, 0, 2) == [R1, R2]
  {
    IsRun();
    var out := Writer10().out;
    assert out[2..] == [Messages(0, [R2]), TopicsLive([G]), CatchupComplete(2)];
    var tail := [TopicsLive([G]), CatchupComplete(2)];
    assert RowsIn(tail) == [] by { assert tail[1..] == [CatchupComplete(2)] && [CatchupComplete(2)][1..] == []; }
    assert RowsIn(out[2..]) == [R2] + RowsIn(tail) by { assert out[2..][1..] == tail; }
    assert Proj([R2], G) == [R2] by { assert [R2][1..] == []; }
    BothRows();
    KnownAll([R1, R2]);
  }
}