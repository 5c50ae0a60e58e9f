/** The writer alone, fed any inputs at all: batches and envelopes of whatever rows in whatever
    order, and any requests. What holds here needs nothing from the store, the poller or the
    scans. */
module WriterRuns {
  import opened Rows
  import opened WaveScan
  import opened Fetcher
  import opened Frames
  import opened Writer
  import opened StreamSystem
  import opened Bookkeeping
  import opened MutateShape
  import opened TopicSlice
  import opened EpochLog
  import WriterSteps
  import opened LogSteps
  import opened AnswerCount

  datatype Input = TakesBatch(b: Batch) | TakesLive(r: Row) | TakesMutate(m: MutateReq) | TakesHalfClose

  function Take(cfg: Config, s: State, input: Input): (State, Verdict) {
    match input
    case TakesBatch(b) => TakeBatch(cfg, s, b)
    case TakesLive(r) => TakeLive(cfg, s, r)
    case TakesMutate(m) => var r := Mutate(cfg, s, m); (r.s, r.verdict)
    case TakesHalfClose => HalfClose(s)
  }

  /** After a half-close the frame reader delivers nothing more. */
  predicate Accepts(s: State, input: Input) {
    s.halfClosed ==> input.TakesBatch? || input.TakesLive?
  }

  /** A run of the select loop that has not returned. */
  ghost predicate WriterRun(cfg: Config, states: seq<State>, inputs: seq<Input>) {
    && |states| == |inputs| + 1 && states[0] == Init
    && forall i :: 0 <= i < |inputs| ==>
         Accepts(states[i], inputs[i]) && Take(cfg, states[i], inputs[i]) == (states[i + 1], Continue)
  }

  // ----- the removes and the adds -----

  lemma {:induction false} DropAllSound(s: State, removes: seq<seq<byte>>, mutateId: nat)
    requires Sound(s, {}, 0, mutateId)
    ensures DropAll(s, removes).1 == Continue ==>
              Sound(DropAll(s, removes).0, {}, 0, mutateId) && Balanced(s, DropAll(s, removes).0)
    decreases |removes|
  {
    if removes != [] && SplitTopic(removes[0]).Some? {
      var t := SplitTopic(removes[0]).value;
      DropBalanced(s, t);
      hide Sound, DropTopic, Balanced;
      DropSound(s, t, {}, 0, mutateId);
      DropAllSound(DropTopic(s, t), removes[1..], mutateId);
      if DropAll(s, removes).1 == Continue { BalancedChain(s, DropTopic(s, t), DropAll(s, removes).0); }
    }
  }

  ghost predicate AddingSound(s: State, a: Adding, limbo: set<Topic>, mutateId: nat) {
    && Sound(a.s, limbo, a.newlyLive, mutateId)
    && Enumerates(Collected(a.groupAdds, a.welcomeAdds), limbo)
    && Balanced(s, a.s)
  }

  lemma ClearedSound(w: State, t: Topic, limbo: set<Topic>, newlyLive: nat, mutateId: nat)
    requires Sound(w, limbo, newlyLive, mutateId) && t !in limbo && (t in w.topicWave ==> Active(w, t))
    ensures var w1 := if Active(w, t) then DropTopic(w, t) else w;
            && Sound(w1, limbo, newlyLive, mutateId) && Balanced(w, w1)
            && t !in w1.subscribed && t !in w1.catchingUp && t !in w1.topicWave
  {
    hide Balanced, DropTopic, Logs, Tags, InFlight;
    DropFields(w, t);
    DropBalanced(w, t);
    DropSound(w, t, limbo, newlyLive, mutateId);
    SelfBalanced(w);
  }

  lemma SelfBalanced(w: State)
    ensures Balanced(w, w)
  {
  }

  lemma RegisterBalanced(s: State, t: Topic, cursor: nat, mutateId: nat, historyOnly: bool)
    ensures Balanced(s, Register(s, t, cursor, mutateId, historyOnly))
  {
    hide Balanced;
    assert s.out + [] == s.out;
    NoneAnswered(s, Register(s, t, cursor, mutateId, historyOnly), []);
  }

  lemma AddOneSound(s: State, a: Adding, t: Topic, cursor: nat, mutateId: nat, historyOnly: bool, limbo: set<Topic>)
    requires AddingSound(s, a, limbo, mutateId) && t !in limbo && mutateId != 0
    requires AddOne(a, t, cursor, mutateId, historyOnly).1 == Continue
    ensures var a' := AddOne(a, t, cursor, mutateId, historyOnly).0;
            AddingSound(s, a', if Active(a.s, t) && cursor >= Mark(a.s.highWater, t) then limbo else limbo + {t},
                        mutateId)
  {
    hide Sound, Balanced, DropTopic, Register, Enumerates, Collected;
    if !(Active(a.s, t) && cursor >= Mark(a.s.highWater, t)) {
      var w1 := if Active(a.s, t) then DropTopic(a.s, t) else a.s;
      ClearedSound(a.s, t, limbo, a.newlyLive, mutateId);
      RegisterSound(w1, t, cursor, mutateId, historyOnly, limbo, a.newlyLive);
      RegisterBalanced(w1, t, cursor, mutateId, historyOnly);
      BalancedChain(s, a.s, w1);
      BalancedChain(s, w1, Register(w1, t, cursor, mutateId, historyOnly));
      CollectedMore(a.groupAdds, a.welcomeAdds, limbo, t, cursor);
    }
  }

  lemma {:induction false} AddAllSound(s: State, a: Adding, order: seq<Topic>, cursors: map<Topic, nat>, mutateId: nat,
                                       historyOnly: bool, limbo: set<Topic>) returns (limbo': set<Topic>)
    requires AddingSound(s, a, limbo, mutateId) && (order != [] ==> mutateId != 0)
    requires forall t :: t in order ==> t in cursors && t !in limbo
    requires forall i, j :: 0 <= i < j < |order| ==> order[i] != order[j]
    ensures AddAll(a, order, cursors, mutateId, historyOnly).1 == Continue ==>
              AddingSound(s, AddAll(a, order, cursors, mutateId, historyOnly).0, limbo', mutateId)
    decreases |order|
  {
    limbo' := limbo;
    hide AddingSound, AddOne;
    if order != [] {
      var t := order[0];
      var (a', v) := AddOne(a, t, cursors[t], mutateId, historyOnly);
      if v == Continue {
        AddOneSound(s, a, t, cursors[t], mutateId, historyOnly, limbo);
        var next := if Active(a.s, t) && cursors[t] >= Mark(a.s.highWater, t) then limbo else limbo + {t};
        limbo' := AddAllSound(s, a', order[1..], cursors, mutateId, historyOnly, next);
      }
    }
  }

  // ----- whole inputs -----

  lemma CountedSound(w: State, limbo: set<Topic>, newlyLive: nat, mutateId: nat)
    requires Sound(w, limbo, newlyLive, mutateId)
    ensures Sound(Counted(w, newlyLive), limbo, 0, mutateId) && Balanced(w, Counted(w, newlyLive))
  {
    hide Book, Logs, Tags, InFlight, Balanced;
    var d := Counted(w, newlyLive);
    CountedBook(w, limbo, newlyLive);
    SameLogs(w, d);
    SameTags(w, d, limbo, mutateId);
    assert w.out + [] == w.out;
    NoneAnswered(w, d, []);
  }

  lemma StartOwes(s: State, mutateId: nat, groupAdds: seq<Add>, welcomeAdds: seq<Add>)
    requires Waves(s) && !InFlight(s, mutateId)
    ensures forall id ::
              Owed(StartWave(s, mutateId, groupAdds, welcomeAdds), id)
              == Owed(s, id) + if id == mutateId then 1 else 0
  {
    var d := StartWave(s, mutateId, groupAdds, welcomeAdds);
    assert d.waves[s.nextWave].mutateId == mutateId;
    forall id ensures InFlight(d, id) <==> InFlight(s, id) || id == mutateId {
      if InFlight(s, id) {
        var v :| v in s.waves && s.waves[v].mutateId == id;
        assert v in d.waves && d.waves[v] == s.waves[v];
      }
    }
  }

  function Acked(s: State, id: nat): State { s.(out := s.out + [CatchupComplete(id)]) }

  lemma AckOwes(s: State, id: nat)
    ensures forall x :: Owed(Acked(s, id), x) == Owed(s, x) + if x == id then 1 else 0
  {
    forall x ensures Owed(Acked(s, id), x) == Owed(s, x) + if x == id then 1 else 0 {
      AnswersConcat(s.out, [CatchupComplete(id)], x);
      AnswersOne(CatchupComplete(id), x);
    }
  }

  lemma GatedInFlight(s: State, mutateId: nat, t: Topic)
    requires Sound(s, {}, 0, mutateId) && t in s.epochs && t in s.subscribed && t in s.catchingUp
    ensures s.epochs[t].mutateId != mutateId
  {
  }

  lemma AckLogs(s: State, id: nat)
    requires Sound(s, {}, 0, id)
    ensures Logs(Acked(s, id))
  {
    hide Sound, TraceOk;
    forall t | t in s.epochs ensures TraceOk(Acked(s, id).out, TraceOf(Acked(s, id), t), t) {
      LogOf(s, {}, 0, id, t);
      if t in s.subscribed && t in s.catchingUp { GatedInFlight(s, id, t); }
      LogAcks(s, Acked(s, id), id, t);
    }
  }

  lemma AckSound(s: State, id: nat)
    requires Sound(s, {}, 0, id)
    ensures Sound(Acked(s, id), {}, 0, 0)
  {
    AckLogs(s, id);
    assert Book(Acked(s, id), {}, 0);
    BookIds(s);
    Unlimbo(s, id, 0);
    SameTags(s, Acked(s, id), {}, 0);
  }

  lemma Unlimbo(s: State, a: nat, b: nat)
    requires Tags(s, {}, a)
    ensures Tags(s, {}, b)
  {
  }

  lemma MutateRuns(cfg: Config, s: State, m: MutateReq) returns (limbo: set<Topic>)
    requires Sound(s, {}, 0, 0) && Mutate(cfg, s, m).verdict == Continue
    requires ParseAdds(Parsed([], map[]), m.adds).Some? && DropAll(s, m.removes).1 == Continue
    requires RunAdds(s, m).1 == Continue
    requires m.adds != [] ==> m.mutateId != 0
    ensures AddingSound(s, RunAdds(s, m).0, limbo, m.mutateId)
  {
    hide Mutate, Sound, Balanced, AddAll, DropAll, ParseAdds;
    var p0 := Parsed([], map[]);
    var p := ParseAdds(p0, m.adds).value;
    Admitted(cfg, s, m);
    NoOrder(m.adds);
    ParseKeepsOrder(p0, m.adds);
    ParseDistinct(p0, m.adds);
    var a0 := Adding(DropAll(s, m.removes).0, [], [], 0);
    DropAllSound(s, m.removes, m.mutateId);
    assert AddingSound(s, a0, {}, m.mutateId);
    limbo := AddAllSound(s, a0, p.order, p.cursors, m.mutateId, m.historyOnly, {});
  }

  lemma NoOrder(adds: seq<AddReq>)
    ensures adds == [] ==> ParseAdds(Parsed([], map[]), adds) == Some(Parsed([], map[]))
  {
  }

  lemma Admitted(cfg: Config, s: State, m: MutateReq)
    requires Sound(s, {}, 0, 0) && Mutate(cfg, s, m).verdict == Continue
    ensures Sound(s, {}, 0, m.mutateId)
  {
    hide Logs, Book;
    Unlimbo(s, 0, m.mutateId);
  }

  lemma MutateSound(cfg: Config, s: State, m: MutateReq)
    requires Sound(s, {}, 0, 0) && Mutate(cfg, s, m).verdict == Continue
    ensures Sound(Mutate(cfg, s, m).s, {}, 0, 0)
    ensures forall id :: Owed(Mutate(cfg, s, m).s, id) == Owed(s, id) + if id == m.mutateId then 1 else 0
  {
    hide Mutate, Sound, StartWave, RunAdds, DropAll, AddAll, ParseAdds, Owed;
    MutateUnfolds(cfg, s, m);
    var limbo := MutateRuns(cfg, s, m);
    var a := RunAdds(s, m).0;
    var w := Counted(a.s, a.newlyLive);
    CountedSound(a.s, limbo, a.newlyLive, m.mutateId);
    BalancedChain(s, a.s, w);
    if m.adds == [] { NoAdds(s, m); }
    SoundWaves(w, limbo, 0, m.mutateId);
    if |a.groupAdds| + |a.welcomeAdds| > 0 {
      StartSound(w, m.mutateId, a.groupAdds, a.welcomeAdds, limbo);
      StartOwes(w, m.mutateId, a.groupAdds, a.welcomeAdds);
    } else {
      assert limbo == {};
      AckSound(w, m.mutateId);
      AckOwes(w, m.mutateId);
    }
  }

  lemma SoundWaves(s: State, limbo: set<Topic>, newlyLive: nat, mutateId: nat)
    requires Sound(s, limbo, newlyLive, mutateId)
    ensures Waves(s) && Ids(s) && !InFlight(s, mutateId)
  {
  }

  /** A batch only frames what its wave still owns, so it is stamped right. */
  lemma WantedStamped(s: State, v: nat, rows: seq<Row>)
    requires Sound(s, {}, 0, 0) && v in s.waves
    ensures Stamped(s, s.waves[v].mutateId, Wanted(s.topicWave, v, rows))
  {
    hide Wanted, Logs;
    forall t | t in s.epochs && t in s.subscribed && Proj(Wanted(s.topicWave, v, rows), t) != []
      ensures s.waves[v].mutateId == if t in s.catchingUp then s.epochs[t].mutateId else 0
    {
      WantedOfTopic(s.topicWave, v, rows, t);
    }
  }

  lemma ScanCountedSound(s: State, v: nat)
    requires Sound(s, {}, 0, 0) && v in s.waves
    ensures Sound(WriterSteps.Counted(s, v), {}, 0, 0) && Balanced(s, WriterSteps.Counted(s, v))
  {
    hide Book, Logs, Balanced, Tags, InFlight;
    var d := WriterSteps.Counted(s, v);
    WriterSteps.CountedBook(s, v);
    BookIds(d);
    SameLogs(s, d);
    assert s.out + [] == s.out;
    NoneAnswered(s, d, []);
    ScanCountedTags(s, v);
  }

  lemma ScanCountedTags(s: State, v: nat)
    requires Tags(s, {}, 0) && v in s.waves
    ensures Tags(WriterSteps.Counted(s, v), {}, 0)
  {
  }

  lemma BatchSound(cfg: Config, s: State, b: Batch)
    requires Sound(s, {}, 0, 0)
    ensures Sound(TakeBatch(cfg, s, b).0, {}, 0, 0) && Balanced(s, TakeBatch(cfg, s, b).0)
  {
    hide Sound, Balanced, Emit, Wanted, CompleteWave, Stamped;
    SelfBalanced(s);
    if b.wave in s.waves {
      var w, rows := s.waves[b.wave], Wanted(s.topicWave, b.wave, b.rows);
      var s1 := Emit(cfg, s, w.mutateId, rows);
      WantedStamped(s, b.wave, b.rows);
      EmitSound(cfg, s, w.mutateId, rows);
      EmitBalanced(cfg, s, w.mutateId, rows);
      EmitWaves(cfg, s, w.mutateId, rows);
      if b.done && w.scansLeft - 1 > 0 {
        ScanCountedSound(s1, b.wave);
        BalancedChain(s, s1, WriterSteps.Counted(s1, b.wave));
      } else if b.done {
        var w' := w.(scansLeft := w.scansLeft - 1);
        SoundWaves(s1, {}, 0, 0);
        CompleteSound(cfg, s1, b.wave, w');
        CompleteBalanced(cfg, s1, b.wave, w');
        BalancedChain(s, s1, CompleteWave(cfg, s1, b.wave, w'));
      }
    }
  }

  lemma LiveSound(cfg: Config, s: State, r: Row)
    requires Sound(s, {}, 0, 0)
    ensures Sound(TakeLive(cfg, s, r).0, {}, 0, 0) && Balanced(s, TakeLive(cfg, s, r).0)
  {
    hide Book, Logs, Tags, InFlight, Balanced, Emit, Stamped, PendingOf;
    LiveBook(cfg, s, r);
    if r.topic in s.catchingUp {
      var d := Buffered(s, r);
      SameLogs(s, d);
      SameTags(s, d, {}, 0);
      assert s.out + [] == s.out;
      NoneAnswered(s, d, []);
    } else {
      OneStamped(s, r);
      EmitSound(cfg, s, 0, [r]);
      EmitBalanced(cfg, s, 0, [r]);
    }
  }

  lemma OneStamped(s: State, r: Row)
    requires r.topic !in s.catchingUp
    ensures Stamped(s, 0, [r])
  {
    assert [r][1..] == [];
  }

  lemma HalfCloseSound(s: State)
    requires Sound(s, {}, 0, 0)
    ensures Sound(HalfClose(s).0, {}, 0, 0) && Balanced(s, HalfClose(s).0)
  {
    var d := HalfClose(s).0;
    assert Book(d, {}, 0);
    SameLogs(s, d);
    SameTags(s, d, {}, 0);
    assert s.out + [] == s.out;
    NoneAnswered(s, d, []);
  }

  function Asks(input: Input, id: nat): nat {
    if input.TakesMutate? && input.m.mutateId == id then 1 else 0
  }

  /** How many of these inputs are Mutates with this id. */
  function Asked(inputs: seq<Input>, id: nat): nat {
    if inputs == [] then 0 else Asked(inputs[..|inputs| - 1], id) + Asks(inputs[|inputs| - 1], id)
  }

  /** One accepted input, whatever it holds. */
  lemma TakeSound(cfg: Config, s: State, input: Input)
    requires Sound(s, {}, 0, 0) && !Take(cfg, s, input).1.Fail?
    ensures Sound(Take(cfg, s, input).0, {}, 0, 0)
    ensures forall id :: Owed(Take(cfg, s, input).0, id) == Owed(s, id) + Asks(input, id)
  {
    hide Sound, TakeBatch, TakeLive, Mutate, HalfClose, Owed;
    match input
    case TakesBatch(b) => BatchSound(cfg, s, b);
    case TakesLive(r) => LiveSound(cfg, s, r);
    case TakesMutate(m) =>
      MutateNeverCloses(cfg, s, m);
      MutateSound(cfg, s, m);
    case TakesHalfClose => HalfCloseSound(s);
  }

  lemma {:induction false} AddAllNeverCloses(a: Adding, order: seq<Topic>, cursors: map<Topic, nat>, mutateId: nat,
                                             historyOnly: bool)
    requires forall t :: t in order ==> t in cursors
    ensures AddAll(a, order, cursors, mutateId, historyOnly).1 != Close
    decreases |order|
  {
    hide DropTopic, Register;
    if order != [] {
      AddAllNeverCloses(AddOne(a, order[0], cursors[order[0]], mutateId, historyOnly).0, order[1..], cursors,
                        mutateId, historyOnly);
    }
  }

  lemma {:induction false} DropAllNeverCloses(s: State, removes: seq<seq<byte>>)
    ensures DropAll(s, removes).1 != Close
    decreases |removes|
  {
    hide DropTopic;
    if removes != [] && SplitTopic(removes[0]).Some? {
      DropAllNeverCloses(DropTopic(s, SplitTopic(removes[0]).value), removes[1..]);
    }
  }

  lemma MutateNeverCloses(cfg: Config, s: State, m: MutateReq)
    ensures Mutate(cfg, s, m).verdict != Close
  {
    hide AddAll, DropAll, ParseAdds, StartWave;
    DropAllNeverCloses(s, m.removes);
    var p0 := Parsed([], map[]);
    if ParseAdds(p0, m.adds).Some? {
      var p := ParseAdds(p0, m.adds).value;
      ParseKeepsOrder(p0, m.adds);
      AddAllNeverCloses(Adding(DropAll(s, m.removes).0, [], [], 0), p.order, p.cursors, m.mutateId, m.historyOnly);
    }
  }

  // ----- runs -----

  lemma InitSound()
    ensures Sound(Init, {}, 0, 0)
  {
    InitBook();
  }

  lemma {:induction false} RunSound(cfg: Config, states: seq<State>, inputs: seq<Input>, i: nat)
    requires WriterRun(cfg, states, inputs) && i <= |inputs|
    ensures Sound(states[i], {}, 0, 0)
    ensures forall id :: Owed(states[i], id) == Asked(inputs[..i], id)
  {
    hide Sound;
    if i == 0 {
      InitSound();
      forall id ensures Owed(states[0], id) == 0 { AnswersOne(Frame.Started, id); }
    } else {
      hide Take, Owed;
      RunSound(cfg, states, inputs, i - 1);
      var s, input := states[i - 1], inputs[i - 1];
      assert Take(cfg, s, input) == (states[i], Continue);
      TakeSound(cfg, s, input);
      assert inputs[..i][..i - 1] == inputs[..i - 1];
      forall id ensures Owed(states[i], id) == Asked(inputs[..i], id) {
        assert Asked(inputs[..i], id) == Asked(inputs[..i - 1], id) + Asks(input, id);
      }
    }
  }

  // ----- the buffer's cap -----

  lemma DropLowers(s: State, t: Topic)
    ensures DropTopic(s, t).pendingBytes <= s.pendingBytes && DropTopic(s, t).halfClosed == s.halfClosed
  {
    SilenceLowers(s, t);
    hide Silence, Disown;
    DisownSame(Silence(s, t), t);
    DropFields(s, t);
  }

  lemma SilenceLowers(s: State, t: Topic)
    ensures Silence(s, t).pendingBytes <= s.pendingBytes
  {
  }

  lemma {:induction false} DropAllLowers(s: State, removes: seq<seq<byte>>)
    ensures DropAll(s, removes).0.pendingBytes <= s.pendingBytes && DropAll(s, removes).0.halfClosed == s.halfClosed
    decreases |removes|
  {
    hide DropTopic;
    if removes != [] && SplitTopic(removes[0]).Some? {
      DropLowers(s, SplitTopic(removes[0]).value);
      DropAllLowers(DropTopic(s, SplitTopic(removes[0]).value), removes[1..]);
    }
  }

  lemma {:induction false} AddAllLowers(a: Adding, order: seq<Topic>, cursors: map<Topic, nat>, mutateId: nat,
                                        historyOnly: bool)
    requires forall t :: t in order ==> t in cursors
    ensures var d := AddAll(a, order, cursors, mutateId, historyOnly).0.s;
            d.pendingBytes <= a.s.pendingBytes && d.halfClosed == a.s.halfClosed
    decreases |order|
  {
    hide DropTopic;
    if order != [] {
      DropLowers(a.s, order[0]);
      var next := AddOne(a, order[0], cursors[order[0]], mutateId, historyOnly).0;
      AddAllLowers(next, order[1..], cursors, mutateId, historyOnly);
    }
  }

  lemma MutateLowers(cfg: Config, s: State, m: MutateReq)
    ensures Mutate(cfg, s, m).s.pendingBytes <= s.pendingBytes && Mutate(cfg, s, m).s.halfClosed == s.halfClosed
  {
    hide AddAll, DropAll, ParseAdds;
    DropAllLowers(s, m.removes);
    var p0 := Parsed([], map[]);
    if ParseAdds(p0, m.adds).Some? {
      var p := ParseAdds(p0, m.adds).value;
      ParseKeepsOrder(p0, m.adds);
      AddAllLowers(Adding(DropAll(s, m.removes).0, [], [], 0), p.order, p.cursors, m.mutateId, m.historyOnly);
    }
  }

  lemma {:induction false} SettleAllLowers(f: Fold, v: nat, topics: seq<Topic>)
    ensures var d := SettleAll(f, v, topics).s;
            d.pendingBytes <= f.s.pendingBytes && d.halfClosed == f.s.halfClosed && d.subscribed == f.s.subscribed
    decreases |topics|
  {
    if topics != [] { SettleAllLowers(Settle(f, v, topics[0]), v, topics[1..]); }
  }

  lemma BatchLowers(cfg: Config, s: State, b: Batch)
    ensures var d := TakeBatch(cfg, s, b).0;
            d.pendingBytes <= s.pendingBytes && d.halfClosed == s.halfClosed && d.subscribed == s.subscribed
  {
    if b.wave in s.waves {
      var w := s.waves[b.wave];
      var s1 := Emit(cfg, s, w.mutateId, Wanted(s.topicWave, b.wave, b.rows));
      SettleAllLowers(Fold(s1, [], [], []), b.wave, w.topics);
      hide SettleAll, Wanted, Survivors, Pack, Advance;
    }
  }

  lemma TakeLowers(cfg: Config, s: State, input: Input)
    requires Take(cfg, s, input).1 == Continue
    ensures Take(cfg, s, input).0.pendingBytes <= s.pendingBytes
         || Take(cfg, s, input).0.pendingBytes <= cfg.maxPendingBytes
  {
    hide TakeBatch, Mutate;
    match input
    case TakesBatch(b) => BatchLowers(cfg, s, b);
    case TakesMutate(m) => MutateLowers(cfg, s, m);
    case _ =>
  }

  // ----- half-close -----

  /** A half-closed stream always has a wave in flight; and while it drains, waves only leave,
      no topic is dropped, and it finishes exactly when the last wave has. */
  ghost predicate Draining(s: State) { s.halfClosed ==> s.waves != map[] }

  lemma CompleteRest(cfg: Config, s: State, v: nat, w: Wave)
    ensures CompleteWave(cfg, s, v, w).halfClosed == s.halfClosed && CompleteWave(cfg, s, v, w).waves == s.waves - {v}
  {
    CompleteMap(cfg, s, v, w);
    SettleAllLowers(Fold(s, [], [], []), v, w.topics);
    hide SettleAll;
  }

  lemma BatchDrains(cfg: Config, s: State, b: Batch)
    ensures var (d, v) := TakeBatch(cfg, s, b);
            && d.waves.Keys <= s.waves.Keys
            && (Draining(s) ==> (v == Close <==> s.halfClosed && d.waves == map[]))
  {
    hide Emit, Wanted, CompleteWave;
    if b.wave in s.waves {
      var w := s.waves[b.wave];
      var s1 := Emit(cfg, s, w.mutateId, Wanted(s.topicWave, b.wave, b.rows));
      EmitWaves(cfg, s, w.mutateId, Wanted(s.topicWave, b.wave, b.rows));
      CompleteRest(cfg, s1, b.wave, w.(scansLeft := w.scansLeft - 1));
      assert b.wave in s1.waves;
    }
  }

  lemma DrainStep(cfg: Config, s: State, input: Input)
    requires Accepts(s, input) && Draining(s)
    ensures var (d, v) := Take(cfg, s, input);
            && (v == Continue ==> Draining(d))
            && (v == Close ==> d.waves == map[])
            && (s.halfClosed ==>
                  && d.halfClosed && d.waves.Keys <= s.waves.Keys && d.subscribed == s.subscribed
                  && (v == Close <==> d.waves == map[]))
  {
    hide TakeBatch, Mutate;
    match input
    case TakesBatch(b) => BatchLowers(cfg, s, b); BatchDrains(cfg, s, b);
    case TakesMutate(m) => MutateLowers(cfg, s, m); MutateNeverCloses(cfg, s, m);
    case _ =>
  }

  lemma {:induction false} RunBounds(cfg: Config, states: seq<State>, inputs: seq<Input>, i: nat)
    requires WriterRun(cfg, states, inputs) && i <= |inputs|
    ensures Draining(states[i]) && (states[i].pendingBytes <= 0 || states[i].pendingBytes <= cfg.maxPendingBytes)
  {
    if i > 0 {
      hide Take, Draining;
      RunBounds(cfg, states, inputs, i - 1);
      var s, input := states[i - 1], inputs[i - 1];
      assert Take(cfg, s, input) == (states[i], Continue);
      DrainStep(cfg, s, input);
      TakeLowers(cfg, s, input);
    }
  }

  // ----- what every run keeps -----

  /** The writer's bookkeeping in every state it can reach, whatever it is fed: the dispatcher's
      topic set and the gauge match `subscribed`, gated topics are subscribed and owned by an
      active wave that lists them, waves count their topics, buffered bytes are counted exactly
      and stay within the cap, and in-flight ids are distinct and nonzero. */
  lemma BookkeepingHolds(cfg: Config, states: seq<State>, inputs: seq<Input>, i: nat)
    requires WriterRun(cfg, states, inputs) && i <= |inputs|
    ensures var s := states[i];
            && s.live == s.subscribed && s.subscribedTopics == |s.subscribed|
            && (forall t :: t in s.catchingUp <==> t in s.subscribed && t in s.topicWave)
            && (forall t :: t in s.topicWave ==> s.topicWave[t] in s.waves && t in s.waves[s.topicWave[t]].topics)
            && (forall v :: v in s.waves ==> s.waves[v].owned == |Owners(s.topicWave, v)| && s.waves[v].owned > 0)
            && s.pending.Keys <= s.catchingUp && s.pendingBytes == HeldBytes(s.pending)
            && (s.pendingBytes == 0 || s.pendingBytes <= cfg.maxPendingBytes)
            && (forall v :: v in s.waves ==> s.waves[v].mutateId != 0)
            && (forall u, v :: u in s.waves && v in s.waves && s.waves[u].mutateId == s.waves[v].mutateId ==> u == v)
  {
    RunSound(cfg, states, inputs, i);
    RunBounds(cfg, states, inputs, i);
    hide Logs, Tags, InFlight, WriterRun;
  }

  /** From an add to the topic's next drop the ids delivered for it strictly increase and lie
      above the add's floor, over replay and live frames alike, whatever rows arrive in
      whatever order and however often. */
  lemma IdsRise(cfg: Config, states: seq<State>, inputs: seq<Input>, i: nat, t: Topic)
    requires WriterRun(cfg, states, inputs) && i <= |inputs| && t in states[i].epochs
    ensures var s := states[i];
            var d := DeliveredSince(s.out, s.epochs[t].start, t);
            && (forall j, k :: 0 <= j < k < |d| ==> d[j].id < d[k].id)
            && (forall r :: r in d ==> s.epochs[t].floor < r.id <= Mark(s.highWater, t))
  {
    RunSound(cfg, states, inputs, i);
    LogOf(states[i], {}, 0, 0, t);
  }

  /** The seam. Since a live topic's registration its frames are first its wave's replay, all
      under the wave's mutate_id; then one TopicsLive naming it, directly followed by the wave's
      CatchupComplete; then live frames, all under 0. While the gate is closed only the first
      part is there. */
  lemma SeamHolds(cfg: Config, states: seq<State>, inputs: seq<Input>, i: nat, t: Topic)
    requires WriterRun(cfg, states, inputs) && i <= |inputs| && t in states[i].subscribed
    ensures t in states[i].epochs && states[i].epochs[t].mutateId != 0
    ensures Seam(states[i].out, states[i].epochs[t], t, t in states[i].catchingUp)
  {
    RunSound(cfg, states, inputs, i);
    SubscribedRegistered(states[i], t);
    LogOf(states[i], {}, 0, 0, t);
  }

  lemma SubscribedRegistered(s: State, t: Topic)
    requires Book(s, {}, 0) && t in s.subscribed
    ensures t in s.epochs
  {
  }

  /** Every Mutate accepted so far has been answered by exactly one CatchupComplete, or its wave
      is in flight and will be: never both, never twice. */
  lemma AnsweredOnce(cfg: Config, states: seq<State>, inputs: seq<Input>, i: nat, id: nat)
    requires WriterRun(cfg, states, inputs) && i <= |inputs|
    ensures Answers(states[i].out, id) + (if InFlight(states[i], id) then 1 else 0) == Asked(inputs[..i], id)
  {
    RunSound(cfg, states, inputs, i);
  }

  /** A clean completion leaves nothing unanswered: the input that ends a run this way finds or
      makes every wave complete, and every Mutate of the run has had its CatchupComplete. */
  lemma CleanCloseAnswersAll(cfg: Config, states: seq<State>, inputs: seq<Input>, last: Input, id: nat)
    requires WriterRun(cfg, states, inputs) && Accepts(states[|inputs|], last)
    requires Take(cfg, states[|inputs|], last).1 == Close
    ensures Take(cfg, states[|inputs|], last).0.waves == map[]
    ensures Answers(Take(cfg, states[|inputs|], last).0.out, id) == Asked(inputs, id)
  {
    var n := |inputs|;
    RunSound(cfg, states, inputs, n);
    RunBounds(cfg, states, inputs, n);
    hide Sound, Take;
    DrainStep(cfg, states[n], last);
    TakeSound(cfg, states[n], last);
    assert inputs[..n] == inputs;
    ClosingAsksNothing(cfg, states[n], last);
  }

  lemma ClosingAsksNothing(cfg: Config, s: State, last: Input)
    requires Take(cfg, s, last).1 == Close
    ensures !last.TakesMutate?
  {
    hide Mutate;
    if last.TakesMutate? { MutateNeverCloses(cfg, s, last.m); }
  }

  /** After a half-close the set of active waves only shrinks, no topic leaves, and the stream
      finishes exactly at the input that completes the last wave. */
  lemma HalfCloseDrains(cfg: Config, states: seq<State>, inputs: seq<Input>, last: Input)
    requires WriterRun(cfg, states, inputs) && Accepts(states[|inputs|], last) && states[|inputs|].halfClosed
    ensures var s := states[|inputs|];
            var (d, v) := Take(cfg, s, last);
            && s.waves != map[]
            && d.waves.Keys <= s.waves.Keys && d.subscribed == s.subscribed
            && (v == Close <==> d.waves == map[])
  {
    RunBounds(cfg, states, inputs, |inputs|);
    hide Take;
    DrainStep(cfg, states[|inputs|], last);
  }

  /** A batch of a wave that no longer owns a topic adds no row of it, even when it is the batch
      that completes the wave. */
  lemma SupersededBatch(cfg: Config, s: State, b: Batch, t: Topic, start: nat)
    requires Sound(s, {}, 0, 0) && !Owns(s, b.wave, t) && start <= |s.out|
    ensures DeliveredSince(TakeBatch(cfg, s, b).0.out, start, t) == DeliveredSince(s.out, start, t)
    ensures SliceOf(TakeBatch(cfg, s, b).0, t) == SliceOf(s, t)
  {
    if b.wave in s.waves {
      var w, rows := s.waves[b.wave], Wanted(s.topicWave, b.wave, b.rows);
      var s1 := Emit(cfg, s, w.mutateId, rows);
      WantedStamped(s, b.wave, b.rows);
      EmitSound(cfg, s, w.mutateId, rows);
      OwnedListed(s1, b.wave);
      WantedOfTopic(s.topicWave, b.wave, b.rows, t);
      EmitSlice(cfg, s, w.mutateId, rows, t);
      SupersededCompletes(cfg, s, s1, b, t, start);
    }
  }

  lemma SupersededCompletes(cfg: Config, s: State, s1: State, b: Batch, t: Topic, start: nat)
    requires b.wave in s.waves && s1 == Emit(cfg, s, s.waves[b.wave].mutateId, Wanted(s.topicWave, b.wave, b.rows))
    requires HeldPure(s1) && start <= |s.out| <= |s1.out| && !Owns(s, b.wave, t) && SliceOf(s1, t) == SliceOf(s, t)
    requires DeliveredSince(s1.out, start, t) == DeliveredSince(s.out, start, t) + []
    ensures DeliveredSince(TakeBatch(cfg, s, b).0.out, start, t) == DeliveredSince(s.out, start, t)
    ensures SliceOf(TakeBatch(cfg, s, b).0, t) == SliceOf(s, t)
  {
    var w := s.waves[b.wave];
    assert DeliveredSince(s.out, start, t) + [] == DeliveredSince(s.out, start, t);
    assert s1.topicWave == s.topicWave;
    CompleteTopicAny(cfg, s1, b.wave, w.(scansLeft := w.scansLeft - 1), t, start);
    hide Emit, Wanted, CompleteWave, DeliveredSince;
    assert SliceOf(WriterSteps.Counted(s, b.wave), t) == SliceOf(s, t);
  }
}
