/** The writer's steps keep the delivery invariant: catch-up batches, wave completion, live
    envelopes, half-close. */
module WriterSteps {
  import opened Rows
  import opened WaveScan
  import opened Fetcher
  import opened Frames
  import opened Writer
  import opened StreamSystem
  import opened Bookkeeping
  import opened TopicSlice
  import opened Delivery
  import V = TopicView

  // ----- a batch of history -----

  lemma InLaneHead(lane: seq<Batch>, v: nat, t: Topic)
    requires lane != []
    ensures InLane(lane, v, t)
         == if lane[0].wave == v then Proj(lane[0].rows, t) + InLane(lane[1..], v, t) else InLane(lane[1..], v, t)
  {
  }

  /** Popping the lane's head, seen by one topic. */
  lemma PopEffect(s: Sys, t: Topic)
    requires s.lane != []
    ensures var s' := s.(lane := s.lane[1..]);
            var v := ViewOf(s, t);
            && ViewOf(s', t) == v.(flight := ViewOf(s', t).flight)
            && (Owns(s.w, s.lane[0].wave, t) ==> v.flight == Proj(s.lane[0].rows, t) + ViewOf(s', t).flight)
            && (!Owns(s.w, s.lane[0].wave, t) ==> ViewOf(s', t) == v)
  {
    hide DeliveredSince, InLane, Position, Proj;
    if t in s.w.topicWave { InLaneHead(s.lane, s.w.topicWave[t], t); }
  }

  /** Framing messages, seen by one registered topic. */
  lemma EmitEffect(cfg: Config, s: Sys, mutateId: nat, msgs: seq<Row>, t: Topic)
    requires SliceOf(s.w, t).start <= |s.w.out|
    ensures var s' := s.(w := Emit(cfg, s.w, mutateId, msgs));
            var v := ViewOf(s, t);
            var rise := Rise(v.hw, Proj(msgs, t));
            && ViewOf(s', t) == v.(hw := LastId(rise, v.hw), del := v.del + rise)
            && SliceOf(s'.w, t).start == SliceOf(s.w, t).start && |s.w.out| <= |s'.w.out|
  {
    EmitSlice(cfg, s.w, mutateId, msgs, t);
    hide DeliveredSince, InLane, Position, Proj, Emit, Rise;
  }

  /** Taking the head batch of an active wave, seen by one topic. */
  lemma HistoryEffect(cfg: Config, s: Sys, mutateId: nat, t: Topic)
    requires s.lane != [] && SliceOf(s.w, t).start <= |s.w.out|
    requires V.ViewOk(ViewOf(s, t), t)
    ensures var b := s.lane[0];
            var s' := s.(lane := s.lane[1..], w := Emit(cfg, s.w, mutateId, Wanted(s.w.topicWave, b.wave, b.rows)));
            V.ViewOk(ViewOf(s', t), t)
  {
    var b := s.lane[0];
    var s1 := s.(lane := s.lane[1..]);
    var got := Proj(Wanted(s.w.topicWave, b.wave, b.rows), t);
    PopEffect(s, t);
    WantedOfTopic(s.w.topicWave, b.wave, b.rows, t);
    EmitEffect(cfg, s1, mutateId, Wanted(s.w.topicWave, b.wave, b.rows), t);
    ViewFields(s, t);
    hide V.ViewOk, ViewOf, Emit, Wanted, SliceOf;
    var v := ViewOf(s, t);
    if Owns(s.w, b.wave, t) {
      V.TakeHistory(v, t, got, ViewOf(s1, t).flight);
    } else {
      assert Rise(v.hw, got) == [];
      assert v.del + [] == v.del;
    }
  }

  lemma HistoryTopics(cfg: Config, s: Sys, mutateId: nat)
    requires s.lane != [] && TopicsOk(s, {})
    ensures var b := s.lane[0];
            TopicsOk(s.(lane := s.lane[1..], w := Emit(cfg, s.w, mutateId, Wanted(s.w.topicWave, b.wave, b.rows))), {})
  {
    var b := s.lane[0];
    var s' := s.(lane := s.lane[1..], w := Emit(cfg, s.w, mutateId, Wanted(s.w.topicWave, b.wave, b.rows)));
    hide V.ViewOk, ViewOf, Wanted;
    forall t | t in s'.w.epochs ensures TopicOk(s', t) {
      assert TopicOk(s, t);
      EmitEffect(cfg, s.(lane := s.lane[1..]), mutateId, Wanted(s.w.topicWave, b.wave, b.rows), t);
      if t !in s.stale { HistoryEffect(cfg, s, mutateId, t); }
    }
  }

  /** A batch of a wave that is gone is dropped, and nobody was waiting for it. */
  lemma StragglerTopics(s: Sys)
    requires s.lane != [] && TopicsOk(s, {}) && Waves(s.w) && s.lane[0].wave !in s.w.waves
    ensures TopicsOk(s.(lane := s.lane[1..]), {})
  {
    var s' := s.(lane := s.lane[1..]);
    hide V.ViewOk, ViewOf;
    forall t | t in s'.w.epochs ensures TopicOk(s', t) {
      assert TopicOk(s, t);
      PopEffect(s, t);
    }
  }

  lemma LaneTail(lane: seq<Batch>, scans: map<ScanId, Scan>)
    requires LaneOk(lane, scans) && lane != []
    ensures LaneOk(lane[1..], scans)
    ensures BatchOk(lane[0], scans)
    ensures lane[0].done ==> forall b :: b in lane[1..] ==> b.wave != lane[0].wave || b.kind != lane[0].kind
  {
    var l := lane[1..];
    forall b | b in l ensures BatchOk(b, scans) { assert b in lane; }
    forall i, j | 0 <= i < j < |l| && l[i].wave == l[j].wave && l[i].kind == l[j].kind ensures !l[i].done {
      assert l[i] == lane[i + 1] && l[j] == lane[j + 1];
    }
    if lane[0].done {
      forall b | b in l ensures b.wave != lane[0].wave || b.kind != lane[0].kind {
        var i :| 0 <= i < |l| && l[i] == b;
        assert lane[i + 1] == b;
      }
    }
  }

  /** Consuming a done marker: its scan is over, and the lane holds nothing more of it. */
  lemma TakeMarker(s: Sys)
    requires s.lane != [] && s.lane[0].done && LaneOk(s.lane, s.scans) && ScansOk(s)
    ensures var b := s.lane[0];
            var id := ScanId(b.wave, b.kind);
            && id in s.scans && !s.scans[id].taken && s.scans[id].done && b.rows == []
            && (var scans := s.scans[id := s.scans[id].(taken := true)];
                LaneOk(s.lane[1..], scans) && ScansOk(s.(scans := scans)))
  {
    var b := s.lane[0];
    var id := ScanId(b.wave, b.kind);
    LaneTail(s.lane, s.scans);
    assert BatchOk(b, s.scans);
    var scans := s.scans[id := s.scans[id].(taken := true)];
    hide ScansOk;
    forall x | x in s.lane[1..] ensures BatchOk(x, scans) {
      assert BatchOk(x, s.scans);
      assert ScanId(x.wave, x.kind) != id;
    }
    TakenScans(s, id);
  }

  lemma TakenScans(s: Sys, id: ScanId)
    requires ScansOk(s) && id in s.scans && s.scans[id].done
    ensures ScansOk(s.(scans := s.scans[id := s.scans[id].(taken := true)]))
  {
    assert ScanOk(s.scans[id], id.kind, MaxId(Table(s, id.kind)));
  }

  /** Steps that change the lane, the scans and the writer only. */
  lemma SameQueue(s: Sys, s': Sys)
    requires EnvOk(s) && QueueOk(s)
    requires s'.groups == s.groups && s'.welcomes == s.welcomes && s'.queue == s.queue
    requires s'.groupSeen == s.groupSeen && s'.welcomeSeen == s.welcomeSeen
    ensures EnvOk(s') && QueueOk(s')
  {
    forall t: Topic ensures Ascending(Proj(s'.queue, t)) &&
                            V.FromTable(Table(s', t.kind), t, Seen(s', t.kind), Proj(s'.queue, t))
    {
      assert V.FromTable(Table(s, t.kind), t, Seen(s, t.kind), Proj(s.queue, t));
    }
  }

  lemma EmitSame(cfg: Config, s: State, mutateId: nat, msgs: seq<Row>)
    ensures var d := Emit(cfg, s, mutateId, msgs);
            && d.waves == s.waves && d.topicWave == s.topicWave && d.epochs == s.epochs && d.nextWave == s.nextWave
            && d.subscribed == s.subscribed && d.halfClosed == s.halfClosed && d.catchingUp == s.catchingUp
  {
  }

  lemma WaveScansSame(w: State, w': State, scans: map<ScanId, Scan>)
    requires WaveScans(w, scans) && w'.waves == w.waves && w'.topicWave == w.topicWave && w'.epochs == w.epochs
    ensures WaveScans(w', scans)
  {
  }

  lemma StaleSame(s: Sys, s': Sys)
    requires StaleOk(s, {}) && s'.stale == s.stale && s'.w.topicWave == s.w.topicWave && s'.w.epochs == s.w.epochs
    requires s'.w.subscribed == s.w.subscribed
    ensures StaleOk(s', {})
  {
  }

  lemma InvHistory(cfg: Config, s: Sys)
    requires Inv(s) && s.lane != [] && !s.lane[0].done && s.lane[0].wave in s.w.waves
    ensures var b := s.lane[0];
            Inv(s.(lane := s.lane[1..],
                   w := Emit(cfg, s.w, s.w.waves[b.wave].mutateId, Wanted(s.w.topicWave, b.wave, b.rows))))
  {
    var b := s.lane[0];
    var mid := s.w.waves[b.wave].mutateId;
    var msgs := Wanted(s.w.topicWave, b.wave, b.rows);
    var s' := s.(lane := s.lane[1..], w := Emit(cfg, s.w, mid, msgs));
    hide EnvOk, QueueOk, Book, LaneOk, WaveScans, TopicsOk, ScansOk, StaleOk, Emit, Wanted;
    HistoryTopics(cfg, s, mid);
    LaneTail(s.lane, s.scans);
    EmitBook(cfg, s.w, mid, msgs, {}, 0);
    EmitSame(cfg, s.w, mid, msgs);
    WaveScansSame(s.w, s'.w, s.scans);
    StaleSame(s, s');
    ScansSame(s, s');
    SameQueue(s, s');
  }

  lemma InvStraggler(s: Sys)
    requires Inv(s) && s.lane != [] && !s.lane[0].done && s.lane[0].wave !in s.w.waves
    ensures Inv(s.(lane := s.lane[1..]))
  {
    var s' := s.(lane := s.lane[1..]);
    BookWaves(s.w);
    hide EnvOk, QueueOk, Book, LaneOk, WaveScans, TopicsOk, ScansOk, StaleOk;
    StragglerTopics(s);
    LaneTail(s.lane, s.scans);
    StaleSame(s, s');
    ScansSame(s, s');
    SameQueue(s, s');
  }

  lemma BookWaves(w: State)
    requires Book(w, {}, 0)
    ensures Waves(w) && HeldPure(w) && w.pending.Keys <= w.catchingUp
    ensures forall t :: t in w.epochs && t in w.topicWave && t !in w.catchingUp ==> t !in w.subscribed
  {
  }

  // ----- a done marker -----

  /** The state once the writer has consumed the done marker at the lane's head. */
  function Marked(s: Sys): Sys
    requires s.lane != []
  {
    MarkTaken(s.(lane := s.lane[1..]), s.lane[0])
  }

  lemma MarkedScans(s: Sys)
    requires s.lane != [] && s.lane[0].done && LaneOk(s.lane, s.scans) && ScansOk(s)
    ensures var id := ScanId(s.lane[0].wave, s.lane[0].kind);
            && id in s.scans && !s.scans[id].taken && s.scans[id].done
            && Marked(s) == s.(lane := s.lane[1..], scans := s.scans[id := s.scans[id].(taken := true)])
            && LaneOk(Marked(s).lane, Marked(s).scans) && ScansOk(Marked(s))
    ensures s.lane[0].rows == []
    ensures forall v :: Left(Marked(s).scans, v) == Left(s.scans, v) - if v == s.lane[0].wave then 1 else 0
  {
    hide LaneOk, ScansOk, Left, Marked;
    TakeMarker(s);
    var id := ScanId(s.lane[0].wave, s.lane[0].kind);
    MarkedIs(s);
    LeftTaken(s.scans, id);
    ScansSame(s.(scans := Marked(s).scans), Marked(s));
  }

  lemma MarkedIs(s: Sys)
    requires s.lane != [] && s.lane[0].done && ScanId(s.lane[0].wave, s.lane[0].kind) in s.scans
    ensures var id := ScanId(s.lane[0].wave, s.lane[0].kind);
            Marked(s) == s.(lane := s.lane[1..], scans := s.scans[id := s.scans[id].(taken := true)])
  {
  }

  lemma LeftTaken(scans: map<ScanId, Scan>, id: ScanId)
    requires id in scans && !scans[id].taken
    ensures var scans' := scans[id := scans[id].(taken := true)];
            forall v :: Left(scans', v) == Left(scans, v) - if v == id.wave then 1 else 0
  {
    match id.kind
    case Group => assert id == ScanId(id.wave, Group);
    case Welcome => assert id == ScanId(id.wave, Welcome);
  }

  /** The marker touches its own scan's `taken` only. */
  lemma MarkedAccounts(s: Sys)
    requires s.lane != [] && s.lane[0].done && LaneOk(s.lane, s.scans) && ScansOk(s)
    ensures Marked(s).scans.Keys == s.scans.Keys
    ensures forall id :: id in s.scans ==> Marked(s).scans[id].adds == s.scans[id].adds
    ensures forall v :: Left(Marked(s).scans, v) == Left(s.scans, v) - if v == s.lane[0].wave then 1 else 0
  {
    hide LaneOk, ScansOk, Left;
    MarkedScans(s);
  }

  lemma MarkedView(s: Sys, t: Topic)
    requires s.lane != [] && s.lane[0].rows == []
    ensures ViewOf(Marked(s), t) == ViewOf(s, t)
  {
    var s1 := s.(lane := s.lane[1..]);
    var b := s.lane[0];
    var id := ScanId(b.wave, b.kind);
    PopEffect(s, t);
    assert Proj(b.rows, t) == [];
    hide Proj, InLane, DeliveredSince, Position;
    assert [] + ViewOf(s1, t).flight == ViewOf(s1, t).flight;
    if b.done && id in s.scans {
      ScanEffect(s1, id, s.scans[id].(taken := true), t);
      if Serves(s, id, t) { ServedView(s1, id, t); }
    }
  }

  lemma MarkedTopics(s: Sys)
    requires s.lane != [] && s.lane[0].rows == [] && TopicsOk(s, {})
    ensures TopicsOk(Marked(s), {})
  {
    assert Marked(s).w == s.w && Marked(s).stale == s.stale;
    hide V.ViewOk, ViewOf, Marked;
    forall t | t in s.w.epochs ensures TopicOk(Marked(s), t) {
      assert TopicOk(s, t);
      MarkedView(s, t);
    }
  }

  lemma MarkedRest(s: Sys)
    requires s.lane != []
    ensures var d := Marked(s); d == s.(lane := d.lane, scans := d.scans)
  {
  }

  /** Everything but the wave's own count survives the marker. */
  lemma MarkedInv(s: Sys)
    requires Inv(s) && s.lane != [] && s.lane[0].done
    ensures EnvOk(Marked(s)) && QueueOk(Marked(s)) && ScansOk(Marked(s)) && LaneOk(Marked(s).lane, Marked(s).scans)
    ensures StaleOk(Marked(s), {}) && TopicsOk(Marked(s), {})
    ensures Marked(s).w == s.w && s.lane[0].rows == []
  {
    hide EnvOk, QueueOk, Book, LaneOk, WaveScans, TopicsOk, ScansOk, StaleOk, Marked, Left;
    MarkedScans(s);
    MarkedTopics(s);
    MarkedRest(s);
    SameQueue(s, Marked(s));
    StaleSame(s, Marked(s));
  }

  /** Counting one scan of a wave as finished. */
  function Counted(w: State, v: nat): State
    requires v in w.waves
  {
    w.(waves := w.waves[v := w.waves[v].(scansLeft := w.waves[v].scansLeft - 1)])
  }

  lemma CountedBook(w: State, v: nat)
    requires Book(w, {}, 0) && v in w.waves
    ensures Book(Counted(w, v), {}, 0)
  {
    hide Gauges, Gates, Ids, Waves;
    GaugesSame(w, Counted(w, v), 0);
    GatesSame(w, Counted(w, v));
    IdsKept(w, Counted(w, v));
    CountedWaves(w, v);
  }

  lemma CountedWaves(w: State, v: nat)
    requires Waves(w) && v in w.waves
    ensures Waves(Counted(w, v))
  {
    hide Owners;
  }

  lemma CountedScans(w: State, v: nat, scans: map<ScanId, Scan>, scans': map<ScanId, Scan>)
    requires WaveScans(w, scans) && v in w.waves
    requires scans'.Keys == scans.Keys && forall id :: id in scans ==> scans'[id].adds == scans[id].adds
    requires forall u :: Left(scans', u) == Left(scans, u) - if u == v then 1 else 0
    ensures WaveScans(Counted(w, v), scans')
  {
  }

  lemma CountedTopics(s: Sys, v: nat)
    requires TopicsOk(s, {}) && v in s.w.waves
    ensures TopicsOk(s.(w := Counted(s.w, v)), {})
  {
    var s' := s.(w := Counted(s.w, v));
    hide V.ViewOk;
    forall t | t in s'.w.epochs ensures TopicOk(s', t) {
      assert TopicOk(s, t);
      assert ViewOf(s', t) == ViewOf(s, t);
    }
  }

  /** A done marker that is not the wave's last. */
  lemma InvCounted(s: Sys)
    requires Inv(s) && s.lane != [] && s.lane[0].done && s.lane[0].wave in s.w.waves
    ensures Inv(Marked(s).(w := Counted(s.w, s.lane[0].wave)))
  {
    var v := s.lane[0].wave;
    var s1 := Marked(s);
    var s' := s1.(w := Counted(s.w, v));
    hide EnvOk, QueueOk, Book, LaneOk, WaveScans, TopicsOk, ScansOk, StaleOk, Marked, Left;
    MarkedInv(s);
    MarkedAccounts(s);
    CountedBook(s.w, v);
    CountedScans(s.w, v, s.scans, s1.scans);
    CountedTopics(s1, v);
    ScansSame(s1, s');
    SameQueue(s1, s');
    StaleSame(s1, s');
  }

  lemma GoneScans(w: State, v: nat, scans: map<ScanId, Scan>, scans': map<ScanId, Scan>)
    requires WaveScans(w, scans) && v !in w.waves
    requires scans'.Keys == scans.Keys && forall id :: id in scans ==> scans'[id].adds == scans[id].adds
    requires forall u :: Left(scans', u) == Left(scans, u) - if u == v then 1 else 0
    ensures WaveScans(w, scans')
  {
  }

  /** A done marker of a wave that is gone. */
  lemma InvMarkedStraggler(s: Sys)
    requires Inv(s) && s.lane != [] && s.lane[0].done && s.lane[0].wave !in s.w.waves
    ensures Inv(Marked(s))
  {
    hide EnvOk, QueueOk, Book, LaneOk, WaveScans, TopicsOk, ScansOk, StaleOk, Marked, Left;
    MarkedInv(s);
    MarkedAccounts(s);
    GoneScans(s.w, s.lane[0].wave, s.scans, Marked(s).scans);
  }

  // ----- completing a wave -----

  /** When a wave's last marker is consumed, each of its topics stands at the end of its scan
      with nothing left in the lane. */
  lemma {:induction false} NothingInLane(lane: seq<Batch>, v: nat, t: Topic)
    requires forall b :: b in lane && b.wave == v ==> Proj(b.rows, t) == []
    ensures InLane(lane, v, t) == []
  {
    if lane != [] {
      assert lane == [lane[0]] + lane[1..];
      NothingInLane(lane[1..], v, t);
    }
  }

  lemma TakenLane(lane: seq<Batch>, scans: map<ScanId, Scan>, v: nat, t: Topic)
    requires LaneOk(lane, scans) && ScanId(v, t.kind) in scans && scans[ScanId(v, t.kind)].taken
    ensures InLane(lane, v, t) == []
  {
    forall b | b in lane && b.wave == v ensures Proj(b.rows, t) == [] {
      assert BatchOk(b, scans);
      assert b.kind != t.kind;
      ProjOfOthers(b.rows, t);
    }
    NothingInLane(lane, v, t);
  }

  lemma ScanOver(s: Sys, v: nat, t: Topic)
    requires ScansOk(s) && LaneOk(s.lane, s.scans) && Owns(s.w, v, t)
    requires ScanId(v, t.kind) in s.scans && Left(s.scans, v) == 0
    ensures var view := ViewOf(s, t); view.inWave && view.started && view.flight == [] && view.pos == view.end
  {
    var id := ScanId(v, t.kind);
    ScanAt(s, id);
    assert s.scans[id].taken;
    TakenLane(s.lane, s.scans, v, t);
    assert s.scans[id].queue == [] && s.scans[id].started;
    hide DeliveredSince, InLane, Proj;
  }

  /** With the gate open, the scan's traces no longer matter. */
  lemma LeaveWave(v: V.View, t: Topic, started: bool, end: nat, pos: nat, flight: seq<Row>)
    requires V.ViewOk(v, t) && !v.inWave
    ensures V.ViewOk(v.(started := started, end := end, pos := pos, flight := flight), t)
  {
  }

  lemma CompletedView(s: Sys, w: State, t: Topic, rise: seq<Row>)
    requires SliceOf(w, t) == CompletedSlice(SliceOf(s.w, t), true, rise) && SliceOf(s.w, t).gated
    requires SliceOf(s.w, t).wave.Some?
    requires DeliveredSince(w.out, SliceOf(s.w, t).start, t) == DeliveredSince(s.w.out, SliceOf(s.w, t).start, t) + rise
    ensures var v := ViewOf(s, t);
            var v' := ViewOf(s.(w := w), t);
            v' == v.(hw := LastId(rise, v.hw), del := v.del + rise, inWave := false, gated := false, held := [],
                     started := v'.started, end := v'.end, pos := v'.pos, flight := v'.flight)
  {
    hide DeliveredSince, InLane, Proj, Position;
  }

  lemma UntouchedView(s: Sys, w: State, t: Topic)
    requires SliceOf(w, t) == SliceOf(s.w, t)
    requires DeliveredSince(w.out, SliceOf(s.w, t).start, t) == DeliveredSince(s.w.out, SliceOf(s.w, t).start, t)
    ensures ViewOf(s.(w := w), t) == ViewOf(s, t)
  {
    hide DeliveredSince, InLane, Proj, Position;
  }

  /** A gated topic's view through the completion of its wave. */
  lemma CompleteOwned(cfg: Config, s: Sys, v: nat, wave: Wave, t: Topic)
    requires TableOk(Table(s, t.kind), t.kind) && HeldPure(s.w)
    requires Owns(s.w, v, t) && t in s.w.catchingUp && t in wave.topics
    requires SliceOf(s.w, t).start <= |s.w.out| && V.ViewOk(ViewOf(s, t), t)
    requires ViewOf(s, t).started && ViewOf(s, t).flight == [] && ViewOf(s, t).pos == ViewOf(s, t).end
    ensures V.ViewOk(ViewOf(s.(w := CompleteWave(cfg, s.w, v, wave)), t), t)
  {
    var view, sl := ViewOf(s, t), SliceOf(s.w, t);
    ViewFields(s, t);
    HeldIsView(s, t);
    V.ConcatAscending(view.held, view.queued);
    V.OpenGate(view, t);
    CompleteTopic(cfg, s.w, v, wave, t, sl.start);
    hide V.ViewOk, ViewOf, CompleteWave, DeliveredSince;
    var rise := Rise(sl.mark, sl.held);
    var w := CompleteWave(cfg, s.w, v, wave);
    CompletedView(s, w, t, rise);
    var view' := ViewOf(s.(w := w), t);
    var free := view.(hw := LastId(rise, view.hw), del := view.del + rise, inWave := false, gated := false, held := []);
    LeaveWave(free, t, view'.started, view'.end, view'.pos, view'.flight);
  }

  lemma HeldIsView(s: Sys, t: Topic)
    ensures ViewOf(s, t).held == PendingOf(s.w, t) == SliceOf(s.w, t).held
    ensures ViewOf(s, t).hw == SliceOf(s.w, t).mark && (ViewOf(s, t).gated <==> SliceOf(s.w, t).gated)
    ensures ViewOf(s, t).queued == Proj(s.queue, t)
  {
  }

  /** A topic the wave does not own passes through its completion untouched. */
  lemma CompleteOther(cfg: Config, s: Sys, v: nat, wave: Wave, t: Topic)
    requires HeldPure(s.w) && !Owns(s.w, v, t) && Ascending(PendingOf(s.w, t)) && SliceOf(s.w, t).start <= |s.w.out|
    ensures ViewOf(s.(w := CompleteWave(cfg, s.w, v, wave)), t) == ViewOf(s, t)
    ensures SliceOf(CompleteWave(cfg, s.w, v, wave), t) == SliceOf(s.w, t)
  {
    var start := SliceOf(s.w, t).start;
    CompleteTopic(cfg, s.w, v, wave, t, start);
    hide ViewOf, CompleteWave, DeliveredSince, SliceOf;
    assert DeliveredSince(s.w.out, start, t) + [] == DeliveredSince(s.w.out, start, t);
    UntouchedView(s, CompleteWave(cfg, s.w, v, wave), t);
  }

  /** What is held for a registered topic is in order. */
  lemma HeldAscends(s: Sys, t: Topic)
    requires TopicOk(s, t) && s.w.pending.Keys <= s.w.catchingUp && (t in s.stale ==> t !in s.w.catchingUp)
    ensures Ascending(PendingOf(s.w, t))
  {
    HeldIsView(s, t);
    if t !in s.stale { V.ConcatAscending(ViewOf(s, t).held, ViewOf(s, t).queued); }
  }

  /** One topic through the completion of wave `v`, in a state whose last marker was consumed. */
  lemma CompleteTopicOk(cfg: Config, s: Sys, v: nat, wave: Wave, t: Topic)
    requires EnvOk(s) && ScansOk(s) && LaneOk(s.lane, s.scans) && Left(s.scans, v) == 0
    requires HeldPure(s.w) && s.w.pending.Keys <= s.w.catchingUp
    requires t in s.stale ==> t in s.w.topicWave && t !in s.w.catchingUp
    requires TopicOk(s, t)
    requires Owns(s.w, v, t) ==> t in wave.topics && ScanId(v, t.kind) in s.scans
    requires t in s.w.epochs && t in CompleteWave(cfg, s.w, v, wave).epochs
    ensures TopicOk(s.(w := CompleteWave(cfg, s.w, v, wave)), t)
    ensures Owns(s.w, v, t) ==> t in s.w.catchingUp
    ensures CompleteWave(cfg, s.w, v, wave).epochs[t].floor == s.w.epochs[t].floor
  {
    hide V.ViewOk, ViewOf, CompleteWave, ScansOk, LaneOk, EnvOk, HeldPure, Left, DeliveredSince;
    TablesOk(s);
    HeldAscends(s, t);
    CompleteTopic(cfg, s.w, v, wave, t, SliceOf(s.w, t).start);
    CompleteKeeps(cfg, s.w, v, wave, t);
    if Owns(s.w, v, t) {
      ScanOver(s, v, t);
      CompleteOwned(cfg, s, v, wave, t);
    } else {
      CompleteOther(cfg, s, v, wave, t);
    }
  }

  lemma TablesOk(s: Sys)
    requires EnvOk(s)
    ensures forall k :: TableOk(Table(s, k), k)
  {
  }

  lemma CompleteKeeps(cfg: Config, w: State, v: nat, wave: Wave, t: Topic)
    requires HeldPure(w) && Ascending(PendingOf(w, t)) && (Owns(w, v, t) ==> t in wave.topics)
    requires SliceOf(w, t).start <= |w.out|
    requires t in w.epochs && t in CompleteWave(cfg, w, v, wave).epochs
    ensures Owns(w, v, t) ==> t in w.catchingUp
    ensures CompleteWave(cfg, w, v, wave).epochs[t].floor == w.epochs[t].floor
    ensures SliceOf(CompleteWave(cfg, w, v, wave), t).start == SliceOf(w, t).start
  {
    hide CompleteWave, DeliveredSince;
    CompleteTopic(cfg, w, v, wave, t, SliceOf(w, t).start);
    assert SliceOf(CompleteWave(cfg, w, v, wave), t).has;
  }

  /** Completion registers nothing. */
  lemma {:induction false} SettleAllEpochs(f: Fold, v: nat, topics: seq<Topic>)
    ensures SettleAll(f, v, topics).s.epochs.Keys <= f.s.epochs.Keys
    decreases |topics|
  {
    if topics != [] { SettleAllEpochs(Settle(f, v, topics[0]), v, topics[1..]); }
  }

  lemma CompleteEpochs(cfg: Config, w: State, v: nat, wave: Wave)
    ensures CompleteWave(cfg, w, v, wave).epochs.Keys <= w.epochs.Keys
  {
    SettleAllEpochs(Fold(w, [], [], []), v, wave.topics);
    hide SettleAll, FinishFold;
    FinishBook(cfg, SettleAll(Fold(w, [], [], []), v, wave.topics), v, wave.mutateId);
  }

  lemma CompleteTopics(cfg: Config, s: Sys, v: nat, wave: Wave)
    requires EnvOk(s) && ScansOk(s) && LaneOk(s.lane, s.scans) && Left(s.scans, v) == 0
    requires Waves(s.w) && HeldPure(s.w) && s.w.pending.Keys <= s.w.catchingUp && s.w.catchingUp <= s.w.subscribed
    requires StaleOk(s, {}) && TopicsOk(s, {})
    requires v in s.w.waves && wave.topics == s.w.waves[v].topics
    requires forall t :: t in s.w.topicWave ==> ScanId(s.w.topicWave[t], t.kind) in s.scans
    ensures TopicsOk(s.(w := CompleteWave(cfg, s.w, v, wave)), {})
    ensures forall t :: t in CompleteWave(cfg, s.w, v, wave).epochs ==>
              t in s.w.epochs && (Owns(s.w, v, t) ==> t in s.w.catchingUp)
              && CompleteWave(cfg, s.w, v, wave).epochs[t].floor == s.w.epochs[t].floor
  {
    var w := CompleteWave(cfg, s.w, v, wave);
    CompleteEpochs(cfg, s.w, v, wave);
    hide TopicOk, CompleteWave, ScansOk, LaneOk, EnvOk, HeldPure, Left;
    forall t | t in w.epochs ensures TopicOk(s.(w := w), t) && t in s.w.epochs &&
                                     (Owns(s.w, v, t) ==> t in s.w.catchingUp)
                                     && w.epochs[t].floor == s.w.epochs[t].floor
    {
      assert t in w.epochs.Keys && t in s.w.epochs.Keys;
      CompleteTopicOk(cfg, s, v, wave, t);
    }
  }

  lemma CompleteScans(w: State, w': State, v: nat, scans: map<ScanId, Scan>, scans': map<ScanId, Scan>)
    requires WaveScans(w, scans) && v in w.waves && w'.waves == w.waves - {v}
    requires scans'.Keys == scans.Keys && forall id :: id in scans ==> scans'[id].adds == scans[id].adds
    requires forall u :: Left(scans', u) == Left(scans, u) - if u == v then 1 else 0
    requires forall t :: t in w'.topicWave ==> t in w.topicWave && w'.topicWave[t] == w.topicWave[t]
    requires forall t :: t in w'.topicWave ==> t in w'.epochs
    requires forall t :: t in w'.epochs ==> t in w.epochs && w'.epochs[t].floor == w.epochs[t].floor
    ensures WaveScans(w', scans')
  {
  }

  lemma CompleteStale(s: Sys, s': Sys, v: nat)
    requires StaleOk(s, {}) && s'.stale == s.stale && s'.w.subscribed == s.w.subscribed
    requires s.w.catchingUp <= s.w.subscribed
    requires forall t :: t in s'.w.topicWave <==> t in s.w.topicWave && s.w.topicWave[t] != v
    requires forall t :: t in s'.w.epochs ==> t in s.w.epochs && (Owns(s.w, v, t) ==> t in s.w.catchingUp)
    ensures StaleOk(s', {})
  {
  }

  lemma CompleteFields(cfg: Config, w: State, v: nat, wave: Wave)
    requires Book(w, {}, 0) && v in w.waves && wave.topics == w.waves[v].topics
    ensures var d := CompleteWave(cfg, w, v, wave);
            && d.nextWave == w.nextWave && d.subscribed == w.subscribed && d.halfClosed == w.halfClosed
            && (forall t :: t in d.topicWave ==> t in w.topicWave && d.topicWave[t] == w.topicWave[t])
            && (forall t :: t in d.topicWave ==> t in d.epochs)
  {
    CompleteBook(cfg, w, v, wave);
    hide SettleAll, FinishFold, Gauges;
    SettleAllBook(Fold(w, [], [], []), v, wave.topics);
    FinishBook(cfg, SettleAll(Fold(w, [], [], []), v, wave.topics), v, wave.mutateId);
  }

  lemma BookParts(w: State)
    requires Book(w, {}, 0)
    ensures Waves(w) && HeldPure(w) && w.pending.Keys <= w.catchingUp && w.catchingUp <= w.subscribed
  {
  }

  lemma WaveScansParts(w: State, scans: map<ScanId, Scan>)
    requires WaveScans(w, scans)
    ensures forall t :: t in w.topicWave ==> ScanId(w.topicWave[t], t.kind) in scans
    ensures forall v :: v in w.waves ==> w.waves[v].scansLeft == Left(scans, v)
  {
  }

  /** The wave's last done marker: the fold, TopicsLive, CatchupComplete, and the gates open. */
  lemma InvComplete(cfg: Config, s: Sys, wave: Wave)
    requires Inv(s) && s.lane != [] && s.lane[0].done && s.lane[0].wave in s.w.waves
    requires s.w.waves[s.lane[0].wave].scansLeft - 1 <= 0
    requires wave.topics == s.w.waves[s.lane[0].wave].topics
    ensures Inv(Marked(s).(w := CompleteWave(cfg, s.w, s.lane[0].wave, wave)))
  {
    var v := s.lane[0].wave;
    var s1 := Marked(s);
    var w := CompleteWave(cfg, s.w, v, wave);
    var s' := s1.(w := w);
    hide EnvOk, QueueOk, Book, LaneOk, WaveScans, TopicsOk, ScansOk, StaleOk, Marked, Left, CompleteWave, Waves,
         HeldPure;
    MarkedInv(s);
    MarkedAccounts(s);
    BookParts(s.w);
    WaveScansParts(s.w, s.scans);
    CompleteBook(cfg, s.w, v, wave);
    CompleteFields(cfg, s.w, v, wave);
    LeftIsNatural(s1.scans, v);
    CompleteTopics(cfg, s1, v, wave);
    CompleteScans(s.w, w, v, s.scans, s1.scans);
    CompleteStale(s1, s', v);
    ScansSame(s1, s');
    SameQueue(s1, s');
  }

  lemma LeftIsNatural(scans: map<ScanId, Scan>, v: nat)
    ensures Left(scans, v) >= 0
  {
  }

  lemma EmitNothing(cfg: Config, s: State, mutateId: nat, v: nat)
    ensures Emit(cfg, s, mutateId, Wanted(s.topicWave, v, [])) == s
  {
    assert s.out + [] == s.out;
  }

  /** What the writer does with the lane's head, case by case. */
  lemma BatchCases(world: World, s: Sys)
    requires Enabled(world, s, WriterBatch) && (s.lane[0].done ==> s.lane[0].rows == [])
    ensures var b, cfg := s.lane[0], world.cfg;
            Apply(world, s, WriterBatch).(ended := s.ended) ==
              if b.wave !in s.w.waves then (if b.done then Marked(s) else s.(lane := s.lane[1..]))
              else
                var w := s.w.waves[b.wave];
                if !b.done then
                  s.(lane := s.lane[1..], w := Emit(cfg, s.w, w.mutateId, Wanted(s.w.topicWave, b.wave, b.rows)))
                else if w.scansLeft - 1 > 0 then Marked(s).(w := Counted(s.w, b.wave))
                else Marked(s).(w := CompleteWave(cfg, s.w, b.wave, w.(scansLeft := w.scansLeft - 1)))
  {
    hide Emit, Wanted, CompleteWave;
    var b := s.lane[0];
    if b.done && b.wave in s.w.waves { EmitNothing(world.cfg, s.w, s.w.waves[b.wave].mutateId, b.wave); }
  }

  /** Taking a batch keeps the invariant, whatever the batch is. */
  lemma InvBatch(world: World, s: Sys)
    requires Inv(s) && Enabled(world, s, WriterBatch)
    ensures Inv(Apply(world, s, WriterBatch).(ended := s.ended))
  {
    hide Inv, Apply, Marked, Emit, Wanted, CompleteWave;
    var b, cfg := s.lane[0], world.cfg;
    if b.done { MarkerIsEmpty(s); }
    BatchCases(world, s);
    if b.wave !in s.w.waves {
      if b.done { InvMarkedStraggler(s); } else { InvStraggler(s); }
    } else if !b.done {
      InvHistory(cfg, s);
    } else if s.w.waves[b.wave].scansLeft - 1 > 0 {
      InvCounted(s);
    } else {
      InvComplete(cfg, s, s.w.waves[b.wave].(scansLeft := s.w.waves[b.wave].scansLeft - 1));
    }
  }

  lemma MarkerIsEmpty(s: Sys)
    requires Inv(s) && s.lane != [] && s.lane[0].done
    ensures s.lane[0].rows == []
  {
    hide EnvOk, QueueOk, Book, LaneOk, WaveScans, TopicsOk, ScansOk, StaleOk;
    MarkedInv(s);
  }

  // ----- a live envelope -----

  lemma QueueTail(s: Sys)
    requires QueueOk(s) && s.queue != []
    ensures QueueOk(s.(queue := s.queue[1..]))
    ensures forall t ::
              Proj(s.queue, t)
              == if s.queue[0].topic == t then [s.queue[0]] + Proj(s.queue[1..], t) else Proj(s.queue[1..], t)
  {
    var q, r := s.queue[1..], s.queue[0];
    forall t: Topic ensures Ascending(Proj(q, t)) && V.FromTable(Table(s, t.kind), t, Seen(s, t.kind), Proj(q, t)) {
      assert V.FromTable(Table(s, t.kind), t, Seen(s, t.kind), Proj(s.queue, t));
      if r.topic == t { V.TailFacts(Table(s, t.kind), t, Seen(s, t.kind), r, Proj(q, t)); }
    }
  }

  lemma HoldSlice(s: State, r: Row, t: Topic)
    requires r.topic != t && r.topic in s.catchingUp
    ensures SliceOf(s.(pending := s.pending[r.topic := PendingOf(s, r.topic) + [r]],
                       pendingBytes := s.pendingBytes + r.wire), t) == SliceOf(s, t)
  {
  }

  /** Only the queue and the writer changed, and neither for this topic. */
  lemma SameView(s: Sys, s': Sys, t: Topic)
    requires s' == s.(queue := s'.queue, w := s'.w) && Proj(s'.queue, t) == Proj(s.queue, t)
    requires SliceOf(s'.w, t) == SliceOf(s.w, t)
    requires DeliveredSince(s'.w.out, SliceOf(s.w, t).start, t) == DeliveredSince(s.w.out, SliceOf(s.w, t).start, t)
    ensures ViewOf(s', t) == ViewOf(s, t)
  {
    hide DeliveredSince, InLane, Position, Proj, SliceOf;
  }

  lemma EmitOther(cfg: Config, s: State, r: Row, t: Topic)
    requires r.topic != t && SliceOf(s, t).start <= |s.out|
    ensures var d := Emit(cfg, s, 0, [r]);
            && SliceOf(d, t) == SliceOf(s, t) && |s.out| <= |d.out|
            && DeliveredSince(d.out, SliceOf(s, t).start, t) == DeliveredSince(s.out, SliceOf(s, t).start, t)
  {
    assert [r][1..] == [];
    assert Proj([r], t) == [];
    EmitSlice(cfg, s, 0, [r], t);
    hide DeliveredSince, Emit, Proj;
    assert DeliveredSince(s.out, SliceOf(s, t).start, t) + [] == DeliveredSince(s.out, SliceOf(s, t).start, t);
  }

  /** Taking the head envelope changes nothing for other topics. */
  lemma LiveOther(cfg: Config, s: Sys, t: Topic)
    requires s.queue != [] && s.queue[0].topic != t && SliceOf(s.w, t).start <= |s.w.out|
    requires Proj(s.queue[1..], t) == Proj(s.queue, t)
    ensures var w := TakeLive(cfg, s.w, s.queue[0]).0;
            && ViewOf(s.(queue := s.queue[1..], w := w), t) == ViewOf(s, t)
            && SliceOf(w, t).start == SliceOf(s.w, t).start && |s.w.out| <= |w.out|
  {
    var r := s.queue[0];
    var s' := s.(queue := s.queue[1..], w := TakeLive(cfg, s.w, r).0);
    hide ViewOf, SliceOf, DeliveredSince, Proj, Emit;
    if r.topic in s.w.catchingUp {
      HoldSlice(s.w, r, t);
    } else {
      EmitOther(cfg, s.w, r, t);
    }
    SameView(s, s', t);
  }

  /** The head envelope of a gated topic moves to its buffer. */
  lemma LiveGated(cfg: Config, s: Sys, t: Topic)
    requires s.queue != [] && s.queue[0].topic == t && t in s.w.catchingUp
    ensures var w := TakeLive(cfg, s.w, s.queue[0]).0;
            var v := ViewOf(s, t);
            && ViewOf(s.(queue := s.queue[1..], w := w), t) ==
               v.(held := v.held + [s.queue[0]], queued := Proj(s.queue[1..], t))
            && SliceOf(w, t).start == SliceOf(s.w, t).start && s.w.out == w.out
  {
    hide DeliveredSince, InLane, Position, Proj;
  }

  /** The head envelope of an ungated topic goes out as a live frame, unless it is a duplicate. */
  lemma LiveOpen(cfg: Config, s: Sys, t: Topic)
    requires s.queue != [] && s.queue[0].topic == t && t !in s.w.catchingUp && SliceOf(s.w, t).start <= |s.w.out|
    ensures var w := TakeLive(cfg, s.w, s.queue[0]).0;
            var r := s.queue[0];
            var v := ViewOf(s, t);
            && ViewOf(s.(queue := s.queue[1..], w := w), t) ==
               v.(hw := if r.id <= v.hw then v.hw else r.id, del := if r.id <= v.hw then v.del else v.del + [r],
                  queued := Proj(s.queue[1..], t))
            && SliceOf(w, t).start == SliceOf(s.w, t).start && |s.w.out| <= |w.out|
  {
    var r := s.queue[0];
    OneRow(r);
    hide DeliveredSince, InLane, Position, Proj, Emit, SliceOf, Rise;
    EmitEffect(cfg, s, 0, [r], t);
    OneRise(ViewOf(s, t).hw, r);
    assert ViewOf(s, t).del + [] == ViewOf(s, t).del;
  }

  lemma OneRow(r: Row)
    ensures forall t :: Proj([r], t) == if r.topic == t then [r] else []
  {
    assert [r][1..] == [];
  }

  lemma OneRise(h: nat, r: Row)
    ensures Rise(h, [r]) == if r.id <= h then [] else [r]
    ensures LastId(Rise(h, [r]), h) == if r.id <= h then h else r.id
  {
    assert [r][1..] == [];
  }

  lemma LiveTopicOk(cfg: Config, s: Sys, t: Topic)
    requires TopicOk(s, t) && TableOk(Table(s, t.kind), t.kind) && s.queue != []
    requires Proj(s.queue, t)
          == if s.queue[0].topic == t then [s.queue[0]] + Proj(s.queue[1..], t) else Proj(s.queue[1..], t)
    ensures TopicOk(s.(queue := s.queue[1..], w := TakeLive(cfg, s.w, s.queue[0]).0), t)
  {
    var r := s.queue[0];
    var v := ViewOf(s, t);
    ViewFields(s, t);
    hide V.ViewOk, ViewOf, SliceOf, Proj, TakeLive;
    if r.topic != t {
      LiveOther(cfg, s, t);
    } else if t in s.w.catchingUp {
      LiveGated(cfg, s, t);
      if t !in s.stale { V.Hold(v, t, r, Proj(s.queue[1..], t)); }
    } else {
      LiveOpen(cfg, s, t);
      if t !in s.stale {
        V.TakeTail(v, t, r, Proj(s.queue[1..], t));
      }
    }
  }

  lemma LiveTopics(cfg: Config, s: Sys)
    requires EnvOk(s) && QueueOk(s) && TopicsOk(s, {}) && s.queue != []
    ensures TopicsOk(s.(queue := s.queue[1..], w := TakeLive(cfg, s.w, s.queue[0]).0), {})
  {
    QueueTail(s);
    assert TableOk(s.groups, Group) && TableOk(s.welcomes, Welcome);
    assert TakeLive(cfg, s.w, s.queue[0]).0.epochs == s.w.epochs;
    hide TopicOk, TakeLive, TableOk, QueueOk, Proj;
    forall t | t in s.w.epochs
      ensures TopicOk(s.(queue := s.queue[1..], w := TakeLive(cfg, s.w, s.queue[0]).0), t)
    {
      LiveTopicOk(cfg, s, t);
    }
  }

  lemma LiveSame(cfg: Config, s: State, r: Row)
    ensures var d := TakeLive(cfg, s, r).0;
            && d.waves == s.waves && d.topicWave == s.topicWave && d.epochs == s.epochs && d.nextWave == s.nextWave
            && d.subscribed == s.subscribed && d.halfClosed == s.halfClosed
  {
    hide Advance, Survivors, Pack, PendingOf;
  }

  lemma LiveStep(world: World, s: Sys)
    requires Enabled(world, s, WriterLive)
    ensures Apply(world, s, WriterLive).(ended := s.ended) ==
            s.(queue := s.queue[1..]).(w := TakeLive(world.cfg, s.w, s.queue[0]).0)
  {
    hide TakeLive;
  }

  lemma LiveRest(cfg: Config, s: Sys, s': Sys)
    requires EnvOk(s) && QueueOk(s) && ScansOk(s) && WaveScans(s.w, s.scans) && StaleOk(s, {}) && s.queue != []
    requires s' == s.(queue := s.queue[1..], w := TakeLive(cfg, s.w, s.queue[0]).0)
    ensures EnvOk(s') && QueueOk(s') && ScansOk(s') && WaveScans(s'.w, s'.scans) && StaleOk(s', {})
  {
    var s1 := s.(queue := s.queue[1..]);
    hide EnvOk, QueueOk, WaveScans, ScansOk, StaleOk, TakeLive, Proj;
    QueueTail(s);
    LiveSame(cfg, s.w, s.queue[0]);
    WaveScansSame(s.w, s'.w, s.scans);
    StaleSame(s, s');
    ScansSame(s, s');
    EnvSame(s, s1);
    SameQueue(s1, s');
  }

  lemma InvTaken(cfg: Config, s: Sys)
    requires Inv(s) && s.queue != []
    ensures Inv(s.(queue := s.queue[1..], w := TakeLive(cfg, s.w, s.queue[0]).0))
  {
    var s' := s.(queue := s.queue[1..], w := TakeLive(cfg, s.w, s.queue[0]).0);
    hide EnvOk, QueueOk, Book, LaneOk, WaveScans, TopicsOk, ScansOk, StaleOk, TakeLive;
    LiveTopics(cfg, s);
    LiveBook(cfg, s.w, s.queue[0]);
    LiveRest(cfg, s, s');
    assert LaneOk(s'.lane, s'.scans);
  }

  lemma InvLive(world: World, s: Sys)
    requires Inv(s) && Enabled(world, s, WriterLive)
    ensures Inv(Apply(world, s, WriterLive).(ended := s.ended))
  {
    hide Inv, Apply, TakeLive;
    LiveStep(world, s);
    InvTaken(world.cfg, s);
  }

  lemma EnvSame(s: Sys, s': Sys)
    requires EnvOk(s) && s' == s.(queue := s'.queue)
    ensures EnvOk(s')
  {
  }

  // ----- half-close -----

  lemma HalfClosedView(s: Sys, t: Topic)
    ensures ViewOf(s.(w := s.w.(halfClosed := true)), t) == ViewOf(s, t)
  {
  }

  lemma HalfClosedTopics(s: Sys)
    requires TopicsOk(s, {})
    ensures TopicsOk(s.(w := s.w.(halfClosed := true)), {})
  {
    hide ViewOf, V.ViewOk;
    var s' := s.(w := s.w.(halfClosed := true));
    forall t | t in s.w.epochs ensures TopicOk(s', t) {
      assert TopicOk(s, t);
      HalfClosedView(s, t);
    }
  }

  lemma HalfClosedBook(w: State)
    requires Book(w, {}, 0)
    ensures Book(w.(halfClosed := true), {}, 0)
  {
    hide Gauges, Waves, Ids, Gates;
    var w' := w.(halfClosed := true);
    GaugesSame(w, w', 0);
    GatesSame(w, w');
    WavesSame(w, w');
    IdsKept(w, w');
  }

  lemma InvHalfClose(world: World, s: Sys)
    requires Inv(s) && Enabled(world, s, WriterHalfClose)
    ensures Inv(Apply(world, s, WriterHalfClose).(ended := s.ended))
  {
    var s' := s.(w := s.w.(halfClosed := true));
    hide EnvOk, QueueOk, Book, LaneOk, WaveScans, TopicsOk, ScansOk, StaleOk;
    HalfClosedTopics(s);
    HalfClosedBook(s.w);
    WaveScansSame(s.w, s'.w, s.scans);
    ScansSame(s, s');
    SameQueue(s, s');
    StaleSame(s, s');
  }
}
