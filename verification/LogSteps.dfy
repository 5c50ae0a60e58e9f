/** Every step of the writer, fed any rows at all, keeps every registered topic's output log in
    order: ids rise, and the seam holds. */
module LogSteps {
  import opened Rows
  import opened WaveScan
  import opened Fetcher
  import opened Frames
  import opened Writer
  import opened StreamSystem
  import opened Bookkeeping
  import opened TopicSlice
  import opened EpochLog

  // ----- the invariant -----

  function TraceOf(s: State, t: Topic): Trace
    requires t in s.epochs
  {
    Trace(s.epochs[t], Mark(s.highWater, t), t in s.subscribed, t in s.catchingUp)
  }

  ghost predicate Logs(s: State) {
    forall t :: t in s.epochs ==> TraceOk(s.out, TraceOf(s, t), t)
  }

  /** A topic's wave carries the mutate_id of the topic's registration; a Mutate in progress
      stamps the topics it has registered with its own. */
  ghost predicate Tags(s: State, limbo: set<Topic>, mutateId: nat) {
    && (forall t :: t in s.topicWave && s.topicWave[t] in s.waves ==>
          t in s.epochs && s.waves[s.topicWave[t]].mutateId == s.epochs[t].mutateId)
    && (forall t :: t in limbo ==> t in s.epochs && s.epochs[t].mutateId == mutateId)
  }

  ghost predicate Sound(s: State, limbo: set<Topic>, newlyLive: nat, mutateId: nat) {
    Book(s, limbo, newlyLive) && Logs(s) && Tags(s, limbo, mutateId) && !InFlight(s, mutateId)
  }

  // ----- frames reach a topic's log -----

  /** One topic's log after a step that appends `more`, raising the topic by `Rise(_, msgs)`. */
  lemma LogGrows(s: State, d: State, more: seq<Frame>, msgs: seq<Row>, t: Topic)
    requires t in s.epochs && TraceOk(s.out, TraceOf(s, t), t)
    requires d.out == s.out + more && t in d.epochs && d.epochs[t] == s.epochs[t]
    requires (t in d.subscribed <==> t in s.subscribed) && (t in d.catchingUp <==> t in s.catchingUp)
    requires Mark(d.highWater, t) == LastId(Rise(Mark(s.highWater, t), msgs), Mark(s.highWater, t))
    requires DeliveredSince(d.out, s.epochs[t].start, t) ==
             DeliveredSince(s.out, s.epochs[t].start, t) + Rise(Mark(s.highWater, t), msgs)
    requires t in s.subscribed ==> forall i :: 0 <= i < |more| ==>
               if t in s.catchingUp then Replay(more[i], t, s.epochs[t].mutateId) else Tail(more[i], t)
    ensures TraceOk(d.out, TraceOf(d, t), t)
  {
    hide DeliveredSince, Seam;
    Climb(s.out, d.out, s.epochs[t], Mark(s.highWater, t), msgs, t);
    if t in s.subscribed { SeamGrows(s.out, more, s.epochs[t], t, t in s.catchingUp); }
  }

  /** What the log of topic `t` depends on is unchanged. */
  ghost predicate SameTrace(s: State, d: State, t: Topic) {
    && (t in s.epochs <==> t in d.epochs) && (t in s.epochs ==> d.epochs[t] == s.epochs[t])
    && (t in d.subscribed <==> t in s.subscribed) && (t in d.catchingUp <==> t in s.catchingUp)
    && Mark(d.highWater, t) == Mark(s.highWater, t)
  }

  lemma LogStays(s: State, d: State, t: Topic)
    requires t in s.epochs && TraceOk(s.out, TraceOf(s, t), t) && SameTrace(s, d, t) && d.out == s.out
    ensures TraceOk(d.out, TraceOf(d, t), t)
  {
    hide TraceOk;
  }

  /** A CatchupComplete that is not this topic's wave's. */
  lemma LogAcks(s: State, d: State, id: nat, t: Topic)
    requires t in s.epochs && TraceOk(s.out, TraceOf(s, t), t) && SameTrace(s, d, t)
    requires d.out == s.out + [CatchupComplete(id)]
    requires t in s.subscribed && t in s.catchingUp ==> id != s.epochs[t].mutateId
    ensures TraceOk(d.out, TraceOf(d, t), t)
  {
    var start := s.epochs[t].start;
    DeliveredSilent(s.out, CatchupComplete(id), start, t);
    assert DeliveredSince(s.out, start, t) + [] == DeliveredSince(s.out, start, t);
    hide DeliveredSince, Seam;
    LogGrows(s, d, [CatchupComplete(id)], [], t);
  }

  // ----- framing messages -----

  /** Whose messages may be framed under an id: a gated topic's under its wave's, an open one's
      under 0. */
  ghost predicate Stamped(s: State, mutateId: nat, msgs: seq<Row>) {
    forall t :: t in s.epochs && t in s.subscribed && Proj(msgs, t) != [] ==>
      mutateId == if t in s.catchingUp then s.epochs[t].mutateId else 0
  }

  lemma EmitLog(cfg: Config, s: State, mutateId: nat, msgs: seq<Row>, t: Topic)
    requires t in s.epochs && TraceOk(s.out, TraceOf(s, t), t)
    requires t in s.subscribed && Proj(msgs, t) != [] ==>
               mutateId == if t in s.catchingUp then s.epochs[t].mutateId else 0
    ensures TraceOk(Emit(cfg, s, mutateId, msgs).out, TraceOf(Emit(cfg, s, mutateId, msgs), t), t)
  {
    var d := Emit(cfg, s, mutateId, msgs);
    assert s.epochs[t].start <= |s.out|;
    EmitSlice(cfg, s, mutateId, msgs, t);
    SurvivorsOfTopic(s.highWater, msgs, t);
    PackCarries(mutateId, cfg.maxFrameBytes, Survivors(s.highWater, msgs), t);
    hide DeliveredSince, TraceOk, Proj, Survivors, Pack;
    LogGrows(s, d, Pack(mutateId, cfg.maxFrameBytes, Survivors(s.highWater, msgs)), Proj(msgs, t), t);
  }

  lemma EmitLogs(cfg: Config, s: State, mutateId: nat, msgs: seq<Row>)
    requires Logs(s) && Stamped(s, mutateId, msgs)
    ensures Logs(Emit(cfg, s, mutateId, msgs))
  {
    hide TraceOk, Survivors, Pack, Proj;
    forall t | t in s.epochs
      ensures TraceOk(Emit(cfg, s, mutateId, msgs).out, TraceOf(Emit(cfg, s, mutateId, msgs), t), t) {
      assert TraceOk(s.out, TraceOf(s, t), t);
      EmitLog(cfg, s, mutateId, msgs, t);
    }
  }

  lemma SameTags(s: State, d: State, limbo: set<Topic>, mutateId: nat)
    requires Tags(s, limbo, mutateId) && !InFlight(s, mutateId)
    requires d.topicWave == s.topicWave && d.waves == s.waves && d.epochs == s.epochs
    ensures Tags(d, limbo, mutateId) && !InFlight(d, mutateId)
  {
  }

  lemma EmitSound(cfg: Config, s: State, mutateId: nat, msgs: seq<Row>)
    requires Sound(s, {}, 0, 0) && Stamped(s, mutateId, msgs)
    ensures Sound(Emit(cfg, s, mutateId, msgs), {}, 0, 0)
  {
    hide Logs, Book, Survivors, Pack, Tags, InFlight, Stamped;
    EmitBook(cfg, s, mutateId, msgs, {}, 0);
    EmitLogs(cfg, s, mutateId, msgs);
    SameTags(s, Emit(cfg, s, mutateId, msgs), {}, 0);
  }

  // ----- dropping a topic -----

  lemma DisownEmits(s: State, x: Topic)
    requires Waves(s)
    ensures var d := Disown(s, x);
            if x in s.topicWave && s.waves[s.topicWave[x]].owned <= 1
            then d.waves == s.waves - {s.topicWave[x]}
                 && d.out == s.out + [CatchupComplete(s.waves[s.topicWave[x]].mutateId)]
            else d.out == s.out && d.waves.Keys == s.waves.Keys
                 && forall v :: v in s.waves ==> d.waves[v].mutateId == s.waves[v].mutateId
  {
  }

  /** The wave that loses its last topic is not a remaining topic's wave. */
  lemma DropOtherWave(s: State, x: Topic, limbo: set<Topic>, newlyLive: nat, mutateId: nat, t: Topic)
    requires Sound(s, limbo, newlyLive, mutateId)
    requires t != x && t in s.epochs && t in s.subscribed && t in s.catchingUp
    requires x in s.topicWave && s.waves[s.topicWave[x]].owned <= 1
    ensures s.waves[s.topicWave[x]].mutateId != s.epochs[t].mutateId
  {
    var v := s.topicWave[x];
    if t in s.topicWave {
      if s.topicWave[t] == v { LastOwner(s.topicWave, x, t); }
    } else {
      assert t in limbo;
    }
  }

  lemma DropTrace(s: State, x: Topic, t: Topic)
    requires t != x
    ensures SameTrace(s, DropTopic(s, x), t)
  {
    hide DropTopic;
    DropFields(s, x);
  }

  lemma DropEmits(s: State, x: Topic)
    requires Waves(s)
    ensures DropTopic(s, x).out ==
            if x in s.topicWave && s.waves[s.topicWave[x]].owned <= 1
            then s.out + [CatchupComplete(s.waves[s.topicWave[x]].mutateId)]
            else s.out
  {
    SilenceFields(s, x);
    WavesSame(s, Silence(s, x));
    hide Silence, Disown, Waves;
    DisownEmits(Silence(s, x), x);
  }

  /** Dropping another topic appends nothing, or a CatchupComplete this topic does not wait for. */
  lemma DropAcks(s: State, x: Topic, limbo: set<Topic>, newlyLive: nat, mutateId: nat, t: Topic) returns (id: nat)
    requires Sound(s, limbo, newlyLive, mutateId) && t != x && t in s.epochs
    ensures DropTopic(s, x).out == s.out ||
            (DropTopic(s, x).out == s.out + [CatchupComplete(id)] &&
             (t in s.subscribed && t in s.catchingUp ==> id != s.epochs[t].mutateId))
  {
    id := 0;
    assert Waves(s);
    hide DropTopic, Logs;
    DropEmits(s, x);
    if x in s.topicWave {
      id := s.waves[s.topicWave[x]].mutateId;
      if s.waves[s.topicWave[x]].owned <= 1 && t in s.subscribed && t in s.catchingUp {
        DropOtherWave(s, x, limbo, newlyLive, mutateId, t);
      }
    }
  }

  lemma LogOf(s: State, limbo: set<Topic>, newlyLive: nat, mutateId: nat, t: Topic)
    requires Sound(s, limbo, newlyLive, mutateId) && t in s.epochs
    ensures TraceOk(s.out, TraceOf(s, t), t) && s.epochs[t].start <= |s.out|
  {
    hide Book, Tags, InFlight, Seam;
  }

  lemma DropLog(s: State, x: Topic, limbo: set<Topic>, newlyLive: nat, mutateId: nat, t: Topic)
    requires Sound(s, limbo, newlyLive, mutateId) && t != x && t in s.epochs
    ensures t in DropTopic(s, x).epochs && TraceOk(DropTopic(s, x).out, TraceOf(DropTopic(s, x), t), t)
  {
    hide TraceOk, DropTopic, Sound;
    var d := DropTopic(s, x);
    LogOf(s, limbo, newlyLive, mutateId, t);
    DropTrace(s, x, t);
    var id := DropAcks(s, x, limbo, newlyLive, mutateId, t);
    if d.out != s.out {
      LogAcks(s, d, id, t);
    } else {
      LogStays(s, d, t);
    }
  }

  lemma DropTags(s: State, d: State, x: Topic, limbo: set<Topic>, mutateId: nat)
    requires Tags(s, limbo, mutateId) && !InFlight(s, mutateId) && x !in limbo
    requires d.topicWave == s.topicWave - {x} && d.epochs == s.epochs - {x}
    requires forall v :: v in d.waves ==> v in s.waves && d.waves[v].mutateId == s.waves[v].mutateId
    ensures Tags(d, limbo, mutateId) && !InFlight(d, mutateId)
  {
  }

  lemma DropSound(s: State, x: Topic, limbo: set<Topic>, newlyLive: nat, mutateId: nat)
    requires Sound(s, limbo, newlyLive, mutateId) && x !in limbo
    ensures Sound(DropTopic(s, x), limbo, newlyLive, mutateId)
  {
    DropFields(s, x);
    DropBook(s, x, limbo, newlyLive);
    hide TraceOk, Book, DropTopic, Tags, InFlight;
    DropTags(s, DropTopic(s, x), x, limbo, mutateId);
    forall t | t in DropTopic(s, x).epochs ensures TraceOk(DropTopic(s, x).out, TraceOf(DropTopic(s, x), t), t) {
      DropLog(s, x, limbo, newlyLive, mutateId, t);
    }
  }

  // ----- registering and starting -----

  lemma RegisterLogs(s: State, t: Topic, cursor: nat, mutateId: nat, historyOnly: bool)
    requires Logs(s) && mutateId != 0 && t !in s.subscribed && t !in s.catchingUp
    ensures Logs(Register(s, t, cursor, mutateId, historyOnly))
  {
    var d := Register(s, t, cursor, mutateId, historyOnly);
    hide TraceOk;
    forall x | x in d.epochs ensures TraceOk(d.out, TraceOf(d, x), x) {
      if x == t {
        Fresh(s.out, cursor, mutateId, !historyOnly, t);
      } else {
        assert x in s.epochs && TraceOk(s.out, TraceOf(s, x), x) && TraceOf(d, x) == TraceOf(s, x);
      }
    }
  }

  lemma RegisterSound(s: State, t: Topic, cursor: nat, mutateId: nat, historyOnly: bool, limbo: set<Topic>,
                      newlyLive: nat)
    requires Sound(s, limbo, newlyLive, mutateId) && mutateId != 0
    requires t !in s.subscribed && t !in s.catchingUp && t !in s.topicWave && t !in limbo
    ensures Sound(Register(s, t, cursor, mutateId, historyOnly), limbo + {t},
                  if historyOnly then newlyLive else newlyLive + 1, mutateId)
  {
    hide Logs, Book, Tags, InFlight, Register;
    RegisterBook(s, t, cursor, mutateId, historyOnly, limbo, newlyLive);
    RegisterLogs(s, t, cursor, mutateId, historyOnly);
    RegisterTags(s, t, cursor, mutateId, historyOnly, limbo);
  }

  lemma RegisterTags(s: State, t: Topic, cursor: nat, mutateId: nat, historyOnly: bool, limbo: set<Topic>)
    requires Tags(s, limbo, mutateId) && !InFlight(s, mutateId) && t !in s.topicWave
    ensures var d := Register(s, t, cursor, mutateId, historyOnly);
            Tags(d, limbo + {t}, mutateId) && !InFlight(d, mutateId)
  {
  }

  lemma SameLogs(s: State, d: State)
    requires Logs(s) && d.out == s.out && d.epochs == s.epochs && d.highWater == s.highWater
    requires d.subscribed == s.subscribed && d.catchingUp == s.catchingUp
    ensures Logs(d)
  {
    hide TraceOk;
    forall t | t in d.epochs ensures TraceOk(d.out, TraceOf(d, t), t) { assert TraceOf(d, t) == TraceOf(s, t); }
  }

  lemma StartSound(s: State, mutateId: nat, groupAdds: seq<Add>, welcomeAdds: seq<Add>, limbo: set<Topic>)
    requires Sound(s, limbo, 0, mutateId) && Enumerates(Collected(groupAdds, welcomeAdds), limbo)
    requires |groupAdds| + |welcomeAdds| > 0 && mutateId != 0
    ensures Sound(StartWave(s, mutateId, groupAdds, welcomeAdds), {}, 0, 0)
  {
    var d := StartWave(s, mutateId, groupAdds, welcomeAdds);
    StartBook(s, mutateId, groupAdds, welcomeAdds, limbo);
    SameLogs(s, d);
    BookIds(d);
    StartTags(s, mutateId, groupAdds, welcomeAdds, limbo);
    hide Logs, Book, Tags, InFlight;
  }

  /** No wave has id 0. */
  lemma BookIds(s: State)
    requires Book(s, {}, 0)
    ensures !InFlight(s, 0)
  {
  }

  lemma StartTags(s: State, mutateId: nat, groupAdds: seq<Add>, welcomeAdds: seq<Add>, limbo: set<Topic>)
    requires Tags(s, limbo, mutateId) && Waves(s) && Enumerates(Collected(groupAdds, welcomeAdds), limbo)
    ensures Tags(StartWave(s, mutateId, groupAdds, welcomeAdds), {}, 0)
  {
    var d := StartWave(s, mutateId, groupAdds, welcomeAdds);
    forall t | t in d.topicWave
      ensures t in d.epochs && d.waves[d.topicWave[t]].mutateId == d.epochs[t].mutateId
    {
      if t in limbo { assert d.topicWave[t] == s.nextWave; }
    }
  }

  // ----- completing a wave -----

  /** The fold and the frames of a completion. */
  function SettledFold(s: State, w: Wave, v: nat): Fold { SettleAll(Fold(s, [], [], []), v, w.topics) }

  function FoldFrames(cfg: Config, f: Fold, mutateId: nat): seq<Frame> {
    var groups, welcomes := SortById(f.groups), SortById(f.welcomes);
    Pack(mutateId, cfg.maxFrameBytes, Survivors(f.s.highWater, groups)) +
    Pack(mutateId, cfg.maxFrameBytes, Survivors(Advance(f.s.highWater, groups), welcomes))
  }

  lemma {:induction false} SettleAllKeeps(f: Fold, v: nat, topics: seq<Topic>, t: Topic)
    ensures var d := SettleAll(f, v, topics);
            && d.s.out == f.s.out && d.s.subscribed == f.s.subscribed
            && (t in d.s.epochs ==> t in f.s.epochs && d.s.epochs[t] == f.s.epochs[t])
            && (forall x :: x in d.s.topicWave ==> x in f.s.topicWave && d.s.topicWave[x] == f.s.topicWave[x])
            && d.s.waves == f.s.waves
    decreases |topics|
  {
    if topics != [] { SettleAllKeeps(Settle(f, v, topics[0]), v, topics[1..], t); }
  }

  lemma FoldCarries(cfg: Config, f: Fold, mutateId: nat, t: Topic)
    ensures forall i :: 0 <= i < |FoldFrames(cfg, f, mutateId)| ==>
              var g := FoldFrames(cfg, f, mutateId)[i];
              g.Messages? && g.mutateId == mutateId && (Carries(g, t) ==> Proj(f.groups, t) + Proj(f.welcomes, t) != [])
  {
    var groups, welcomes := SortById(f.groups), SortById(f.welcomes);
    var sg, sw := Survivors(f.s.highWater, groups), Survivors(Advance(f.s.highWater, groups), welcomes);
    PackCarries(mutateId, cfg.maxFrameBytes, sg, t);
    PackCarries(mutateId, cfg.maxFrameBytes, sw, t);
    SurvivorsOfTopic(f.s.highWater, groups, t);
    SurvivorsOfTopic(Advance(f.s.highWater, groups), welcomes, t);
    ProjSort(f.groups, t);
    ProjSort(f.welcomes, t);
    assert Proj(f.groups, t) == [] ==> Proj(sg, t) == [];
    assert Proj(f.welcomes, t) == [] ==> Proj(sw, t) == [];
    hide Pack, Survivors, Proj, SortById, Rise;
  }

  /** A message frame under this id, carrying the topic only when the wave owns it. */
  ghost predicate FrameOf(f: Frame, mutateId: nat, s: State, v: nat, t: Topic) {
    f.Messages? && f.mutateId == mutateId && (Carries(f, t) ==> Owns(s, v, t))
  }

  /** Completion, seen by the log of a topic that stays registered. */
  lemma CompleteFacts(cfg: Config, s: State, v: nat, w: Wave, t: Topic)
    requires HeldPure(s) && (Owns(s, v, t) ==> t in w.topics)
    ensures var f := SettledFold(s, w, v);
            var d := CompleteWave(cfg, s, v, w);
            var fs := FoldFrames(cfg, f, w.mutateId);
            && d.out == s.out + fs + (if f.marker == [] then [] else [TopicsLive(f.marker)])
                        + [CatchupComplete(w.mutateId)]
            && (t in f.marker <==> Owns(s, v, t))
            && d.subscribed == s.subscribed
            && (forall i :: 0 <= i < |fs| ==> FrameOf(fs[i], w.mutateId, s, v, t))
            && (t in d.epochs ==>
                  (t in s.epochs
                   && d.epochs[t] == if Owns(s, v, t) then s.epochs[t].(openedAt := |s.out| + |fs|) else s.epochs[t]))
  {
    var f0 := Fold(s, [], [], []);
    var f := SettledFold(s, w, v);
    SettleAllKeeps(f0, v, w.topics, t);
    SettleAllTopic(f0, v, w.topics, t);
    FoldCarries(cfg, f, w.mutateId, t);
    assert Settles(s.topicWave, v, w.topics, t) == Owns(s, v, t);
    hide SettleAll, Pack, Survivors, SortById, HeldPure, Carries, SliceOf;
  }

  /** The frames a completion appends. */
  function CompletionFrames(cfg: Config, f: Fold, mutateId: nat): seq<Frame> {
    FoldFrames(cfg, f, mutateId) + (if f.marker == [] then [] else [TopicsLive(f.marker)]) + [CatchupComplete(mutateId)]
  }

  lemma CompletionOthers(cfg: Config, f: Fold, mutateId: nat, t: Topic, e: Epoch, gated: bool)
    requires t !in f.marker && (gated ==> e.mutateId != mutateId)
    requires var fs := FoldFrames(cfg, f, mutateId);
             forall i :: 0 <= i < |fs| ==> fs[i].Messages? && !Carries(fs[i], t)
    ensures var more := CompletionFrames(cfg, f, mutateId);
            forall i :: 0 <= i < |more| ==> if gated then Replay(more[i], t, e.mutateId) else Tail(more[i], t)
  {
    var fs, more := FoldFrames(cfg, f, mutateId), CompletionFrames(cfg, f, mutateId);
    hide FoldFrames;
    forall i | 0 <= i < |more| ensures if gated then Replay(more[i], t, e.mutateId) else Tail(more[i], t) {
      if i < |fs| { assert more[i] == fs[i]; }
    }
  }

  /** A gated topic of another wave waits for a different id. */
  lemma OtherWaveId(s: State, v: nat, t: Topic)
    requires Book(s, {}, 0) && Tags(s, {}, 0) && v in s.waves && !Owns(s, v, t) && t in s.subscribed
    requires t in s.catchingUp
    ensures t in s.epochs && s.epochs[t].mutateId != s.waves[v].mutateId
  {
  }

  lemma CompleteOtherLog(cfg: Config, s: State, v: nat, w: Wave, t: Topic)
    requires Sound(s, {}, 0, 0) && HeldPure(s) && v in s.waves && w.mutateId == s.waves[v].mutateId
    requires w.topics == s.waves[v].topics
    requires t in s.epochs && !Owns(s, v, t) && t in CompleteWave(cfg, s, v, w).epochs
    ensures var d := CompleteWave(cfg, s, v, w); TraceOk(d.out, TraceOf(d, t), t)
  {
    hide CompleteWave, SettledFold, FoldFrames, DeliveredSince, TraceOk, Book, Owns, HeldPure, Logs, Tags, InFlight,
         SliceOf;
    var d, f := CompleteWave(cfg, s, v, w), SettledFold(s, w, v);
    var more, e := CompletionFrames(cfg, f, w.mutateId), s.epochs[t];
    LogOf(s, {}, 0, 0, t);
    CompleteFacts(cfg, s, v, w, t);
    CompleteTopicAny(cfg, s, v, w, t, e.start);
    if t in s.subscribed && t in s.catchingUp { OtherWaveId(s, v, t); }
    CompletionOthers(cfg, f, w.mutateId, t, e, t in s.subscribed && t in s.catchingUp);
    CompleteOtherGrows(s, d, more, t);
  }

  lemma CompleteOtherGrows(s: State, d: State, more: seq<Frame>, t: Topic)
    requires t in s.epochs && TraceOk(s.out, TraceOf(s, t), t)
    requires d.out == s.out + more && t in d.epochs && d.epochs[t] == s.epochs[t] && SliceOf(d, t) == SliceOf(s, t)
    requires DeliveredSince(d.out, s.epochs[t].start, t) == DeliveredSince(s.out, s.epochs[t].start, t) + []
    requires forall i :: 0 <= i < |more| ==>
               if t in s.subscribed && t in s.catchingUp
               then Replay(more[i], t, s.epochs[t].mutateId)
               else Tail(more[i], t)
    ensures TraceOk(d.out, TraceOf(d, t), t)
  {
    hide DeliveredSince, TraceOk;
    LogGrows(s, d, more, [], t);
  }

  /** An owned topic still registered after completion was gated, and its seam is now complete. */
  lemma CompleteOwnedLog(cfg: Config, s: State, v: nat, w: Wave, t: Topic)
    requires Sound(s, {}, 0, 0) && HeldPure(s) && v in s.waves && w.mutateId == s.waves[v].mutateId
    requires w.topics == s.waves[v].topics
    requires t in s.epochs && Owns(s, v, t) && t in w.topics && t in CompleteWave(cfg, s, v, w).epochs
    ensures var d := CompleteWave(cfg, s, v, w); TraceOk(d.out, TraceOf(d, t), t)
  {
    hide CompleteWave, SettledFold, FoldFrames, DeliveredSince, TraceOk, Sound, Owns, HeldPure, SliceOf, CompletedSlice;
    var d, f := CompleteWave(cfg, s, v, w), SettledFold(s, w, v);
    var e := s.epochs[t];
    LogOf(s, {}, 0, 0, t);
    OwnedFacts(s, v, t);
    CompleteFacts(cfg, s, v, w, t);
    CompleteTopicAny(cfg, s, v, w, t, e.start);
    SeamCompletes(s, d, FoldFrames(cfg, f, w.mutateId), f.marker, SortById(FoldedRows(SliceOf(s, t))), t);
  }

  lemma OwnedFacts(s: State, v: nat, t: Topic)
    requires Sound(s, {}, 0, 0) && Owns(s, v, t) && t in s.epochs
    ensures s.waves[v].mutateId == s.epochs[t].mutateId && (t in s.catchingUp ==> t in s.subscribed)
  {
  }

  lemma SeamCompletes(s: State, d: State, fs: seq<Frame>, marker: seq<Topic>, held: seq<Row>, t: Topic)
    requires t in s.epochs && TraceOk(s.out, TraceOf(s, t), t) && (t in s.catchingUp ==> t in s.subscribed)
    requires var e := s.epochs[t];
             && d.out == s.out + fs + [TopicsLive(marker)] + [CatchupComplete(e.mutateId)]
             && t in d.epochs && d.epochs[t] == e.(openedAt := |s.out| + |fs|) && t in marker
             && DeliveredSince(d.out, e.start, t) == DeliveredSince(s.out, e.start, t) + Rise(SliceOf(s, t).mark, held)
             && (forall i :: 0 <= i < |fs| ==> fs[i].Messages? && fs[i].mutateId == e.mutateId)
    requires SliceOf(d, t) == CompletedSlice(SliceOf(s, t), true, Rise(SliceOf(s, t).mark, held))
    requires d.subscribed == s.subscribed
    ensures TraceOk(d.out, TraceOf(d, t), t)
  {
    var e := s.epochs[t];
    assert t in s.catchingUp by { assert SliceOf(d, t).has; }
    hide DeliveredSince, Seam;
    Climb(s.out, d.out, e, SliceOf(s, t).mark, held, t);
    SeamOpens(s.out, fs, e, t, marker);
    hide Rising;
    MovedEpoch(d.out, e, d.epochs[t], SliceOf(d, t).mark, t);
  }

  lemma MovedEpoch(out: seq<Frame>, e: Epoch, e': Epoch, mark: nat, t: Topic)
    requires Rising(out, e, mark, t) && e'.floor == e.floor && e'.start == e.start
    ensures Rising(out, e', mark, t)
  {
  }

  lemma CompleteLogs(cfg: Config, s: State, v: nat, w: Wave)
    requires Sound(s, {}, 0, 0) && v in s.waves && w.mutateId == s.waves[v].mutateId && w.topics == s.waves[v].topics
    ensures Logs(CompleteWave(cfg, s, v, w))
    ensures forall t :: t in CompleteWave(cfg, s, v, w).epochs && !Owns(s, v, t) ==>
              t in s.epochs && CompleteWave(cfg, s, v, w).epochs[t] == s.epochs[t]
  {
    var d := CompleteWave(cfg, s, v, w);
    OwnedListed(s, v);
    hide CompleteWave, TraceOk, Sound, HeldPure, Owns, TraceOf;
    forall t | t in d.epochs
      ensures TraceOk(d.out, TraceOf(d, t), t) && t in s.epochs && (!Owns(s, v, t) ==> d.epochs[t] == s.epochs[t]) {
      CompleteFacts(cfg, s, v, w, t);
      if Owns(s, v, t) { CompleteOwnedLog(cfg, s, v, w, t); } else { CompleteOtherLog(cfg, s, v, w, t); }
    }
  }

  lemma OwnedListed(s: State, v: nat)
    requires Sound(s, {}, 0, 0) && v in s.waves
    ensures HeldPure(s) && forall t :: Owns(s, v, t) ==> t in s.waves[v].topics
  {
  }

  lemma CompleteTags(s: State, d: State, v: nat)
    requires Tags(s, {}, 0) && Waves(d) && Gates(d, {}) && d.waves == s.waves - {v}
    requires forall t :: t in d.topicWave ==> t in s.topicWave && d.topicWave[t] == s.topicWave[t]
    requires forall t :: t in d.epochs && !Owns(s, v, t) ==> t in s.epochs && d.epochs[t] == s.epochs[t]
    ensures Tags(d, {}, 0)
  {
  }

  lemma CompleteSound(cfg: Config, s: State, v: nat, w: Wave)
    requires Sound(s, {}, 0, 0) && v in s.waves && w.mutateId == s.waves[v].mutateId && w.topics == s.waves[v].topics
    ensures Sound(CompleteWave(cfg, s, v, w), {}, 0, 0)
  {
    var d := CompleteWave(cfg, s, v, w);
    CompleteBook(cfg, s, v, w);
    hide CompleteWave, Logs, Ids, Gauges, Tags, InFlight;
    CompleteLogs(cfg, s, v, w);
    SettleAllKeeps(Fold(s, [], [], []), v, w.topics, Topic(Group, []));
    CompleteMap(cfg, s, v, w);
    CompleteTags(s, d, v);
    BookIds(d);
  }

  lemma CompleteMap(cfg: Config, s: State, v: nat, w: Wave)
    ensures var d := CompleteWave(cfg, s, v, w);
            && (forall t :: t in d.topicWave ==> t in s.topicWave && d.topicWave[t] == s.topicWave[t])
            && d.waves == s.waves - {v}
  {
    SettleAllKeeps(Fold(s, [], [], []), v, w.topics, Topic(Group, []));
    hide SettleAll;
  }
}
