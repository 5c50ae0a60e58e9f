/** The completion of a wave, frame by frame: what it sends, in which order, which topics it
    announces, and what it leaves of each. */
module Completion {
  import opened Rows
  import opened WaveScan
  import opened Fetcher
  import opened Frames
  import opened Writer
  import opened StreamSystem
  import opened Bookkeeping
  import opened TopicSlice
  import opened LogSteps
  import WriterSteps

  ghost predicate Unrepeated(topics: seq<Topic>) {
    forall i, j :: 0 <= i < j < |topics| ==> topics[i] != topics[j]
  }

  /** Each topic is announced once. */
  lemma {:induction false} MarkerUnrepeated(f: Fold, v: nat, topics: seq<Topic>)
    requires Unrepeated(f.marker) && forall t :: t in f.marker ==> !Owns(f.s, v, t)
    ensures Unrepeated(SettleAll(f, v, topics).marker)
    decreases |topics|
  {
    if topics != [] {
      SettleMaps(f.s, topics[0]);
      hide SettleState;
      MarkerUnrepeated(Settle(f, v, topics[0]), v, topics[1..]);
    }
  }

  lemma SortedTail(msgs: seq<Row>)
    requires NonDescending(msgs) && msgs != []
    ensures NonDescending(msgs[1..]) && forall r :: r in msgs[1..] ==> msgs[0].id <= r.id
  {
    forall r | r in msgs[1..] ensures msgs[0].id <= r.id {
      var i :| 0 <= i < |msgs[1..]| && msgs[1..][i] == r;
      assert msgs[i + 1] == r;
    }
  }

  lemma SortedCons(m: Row, rest: seq<Row>)
    requires NonDescending(rest) && forall r :: r in rest ==> m.id <= r.id
    ensures NonDescending([m] + rest)
  {
    assert forall j :: 0 <= j < |rest| ==> rest[j] in rest;
  }

  /** The dedup keeps a sorted list sorted. */
  lemma {:induction false} SurvivorsSorted(hw: Marks, msgs: seq<Row>)
    requires NonDescending(msgs)
    ensures NonDescending(Survivors(hw, msgs)) && forall r :: r in Survivors(hw, msgs) ==> r in msgs
    decreases |msgs|
  {
    hide NonDescending;
    if msgs == [] {
    } else {
      var m, hw' := msgs[0], hw[msgs[0].topic := msgs[0].id];
      assert msgs == [m] + msgs[1..];
      SortedTail(msgs);
      SurvivorsSorted(hw, msgs[1..]);
      SurvivorsSorted(hw', msgs[1..]);
      SortedCons(m, Survivors(hw', msgs[1..]));
    }
  }

  /** The fold keeps groups and welcomes apart. */
  lemma {:induction false} FoldKinds(f: Fold, v: nat, topics: seq<Topic>)
    requires HeldPure(f.s) && (forall r :: r in f.groups ==> r.topic.kind == Group)
    requires forall r :: r in f.welcomes ==> r.topic.kind == Welcome
    ensures forall r :: r in SettleAll(f, v, topics).groups ==> r.topic.kind == Group
    ensures forall r :: r in SettleAll(f, v, topics).welcomes ==> r.topic.kind == Welcome
    decreases |topics|
  {
    if topics != [] {
      SettlePure(f.s, topics[0]);
      FoldKinds(Settle(f, v, topics[0]), v, topics[1..]);
    }
  }

  /** The message frames of a completion: groups before welcomes, each in id order. */
  ghost predicate InOrder(rows: seq<Row>, groups: seq<Row>, welcomes: seq<Row>) {
    && rows == groups + welcomes && NonDescending(groups) && NonDescending(welcomes)
    && (forall r :: r in groups ==> r.topic.kind == Group) && (forall r :: r in welcomes ==> r.topic.kind == Welcome)
  }

  lemma FoldFrameRows(cfg: Config, f: Fold, mutateId: nat)
    requires forall r :: r in f.groups ==> r.topic.kind == Group
    requires forall r :: r in f.welcomes ==> r.topic.kind == Welcome
    ensures var g, w := SortById(f.groups), SortById(f.welcomes);
            var fs := FoldFrames(cfg, f, mutateId);
            && InOrder(RowsIn(fs), Survivors(f.s.highWater, g), Survivors(Advance(f.s.highWater, g), w))
            && forall i :: 0 <= i < |fs| ==> Fits(fs[i], mutateId, cfg.maxFrameBytes)
  {
    hide Pack, Survivors, SortById, Advance, RowsIn, Fits;
    var g, w := SortById(f.groups), SortById(f.welcomes);
    var sg, sw := Survivors(f.s.highWater, g), Survivors(Advance(f.s.highWater, g), w);
    PackMeaning(mutateId, cfg.maxFrameBytes, sg);
    PackMeaning(mutateId, cfg.maxFrameBytes, sw);
    RowsInConcat(Pack(mutateId, cfg.maxFrameBytes, sg), Pack(mutateId, cfg.maxFrameBytes, sw));
    SortFacts(f.groups);
    SortFacts(f.welcomes);
    SurvivorsSorted(f.s.highWater, g);
    SurvivorsSorted(Advance(f.s.highWater, g), w);
    forall r | r in sg ensures r.topic.kind == Group { SortMember(f.groups, r); }
    forall r | r in sw ensures r.topic.kind == Welcome { SortMember(f.welcomes, r); }
  }

  /** A topic's share of those frames: what was held for it, sorted and above its mark. */
  lemma FoldFrameTopic(cfg: Config, f: Fold, mutateId: nat, t: Topic, held: seq<Row>)
    requires Proj(f.groups, t) == (if t.kind == Group then held else [])
    requires Proj(f.welcomes, t) == (if t.kind == Welcome then held else [])
    ensures Proj(RowsIn(FoldFrames(cfg, f, mutateId)), t) == Rise(Mark(f.s.highWater, t), SortById(held))
  {
    var g, w := SortById(f.groups), SortById(f.welcomes);
    var hw1 := Advance(f.s.highWater, g);
    var sg, sw := Survivors(f.s.highWater, g), Survivors(hw1, w);
    PackMeaning(mutateId, cfg.maxFrameBytes, sg);
    PackMeaning(mutateId, cfg.maxFrameBytes, sw);
    RowsInConcat(Pack(mutateId, cfg.maxFrameBytes, sg), Pack(mutateId, cfg.maxFrameBytes, sw));
    ProjConcat(sg, sw, t);
    ProjSort(f.groups, t);
    ProjSort(f.welcomes, t);
    SurvivorsOfTopic(f.s.highWater, g, t);
    SurvivorsOfTopic(hw1, w, t);
    hide Pack, Survivors, Advance, RowsIn, Proj, Fits;
    var rise := Rise(Mark(f.s.highWater, t), SortById(held));
    assert SortById([]) == [];
    assert rise + [] == rise && [] + rise == rise;
  }

  /** What completing wave `v` sends: the held live messages, groups before welcomes and each kind
      in id order across its topics, in message frames under the wave's id; then one TopicsLive
      naming exactly the topics the wave still owns, each once; then its CatchupComplete. */
  ghost predicate Announced(s: State, d: State, v: nat, mutateId: nat, maxFrameBytes: int, frames: seq<Frame>,
                            marker: seq<Topic>) {
    && d.out == s.out + frames + [TopicsLive(marker), CatchupComplete(mutateId)]
    && (forall i :: 0 <= i < |frames| ==> Fits(frames[i], mutateId, maxFrameBytes))
    && (exists groups, welcomes :: InOrder(RowsIn(frames), groups, welcomes))
    && (forall t :: Proj(RowsIn(frames), t) ==
          if t in s.topicWave && s.topicWave[t] == v && t in s.catchingUp
          then Rise(Mark(s.highWater, t), SortById(PendingOf(s, t))) else [])
    && (forall t :: t in marker <==> t in s.topicWave && s.topicWave[t] == v)
    && Unrepeated(marker)
  }

  lemma CompletionTopic(cfg: Config, s: State, v: nat, w: Wave, t: Topic)
    requires HeldPure(s) && (Owns(s, v, t) ==> t in w.topics)
    ensures Proj(RowsIn(FoldFrames(cfg, SettledFold(s, w, v), w.mutateId)), t) ==
            if Owns(s, v, t) && t in s.catchingUp then Rise(Mark(s.highWater, t), SortById(PendingOf(s, t))) else []
  {
    hide SettleAll, FoldFrames, Rise;
    var f0, f := Fold(s, [], [], []), SettledFold(s, w, v);
    SettleAllTopic(f0, v, w.topics, t);
    assert Settles(s.topicWave, v, w.topics, t) == Owns(s, v, t);
    var held := if Owns(s, v, t) then FoldedRows(SliceOf(s, t)) else [];
    assert [] + held == held;
    FoldFrameTopic(cfg, f, w.mutateId, t, held);
    RiseOfNothing(Mark(f.s.highWater, t));
  }

  lemma RiseOfNothing(h: nat)
    ensures Rise(h, SortById([])) == []
  {
  }

  /** The fold's marker and frames, seen by every topic. */
  lemma CompletionTopics(cfg: Config, s: State, v: nat, w: Wave)
    requires HeldPure(s) && forall t :: Owns(s, v, t) ==> t in w.topics
    ensures var f := SettledFold(s, w, v);
            var fs := FoldFrames(cfg, f, w.mutateId);
            && (forall t :: t in f.marker <==> Owns(s, v, t))
            && (forall t :: Proj(RowsIn(fs), t) ==
                  if Owns(s, v, t) && t in s.catchingUp then Rise(Mark(s.highWater, t), SortById(PendingOf(s, t)))
                  else [])
            && CompleteWave(cfg, s, v, w).out ==
               s.out + fs + (if f.marker == [] then [] else [TopicsLive(f.marker)]) + [CatchupComplete(w.mutateId)]
  {
    hide SettledFold, FoldFrames, CompleteWave, RowsIn, Proj, Rise, SortById, HeldPure, FrameOf;
    forall t: Topic
      ensures t in SettledFold(s, w, v).marker <==> Owns(s, v, t)
      ensures Proj(RowsIn(FoldFrames(cfg, SettledFold(s, w, v), w.mutateId)), t) ==
              if Owns(s, v, t) && t in s.catchingUp then Rise(Mark(s.highWater, t), SortById(PendingOf(s, t))) else []
    {
      CompleteFacts(cfg, s, v, w, t);
      CompletionTopic(cfg, s, v, w, t);
    }
    CompleteFacts(cfg, s, v, w, Topic(Group, []));
  }

  lemma CompletionAnnounces(cfg: Config, s: State, v: nat, w: Wave)
    requires Book(s, {}, 0) && v in s.waves && w.topics == s.waves[v].topics
    ensures exists frames, marker ::
              Announced(s, CompleteWave(cfg, s, v, w), v, w.mutateId, cfg.maxFrameBytes, frames, marker)
  {
    hide SettleAll, CompleteWave, FoldFrames, Fits, RowsIn, InOrder, HeldPure, Proj, Rise, SortById;
    WriterSteps.BookParts(s);
    OwnedTopics(s, v);
    hide Book;
    var f := SettledFold(s, w, v);
    var fs := FoldFrames(cfg, f, w.mutateId);
    MarkerUnrepeated(Fold(s, [], [], []), v, w.topics);
    FoldKinds(Fold(s, [], [], []), v, w.topics);
    FoldFrameRows(cfg, f, w.mutateId);
    CompletionTopics(cfg, s, v, w);
    var t :| Owns(s, v, t);
    assert t in f.marker;
    assert s.out + fs + [TopicsLive(f.marker)] + [CatchupComplete(w.mutateId)] ==
           s.out + fs + [TopicsLive(f.marker), CatchupComplete(w.mutateId)];
    assert exists groups, welcomes :: InOrder(RowsIn(fs), groups, welcomes);
    assert Announced(s, CompleteWave(cfg, s, v, w), v, w.mutateId, cfg.maxFrameBytes, fs, f.marker);
  }

  lemma OwnedTopics(s: State, v: nat)
    requires Book(s, {}, 0) && v in s.waves
    ensures (forall t :: Owns(s, v, t) ==> t in s.waves[v].topics) && exists t :: Owns(s, v, t)
  {
    assert |Owners(s.topicWave, v)| > 0;
    var t :| t in Owners(s.topicWave, v);
    assert Owns(s, v, t);
  }

  /** What completing wave `v` leaves of a topic: one it owned is out of the wave, open if it was
      gated and forgotten if it was read for history only; any other is as it was. */
  ghost predicate Afterwards(s: State, d: State, v: nat, t: Topic) {
    if t in s.topicWave && s.topicWave[t] == v then
      && t !in d.topicWave && t !in d.catchingUp && PendingOf(d, t) == []
      && Mark(d.highWater, t) ==
         if t in s.catchingUp
         then LastId(Rise(Mark(s.highWater, t), SortById(PendingOf(s, t))), Mark(s.highWater, t)) else 0
    else
      && (t in d.topicWave <==> t in s.topicWave) && (t in s.topicWave ==> d.topicWave[t] == s.topicWave[t])
      && (t in d.catchingUp <==> t in s.catchingUp) && PendingOf(d, t) == PendingOf(s, t)
      && Mark(d.highWater, t) == Mark(s.highWater, t)
  }

  lemma CompletionLeaves(cfg: Config, s: State, v: nat, w: Wave, t: Topic)
    requires Book(s, {}, 0) && v in s.waves && w.topics == s.waves[v].topics
    ensures Afterwards(s, CompleteWave(cfg, s, v, w), v, t)
  {
    hide CompleteWave, DeliveredSince, Rise;
    WriterSteps.BookParts(s);
    OwnedTopics(s, v);
    hide Book;
    CompleteTopicAny(cfg, s, v, w, t, 0);
    var d := CompleteWave(cfg, s, v, w);
    assert SliceOf(d, t).wave == if t in d.topicWave then Some(d.topicWave[t]) else None;
    assert SliceOf(d, t).mark == Mark(d.highWater, t) && SliceOf(d, t).held == PendingOf(d, t);
  }

  /** The completion of a wave in every state the writer can be in: exactly these frames, exactly
      this wave gone, and every topic left as it should be. */
  lemma CompletionIsExact(cfg: Config, s: State, b: Batch)
    requires Sound(s, {}, 0, 0) && b.wave in s.waves && b.done && b.rows == [] && s.waves[b.wave].scansLeft <= 1
    ensures var d := TakeBatch(cfg, s, b).0;
            && (exists frames, marker ::
                  Announced(s, d, b.wave, s.waves[b.wave].mutateId, cfg.maxFrameBytes, frames, marker))
            && d.waves == s.waves - {b.wave} && d.subscribed == s.subscribed
            && forall t :: Afterwards(s, d, b.wave, t)
  {
    hide Announced, Afterwards, CompleteWave, Emit, Logs, Tags, InFlight, Book;
    WriterSteps.EmitNothing(cfg, s, s.waves[b.wave].mutateId, b.wave);
    var w := s.waves[b.wave].(scansLeft := s.waves[b.wave].scansLeft - 1);
    CompletionAnnounces(cfg, s, b.wave, w);
    CompleteBook(cfg, s, b.wave, w);
    WriterSteps.CompleteFields(cfg, s, b.wave, w);
    forall t ensures Afterwards(s, CompleteWave(cfg, s, b.wave, w), b.wave, t) {
      CompletionLeaves(cfg, s, b.wave, w, t);
    }
  }
}
