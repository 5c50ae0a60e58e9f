/** What every writer step does to one topic: its slice of the writer's state and the rows it
    has been sent. */
module TopicSlice {
  import opened Rows
  import opened WaveScan
  import opened Fetcher
  import opened Frames
  import opened Writer
  import opened StreamSystem
  import opened Bookkeeping

  datatype Slice = Slice(sub: bool, gated: bool, held: seq<Row>, wave: Option<nat>, mark: nat,
                         has: bool, floor: nat, start: nat)

  function SliceOf(s: State, t: Topic): Slice {
    Slice(t in s.subscribed, t in s.catchingUp, PendingOf(s, t),
          if t in s.topicWave then Some(s.topicWave[t]) else None, Mark(s.highWater, t),
          t in s.epochs, if t in s.epochs then s.epochs[t].floor else 0, if t in s.epochs then s.epochs[t].start else 0)
  }

  // ----- the output log -----

  lemma DeliveredAppend(out: seq<Frame>, more: seq<Frame>, start: nat, t: Topic)
    requires start <= |out|
    ensures DeliveredSince(out + more, start, t) == DeliveredSince(out, start, t) + Proj(RowsIn(more), t)
  {
    assert (out + more)[start..] == out[start..] + more;
    RowsInConcat(out[start..], more);
    ProjConcat(RowsIn(out[start..]), RowsIn(more), t);
  }

  lemma DeliveredSilent(out: seq<Frame>, f: Frame, start: nat, t: Topic)
    requires start <= |out| && !f.Messages?
    ensures DeliveredSince(out + [f], start, t) == DeliveredSince(out, start, t)
  {
    DeliveredAppend(out, [f], start, t);
    assert [f][1..] == [];
    assert RowsIn([f]) == [];
  }

  // ----- framing -----

  lemma EmitSlice(cfg: Config, s: State, mutateId: nat, msgs: seq<Row>, t: Topic)
    ensures var rise := Rise(Mark(s.highWater, t), Proj(msgs, t));
            var s' := Emit(cfg, s, mutateId, msgs);
            && SliceOf(s', t) == SliceOf(s, t).(mark := LastId(rise, Mark(s.highWater, t)))
            && s.out <= s'.out
            && forall start :: 0 <= start <= |s.out| ==>
                 DeliveredSince(s'.out, start, t) == DeliveredSince(s.out, start, t) + rise
  {
    SurvivorsOfTopic(s.highWater, msgs, t);
    PackMeaning(mutateId, cfg.maxFrameBytes, Survivors(s.highWater, msgs));
    var fs := Pack(mutateId, cfg.maxFrameBytes, Survivors(s.highWater, msgs));
    forall start | 0 <= start <= |s.out|
      ensures DeliveredSince(s.out + fs, start, t) == DeliveredSince(s.out, start, t) + Proj(RowsIn(fs), t)
    {
      DeliveredAppend(s.out, fs, start, t);
    }
  }

  lemma {:induction false} WantedOfTopic(topicWave: map<Topic, nat>, v: nat, rows: seq<Row>, t: Topic)
    ensures Proj(Wanted(topicWave, v, rows), t) == if t in topicWave && topicWave[t] == v then Proj(rows, t) else []
  {
    if rows != [] {
      WantedOfTopic(topicWave, v, rows[1..], t);
      ProjCons(rows[0], Wanted(topicWave, v, rows[1..]), t);
    }
  }

  // ----- dropping and registering -----

  lemma SilenceOther(s: State, x: Topic, t: Topic)
    requires t != x
    ensures SliceOf(Silence(s, x), t) == SliceOf(s, t) && Silence(s, x).out == s.out
  {
    hide Silence;
    SilenceFields(s, x);
  }

  lemma DisownOther(s: State, x: Topic, t: Topic)
    requires t != x
    ensures SliceOf(Disown(s, x), t) == SliceOf(s, t)
    ensures s.out <= Disown(s, x).out
    ensures forall start :: 0 <= start <= |s.out| ==>
              DeliveredSince(Disown(s, x).out, start, t) == DeliveredSince(s.out, start, t)
  {
    if x in s.topicWave && s.topicWave[x] in s.waves {
      var f := CatchupComplete(s.waves[s.topicWave[x]].mutateId);
      forall start | 0 <= start <= |s.out|
        ensures DeliveredSince(s.out + [f], start, t) == DeliveredSince(s.out, start, t) {
        DeliveredSilent(s.out, f, start, t);
      }
    }
  }

  lemma DropOther(s: State, x: Topic, t: Topic)
    requires t != x
    ensures SliceOf(DropTopic(s, x), t) == SliceOf(s, t)
    ensures s.out <= DropTopic(s, x).out
    ensures forall start :: 0 <= start <= |s.out| ==>
              DeliveredSince(DropTopic(s, x).out, start, t) == DeliveredSince(s.out, start, t)
  {
    hide Silence, Disown, SliceOf, DeliveredSince;
    SilenceOther(s, x, t);
    DisownOther(Silence(s, x), x, t);
  }

  lemma RegisterOther(s: State, x: Topic, cursor: nat, mutateId: nat, historyOnly: bool, t: Topic)
    requires t != x
    ensures SliceOf(Register(s, x, cursor, mutateId, historyOnly), t) == SliceOf(s, t)
    ensures Register(s, x, cursor, mutateId, historyOnly).out == s.out
  {
  }

  /** A freshly registered topic: floor and mark at the cursor, nothing delivered or held. */
  lemma RegisterSelf(s: State, t: Topic, cursor: nat, mutateId: nat, historyOnly: bool)
    requires t !in s.subscribed && t !in s.catchingUp && t !in s.pending && t !in s.topicWave
    ensures var s' := Register(s, t, cursor, mutateId, historyOnly);
            && SliceOf(s', t) == Slice(!historyOnly, !historyOnly, [], None, cursor, true, cursor, |s.out|)
            && s'.out == s.out
            && DeliveredSince(s'.out, |s.out|, t) == []
  {
  }

  lemma StartSlice(s: State, mutateId: nat, groupAdds: seq<Add>, welcomeAdds: seq<Add>, t: Topic)
    ensures var s' := StartWave(s, mutateId, groupAdds, welcomeAdds);
            && s'.out == s.out
            && SliceOf(s', t) == if t in Collected(groupAdds, welcomeAdds) then SliceOf(s, t).(wave := Some(s.nextWave))
                                 else SliceOf(s, t)
  {
  }

  // ----- completing a wave -----

  ghost predicate HeldPure(s: State) {
    forall t, r :: t in s.pending && r in s.pending[t] ==> r.topic == t
  }

  /** A topic's slice once its wave has settled it. */
  function OpenedSlice(sl: Slice): Slice {
    if sl.gated then sl.(wave := None, gated := false, held := [])
    else sl.(wave := None, mark := 0, has := false, floor := 0, start := 0)
  }

  /** What settling one topic adds to the fold. */
  function FoldedRows(sl: Slice): seq<Row> {
    if sl.gated then sl.held else []
  }

  lemma SettleSelf(s: State, t: Topic)
    ensures SliceOf(SettleState(s, t), t) == OpenedSlice(SliceOf(s, t))
  {
  }

  /** Removing another topic from the maps leaves this topic's slice. */
  lemma SliceSame(s: State, d: State, x: Topic, t: Topic)
    requires t != x && d.subscribed == s.subscribed
    requires d.catchingUp == s.catchingUp - {x} && d.topicWave == s.topicWave - {x}
    requires d.pending == s.pending || d.pending == s.pending - {x}
    requires d.highWater == s.highWater || d.highWater == s.highWater - {x}
    requires d.epochs == s.epochs || d.epochs == s.epochs - {x}
    ensures SliceOf(d, t) == SliceOf(s, t)
  {
  }

  lemma SettleMaps(s: State, x: Topic)
    ensures var d := SettleState(s, x);
            && d.subscribed == s.subscribed && d.catchingUp == s.catchingUp - {x} && d.topicWave == s.topicWave - {x}
            && (d.pending == s.pending || d.pending == s.pending - {x})
            && (d.highWater == s.highWater || d.highWater == s.highWater - {x})
            && (d.epochs == s.epochs || d.epochs == s.epochs - {x})
  {
    hide WireBytes, PendingOf;
    assert x !in s.catchingUp ==> s.catchingUp - {x} == s.catchingUp;
  }

  lemma SettleOther(s: State, x: Topic, t: Topic)
    requires t != x
    ensures SliceOf(SettleState(s, x), t) == SliceOf(s, t)
  {
    hide SettleState, SliceOf;
    SettleMaps(s, x);
    SliceSame(s, SettleState(s, x), x, t);
  }

  lemma SettlePure(s: State, x: Topic)
    requires HeldPure(s)
    ensures HeldPure(SettleState(s, x))
  {
    assert forall t :: t in SettleState(s, x).pending ==>
        t in s.pending && SettleState(s, x).pending[t] == s.pending[t];
  }

  lemma SettleFold(f: Fold, v: nat, x: Topic, t: Topic)
    requires HeldPure(f.s) && Owns(f.s, v, x)
    ensures var d := Settle(f, v, x);
            var add := if x == t then FoldedRows(SliceOf(f.s, t)) else [];
            && Proj(d.groups, t) == Proj(f.groups, t) + (if t.kind == Group then add else [])
            && Proj(d.welcomes, t) == Proj(f.welcomes, t) + (if t.kind == Welcome then add else [])
            && (t in d.marker <==> t in f.marker || t == x)
  {
    var held := if x in f.s.catchingUp then PendingOf(f.s, x) else [];
    ProjConcat(f.groups, held, t);
    ProjConcat(f.welcomes, held, t);
    if x == t { ProjOfTopic(held, t); } else { ProjOfOthers(held, t); }
  }

  lemma SettleOneTopic(f: Fold, v: nat, x: Topic, t: Topic)
    requires HeldPure(f.s)
    ensures var d := Settle(f, v, x);
            var sl := SliceOf(f.s, t);
            var settled := t == x && Owns(f.s, v, x);
            var add := if settled then FoldedRows(sl) else [];
            && HeldPure(d.s)
            && SliceOf(d.s, t) == (if settled then OpenedSlice(sl) else sl)
            && Proj(d.groups, t) == Proj(f.groups, t) + (if t.kind == Group then add else [])
            && Proj(d.welcomes, t) == Proj(f.welcomes, t) + (if t.kind == Welcome then add else [])
            && (t in d.marker <==> t in f.marker || settled)
  {
    hide HeldPure, SliceOf, SettleState, OpenedSlice, FoldedRows;
    if Owns(f.s, v, x) {
      SettleFold(f, v, x, t);
      SettlePure(f.s, x);
      if x == t { SettleSelf(f.s, t); } else { SettleOther(f.s, x, t); }
    }
  }

  lemma {:induction false} SettleAllTopic(f: Fold, v: nat, topics: seq<Topic>, t: Topic)
    requires HeldPure(f.s)
    ensures var d := SettleAll(f, v, topics);
            var sl := SliceOf(f.s, t);
            var settled := Settles(f.s.topicWave, v, topics, t);
            var add := if settled then FoldedRows(sl) else [];
            && SliceOf(d.s, t) == (if settled then OpenedSlice(sl) else sl)
            && Proj(d.groups, t) == Proj(f.groups, t) + (if t.kind == Group then add else [])
            && Proj(d.welcomes, t) == Proj(f.welcomes, t) + (if t.kind == Welcome then add else [])
            && (t in d.marker <==> t in f.marker || settled)
    decreases |topics|
  {
    hide HeldPure, SliceOf, Settle, OpenedSlice, FoldedRows;
    if topics != [] {
      var x := topics[0];
      assert topics == [x] + topics[1..];
      SettleOneTopic(f, v, x, t);
      SettleAllTopic(Settle(f, v, x), v, topics[1..], t);
      SettleStep(f, v, x, topics[1..], t);
    }
  }

  lemma SettleStep(f: Fold, v: nat, x: Topic, rest: seq<Topic>, t: Topic)
    ensures Settles(f.s.topicWave, v, [x] + rest, t) <==>
            (t == x && Owns(f.s, v, x)) || Settles(Settle(f, v, x).s.topicWave, v, rest, t)
    ensures t == x && Owns(f.s, v, x) ==> !Settles(Settle(f, v, x).s.topicWave, v, rest, t)
  {
  }

  /** A topic's share of a wave's completion: its held messages, sorted and deduplicated. */
  lemma FinishTopic(cfg: Config, f: Fold, v: nat, mutateId: nat, t: Topic, held: seq<Row>, start: nat)
    requires start <= |f.s.out|
    requires Proj(f.groups, t) == (if t.kind == Group then held else [])
    requires Proj(f.welcomes, t) == (if t.kind == Welcome then held else [])
    ensures var d := FinishFold(cfg, f, v, mutateId);
            var rise := Rise(Mark(f.s.highWater, t), SortById(held));
            && SliceOf(d, t) == SliceOf(f.s, t).(mark := LastId(rise, Mark(f.s.highWater, t)))
            && DeliveredSince(d.out, start, t) == DeliveredSince(f.s.out, start, t) + rise
            && f.s.out <= d.out
  {
    var groups, welcomes := SortById(f.groups), SortById(f.welcomes);
    ProjSort(f.groups, t);
    ProjSort(f.welcomes, t);
    var hw1 := Advance(f.s.highWater, groups);
    SurvivorsOfTopic(f.s.highWater, groups, t);
    SurvivorsOfTopic(hw1, welcomes, t);
    FinishOut(cfg, f, v, mutateId, t, start);
    FinishSlice(cfg, f, v, mutateId, t);
    var rise := Rise(Mark(f.s.highWater, t), SortById(held));
    if t.kind == Group {
      assert rise + [] == rise;
    } else {
      assert [] + rise == rise;
    }
  }

  lemma FinishSlice(cfg: Config, f: Fold, v: nat, mutateId: nat, t: Topic)
    ensures var d := FinishFold(cfg, f, v, mutateId);
            var hw1 := Advance(f.s.highWater, SortById(f.groups));
            SliceOf(d, t) == SliceOf(f.s, t).(mark := Mark(Advance(hw1, SortById(f.welcomes)), t))
  {
  }

  lemma FinishOut(cfg: Config, f: Fold, v: nat, mutateId: nat, t: Topic, start: nat)
    requires start <= |f.s.out|
    ensures var d := FinishFold(cfg, f, v, mutateId);
            var g, w := SortById(f.groups), SortById(f.welcomes);
            var hw1 := Advance(f.s.highWater, g);
            && f.s.out <= d.out
            && DeliveredSince(d.out, start, t) ==
               DeliveredSince(f.s.out, start, t) + (Proj(Survivors(f.s.highWater, g), t) + Proj(Survivors(hw1, w), t))
  {
    var g, w := SortById(f.groups), SortById(f.welcomes);
    var hw1 := Advance(f.s.highWater, g);
    var sg, sw := Survivors(f.s.highWater, g), Survivors(hw1, w);
    var gf, wf := Pack(mutateId, cfg.maxFrameBytes, sg), Pack(mutateId, cfg.maxFrameBytes, sw);
    PackMeaning(mutateId, cfg.maxFrameBytes, sg);
    PackMeaning(mutateId, cfg.maxFrameBytes, sw);
    hide Pack, Survivors, SortById, Advance, RowsIn, Proj, DeliveredSince;
    RowsInConcat(gf, wf);
    ProjConcat(sg, sw, t);
    DeliveredAppend(f.s.out, gf + wf, start, t);
    MarkersSilent(f.s.out + (gf + wf), f.marker, mutateId, start, t);
  }

  lemma MarkersSilent(out: seq<Frame>, marker: seq<Topic>, mutateId: nat, start: nat, t: Topic)
    requires start <= |out|
    ensures var more := if marker == [] then [] else [TopicsLive(marker)];
            DeliveredSince(out + more + [CatchupComplete(mutateId)], start, t) == DeliveredSince(out, start, t)
  {
    hide DeliveredSince;
    if marker == [] {
      assert out + [] == out;
      DeliveredSilent(out, CatchupComplete(mutateId), start, t);
    } else {
      DeliveredSilent(out, TopicsLive(marker), start, t);
      DeliveredSilent(out + [TopicsLive(marker)], CatchupComplete(mutateId), start, t);
    }
  }

  /** Completing wave `v`, seen by one topic, in whatever order its messages were held. */
  lemma CompleteTopicAny(cfg: Config, s: State, v: nat, w: Wave, t: Topic, start: nat)
    requires HeldPure(s) && start <= |s.out|
    requires Owns(s, v, t) ==> t in w.topics
    ensures var d := CompleteWave(cfg, s, v, w);
            var sl := SliceOf(s, t);
            var rise := if Owns(s, v, t) then Rise(sl.mark, SortById(FoldedRows(sl))) else [];
            && s.out <= d.out
            && SliceOf(d, t) == CompletedSlice(sl, Owns(s, v, t), rise)
            && DeliveredSince(d.out, start, t) == DeliveredSince(s.out, start, t) + rise
  {
    hide SettleAll, FinishFold, DeliveredSince;
    var f0 := Fold(s, [], [], []);
    var f := SettleAll(f0, v, w.topics);
    SettleAllTopic(f0, v, w.topics, t);
    SettleAllOut(f0, v, w.topics);
    assert Settles(s.topicWave, v, w.topics, t) == Owns(s, v, t);
    var held := if Owns(s, v, t) then FoldedRows(SliceOf(s, t)) else [];
    assert [] + held == held;
    FinishTopic(cfg, f, v, w.mutateId, t, held, start);
  }

  lemma CompleteTopic(cfg: Config, s: State, v: nat, w: Wave, t: Topic, start: nat)
    requires HeldPure(s) && Ascending(PendingOf(s, t)) && start <= |s.out|
    requires Owns(s, v, t) ==> t in w.topics
    ensures var d := CompleteWave(cfg, s, v, w);
            var sl := SliceOf(s, t);
            var rise := if Owns(s, v, t) then Rise(sl.mark, FoldedRows(sl)) else [];
            && s.out <= d.out
            && SliceOf(d, t) == CompletedSlice(sl, Owns(s, v, t), rise)
            && DeliveredSince(d.out, start, t) == DeliveredSince(s.out, start, t) + rise
  {
    CompleteTopicAny(cfg, s, v, w, t, start);
    SortOfAscending(FoldedRows(SliceOf(s, t)));
  }

  function CompletedSlice(sl: Slice, owned: bool, rise: seq<Row>): Slice {
    if !owned then sl
    else if sl.gated then OpenedSlice(sl).(mark := LastId(rise, sl.mark))
    else OpenedSlice(sl)
  }

  lemma {:induction false} SettleAllOut(f: Fold, v: nat, topics: seq<Topic>)
    ensures SettleAll(f, v, topics).s.out == f.s.out
    decreases |topics|
  {
    if topics != [] { SettleAllOut(Settle(f, v, topics[0]), v, topics[1..]); }
  }
}
