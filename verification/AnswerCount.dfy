/** Every Mutate is answered by one CatchupComplete: what has been answered and what is still in
    flight never changes behind a request's back. */
module AnswerCount {
  import opened Rows
  import opened WaveScan
  import opened Fetcher
  import opened Frames
  import opened Writer
  import opened StreamSystem
  import opened Bookkeeping
  import opened TopicSlice
  import opened EpochLog
  import opened LogSteps

  /** How many CatchupCompletes carry this id. */
  function Answers(out: seq<Frame>, id: nat): nat {
    if out == [] then 0 else (if out[0] == CatchupComplete(id) then 1 else 0) + Answers(out[1..], id)
  }

  /** Answers given to this id plus the one its in-flight wave still owes. */
  function Owed(s: State, id: nat): nat {
    Answers(s.out, id) + if InFlight(s, id) then 1 else 0
  }

  ghost predicate Balanced(s: State, d: State) {
    forall id :: Owed(d, id) == Owed(s, id)
  }

  lemma {:induction false} AnswersConcat(a: seq<Frame>, b: seq<Frame>, id: nat)
    ensures Answers(a + b, id) == Answers(a, id) + Answers(b, id)
  {
    if a == [] {
      assert a + b == b;
    } else {
      assert (a + b)[1..] == a[1..] + b;
      AnswersConcat(a[1..], b, id);
    }
  }

  lemma AnswersOne(f: Frame, id: nat)
    ensures Answers([f], id) == if f == CatchupComplete(id) then 1 else 0
  {
    assert [f][1..] == [];
  }

  lemma {:induction false} NoAnswers(fs: seq<Frame>, id: nat)
    requires forall i :: 0 <= i < |fs| ==> !fs[i].CatchupComplete?
    ensures Answers(fs, id) == 0
  {
    if fs != [] { NoAnswers(fs[1..], id); }
  }

  /** A wave leaves with its answer. */
  lemma WaveAnswered(s: State, d: State, v: nat, more: seq<Frame>)
    requires Ids(s) && v in s.waves && d.waves == s.waves - {v}
    requires d.out == s.out + more + [CatchupComplete(s.waves[v].mutateId)]
    requires forall i :: 0 <= i < |more| ==> !more[i].CatchupComplete?
    ensures Balanced(s, d)
  {
    forall id ensures Owed(d, id) == Owed(s, id) {
      AnswersConcat(s.out + more, [CatchupComplete(s.waves[v].mutateId)], id);
      AnswersConcat(s.out, more, id);
      AnswersOne(CatchupComplete(s.waves[v].mutateId), id);
      NoAnswers(more, id);
      if id == s.waves[v].mutateId {
        assert !InFlight(d, id);
      } else {
        assert forall u :: u in s.waves && s.waves[u].mutateId == id ==> u in d.waves;
      }
    }
  }

  lemma NoneAnswered(s: State, d: State, more: seq<Frame>)
    requires d.waves.Keys == s.waves.Keys && forall v :: v in s.waves ==> d.waves[v].mutateId == s.waves[v].mutateId
    requires d.out == s.out + more && forall i :: 0 <= i < |more| ==> !more[i].CatchupComplete?
    ensures Balanced(s, d)
  {
    forall id ensures Owed(d, id) == Owed(s, id) {
      AnswersConcat(s.out, more, id);
      NoAnswers(more, id);
      assert forall v :: v in s.waves <==> v in d.waves.Keys;
    }
  }

  lemma DropBalanced(s: State, x: Topic)
    requires Waves(s) && Ids(s)
    ensures Balanced(s, DropTopic(s, x))
  {
    var d := DropTopic(s, x);
    SilenceFields(s, x);
    WavesSame(s, Silence(s, x));
    DisownEmits(Silence(s, x), x);
    hide Balanced, Silence, Disown, Waves, Ids;
    if x in s.topicWave && s.waves[s.topicWave[x]].owned <= 1 {
      assert s.out + [] == s.out;
      WaveAnswered(s, d, s.topicWave[x], []);
    } else {
      assert s.out + [] == s.out;
      NoneAnswered(s, d, []);
    }
  }

  lemma EmitBalanced(cfg: Config, s: State, mutateId: nat, msgs: seq<Row>)
    ensures Balanced(s, Emit(cfg, s, mutateId, msgs))
  {
    var rows := Survivors(s.highWater, msgs);
    PackMeaning(mutateId, cfg.maxFrameBytes, rows);
    hide Balanced, Survivors, Pack;
    NoneAnswered(s, Emit(cfg, s, mutateId, msgs), Pack(mutateId, cfg.maxFrameBytes, rows));
  }

  lemma CompletionShape(cfg: Config, s: State, v: nat, w: Wave) returns (more: seq<Frame>)
    ensures CompleteWave(cfg, s, v, w).out == s.out + more + [CatchupComplete(w.mutateId)]
    ensures forall i :: 0 <= i < |more| ==> !more[i].CatchupComplete?
  {
    var f := SettledFold(s, w, v);
    SettleAllOut(Fold(s, [], [], []), v, w.topics);
    FoldCarries(cfg, f, w.mutateId, Topic(Group, []));
    hide SettleAll, Carries, Pack, Survivors;
    var fs := FoldFrames(cfg, f, w.mutateId);
    more := fs + (if f.marker == [] then [] else [TopicsLive(f.marker)]);
    forall i | 0 <= i < |more| ensures !more[i].CatchupComplete? {
      if i < |fs| { assert more[i] == fs[i]; }
    }
  }

  lemma CompleteBalanced(cfg: Config, s: State, v: nat, w: Wave)
    requires Ids(s) && v in s.waves && w.mutateId == s.waves[v].mutateId
    ensures Balanced(s, CompleteWave(cfg, s, v, w))
  {
    hide Balanced, CompleteWave, Ids;
    var more := CompletionShape(cfg, s, v, w);
    CompleteMap(cfg, s, v, w);
    WaveAnswered(s, CompleteWave(cfg, s, v, w), v, more);
  }

  lemma BalancedChain(a: State, b: State, c: State)
    requires Balanced(a, b) && Balanced(b, c)
    ensures Balanced(a, c)
  {
  }
}
