/** A Mutate taken apart: what parsing, the removes, the add loop and the gauge contribute. */
module MutateShape {
  import opened Rows
  import opened WaveScan
  import opened Fetcher
  import opened Frames
  import opened Writer
  import opened Bookkeeping

  /** Parsing collapses duplicates: the order lists each topic once. */
  lemma {:induction false} ParseDistinct(p: Parsed, adds: seq<AddReq>)
    requires forall t :: t in p.order <==> t in p.cursors
    requires forall i, j :: 0 <= i < j < |p.order| ==> p.order[i] != p.order[j]
    ensures ParseAdds(p, adds).Some? ==>
              var o := ParseAdds(p, adds).value.order;
              && (forall i, j :: 0 <= i < j < |o| ==> o[i] != o[j])
              && (adds == [] && p.order == [] ==> o == [])
    decreases |adds|
  {
    if adds != [] && SplitTopic(adds[0].wire).Some? {
      ParseDistinct(ParseOne(p, SplitTopic(adds[0].wire).value, adds[0].cursor), adds[1..]);
    }
  }

  /** The gauge takes the newly live topics up after the loop. */
  function Counted(w: State, newlyLive: nat): State { w.(subscribedTopics := w.subscribedTopics + newlyLive) }

  lemma CountedBook(w: State, limbo: set<Topic>, newlyLive: nat)
    requires Book(w, limbo, newlyLive)
    ensures Book(Counted(w, newlyLive), limbo, 0)
  {
    hide Ids, Gates;
    WavesSame(w, Counted(w, newlyLive));
    IdsKept(w, Counted(w, newlyLive));
    CountedGates(w, limbo, newlyLive);
    hide Waves;
  }

  lemma CountedGates(w: State, limbo: set<Topic>, newlyLive: nat)
    requires Gates(w, limbo)
    ensures Gates(Counted(w, newlyLive), limbo)
  {
  }

  /** Where the add loop of a Mutate ends, and the state its removes leave. */
  function RunAdds(w: State, m: MutateReq): (Adding, Verdict)
    requires ParseAdds(Parsed([], map[]), m.adds).Some?
  {
    var p := ParseAdds(Parsed([], map[]), m.adds).value;
    ParseKeepsOrder(Parsed([], map[]), m.adds);
    AddAll(Adding(DropAll(w, m.removes).0, [], [], 0), p.order, p.cursors, m.mutateId, m.historyOnly)
  }

  lemma MutateUnfolds(cfg: Config, w: State, m: MutateReq)
    requires Mutate(cfg, w, m).verdict == Continue
    ensures ParseAdds(Parsed([], map[]), m.adds).Some? && DropAll(w, m.removes).1 == Continue
    ensures RunAdds(w, m).1 == Continue
    ensures m.adds != [] ==> m.mutateId != 0
    ensures var a := RunAdds(w, m).0;
            var w1 := Counted(a.s, a.newlyLive);
            Mutate(cfg, w, m) ==
              if |a.groupAdds| + |a.welcomeAdds| > 0 then
                Mutated(StartWave(w1, m.mutateId, a.groupAdds, a.welcomeAdds), Continue, w1.nextWave, a.groupAdds,
                        a.welcomeAdds)
              else Mutated(w1.(out := w1.out + [CatchupComplete(m.mutateId)]), Continue, 0, [], [])
  {
    hide DropAll, AddAll, ParseAdds, StartWave;
  }

  lemma NoAdds(w: State, m: MutateReq)
    requires m.adds == [] && ParseAdds(Parsed([], map[]), m.adds).Some?
    ensures RunAdds(w, m).0.groupAdds == [] && RunAdds(w, m).0.welcomeAdds == []
  {
    hide DropAll;
  }

  lemma {:induction false} TopicsOfSnoc(adds: seq<Add>, x: Add)
    ensures TopicsOf(adds + [x]) == TopicsOf(adds) + [x.topic]
  {
    if adds == [] {
      assert [x][1..] == [];
    } else {
      assert (adds + [x])[1..] == adds[1..] + [x];
      TopicsOfSnoc(adds[1..], x);
    }
  }

  lemma CollectedMore(groupAdds: seq<Add>, welcomeAdds: seq<Add>, limbo: set<Topic>, t: Topic, cursor: nat)
    requires Enumerates(Collected(groupAdds, welcomeAdds), limbo) && t !in limbo
    ensures Enumerates(Collected(groupAdds + [Add(t, cursor)], welcomeAdds), limbo + {t})
    ensures Enumerates(Collected(groupAdds, welcomeAdds + [Add(t, cursor)]), limbo + {t})
  {
    TopicsOfSnoc(groupAdds, Add(t, cursor));
    TopicsOfSnoc(welcomeAdds, Add(t, cursor));
    hide TopicsOf;
    assert forall x ::
        x in Collected(groupAdds, welcomeAdds) <==> x in TopicsOf(groupAdds) || x in TopicsOf(welcomeAdds);
  }
}
