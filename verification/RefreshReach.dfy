/** How far a replay reaches once its scan has re-read the ceiling. */
module RefreshReach {
  import opened Rows
  import opened WaveScan
  import opened Fetcher
  import opened Frames
  import opened Writer
  import opened StreamSystem
  import opened Bookkeeping
  import opened TopicSlice
  import opened Delivery
  import opened LogSteps
  import opened Theorems
  import M = MutateMeaning

  /** The scan has been refreshed, and its ceiling reaches at least `upTo`. */
  ghost predicate CeilingReaches(scans: map<ScanId, Scan>, id: ScanId, upTo: nat) {
    id in scans && scans[id].started && scans[id].refreshed && upTo <= scans[id].ceiling
  }

  /** Scans spawned by a Mutate belong to a wave of its own. */
  lemma SpawnsNew(world: World, s: Sys, m: MutateReq, id: ScanId)
    requires Sound(s.w, {}, 0, 0) && Mutate(world.cfg, s.w, m).verdict == Continue
    requires id in s.scans && id.wave < s.w.nextWave
    ensures var r := Mutate(world.cfg, s.w, m); id in Spawned(s.scans, r) && Spawned(s.scans, r)[id] == s.scans[id]
  {
    hide Sound, Mutate, ParseAdds, M.Added, M.RemoveSet;
    M.ScansMean(world.cfg, s.w, m);
    var added := M.Added(s.w, M.RemoveSet(m.removes), ParseAdds(Parsed([], map[]), m.adds).value.cursors);
    M.NoKeys(added);
  }

  lemma StepCeiling(world: World, s: Sys, step: Step, id: ScanId, upTo: nat)
    requires Sound(s.w, {}, 0, 0) && ScansOk(s) && Enabled(world, s, step) && !Apply(world, s, step).ended
    requires CeilingReaches(s.scans, id, upTo)
    ensures CeilingReaches(Apply(world, s, step).scans, id, upTo)
  {
    hide Sound, ScanOk, Mutate, TakeBatch, TakeLive, RunTurn, Prune, DispatchRow, StaleAfter, Spawned;
    match step
    case Dispatch(k) => DispatchCases(world, s, NextRow(Table(s, k), Seen(s, k)).value);
    case WriterMutate(m) =>
      MutateEnds(world, s, m);
      SpawnsNew(world, s, m, id);
    case _ =>
  }

  lemma {:induction false} RunCeiling(world: World, run: seq<Sys>, steps: seq<Step>, j: nat, i: nat, id: ScanId,
                                      upTo: nat)
    requires Run(world, run, steps) && j <= i <= |steps| && !run[i].ended && CeilingReaches(run[j].scans, id, upTo)
    ensures CeilingReaches(run[i].scans, id, upTo)
    decreases i
  {
    hide Inv, Sound, Apply, Enabled, CeilingReaches;
    if j < i {
      var s, step := run[i - 1], steps[i - 1];
      assert Enabled(world, s, step) && run[i] == Apply(world, s, step);
      if s.ended { EndedStays(world, s, step); }
      RunCeiling(world, run, steps, j, i - 1, id, upTo);
      RunInv(world, run, steps, i - 1);
      RunWriterSound(world, run, steps, i - 1);
      ScansFine(s);
      StepCeiling(world, s, step, id, upTo);
    }
  }

  lemma ScansFine(s: Sys)
    requires Inv(s)
    ensures ScansOk(s)
  {
  }

  /** A refresh that succeeds makes the replay current: when the wave completes, the bound it
      announces for a topic its scan did not prune covers every row of the topic that was visible
      at the refresh. */
  lemma BoundCoversRefresh(world: World, run: seq<Sys>, steps: seq<Step>, j: nat, i: nat, t: Topic, r: Row)
    requires Run(world, run, steps) && j < i <= |steps| && !run[i].ended
    requires Completing(run[i]) && Owns(run[i].w, run[i].lane[0].wave, t)
    requires steps[j] == Refresh(ScanId(run[i].lane[0].wave, t.kind), false) && r in Table(run[j], t.kind)
    ensures t in run[i].w.epochs && ScanId(run[i].w.topicWave[t], t.kind) in run[i].scans
    ensures run[i].w.epochs[t].floor < run[i].scans[ScanId(run[i].w.topicWave[t], t.kind)].first ==>
              r.id <= ReplayBound(run[i], t)
  {
    hide Inv, Apply, Enabled, CeilingReaches, ReplayBound;
    var id := ScanId(run[i].lane[0].wave, t.kind);
    var upTo := MaxId(Table(run[j], t.kind));
    if run[j].ended { EndedBefore(world, run, steps, j, i); }
    RunInv(world, run, steps, j);
    RunInv(world, run, steps, i);
    assert Enabled(world, run[j], steps[j]) && run[j + 1] == Apply(world, run[j], steps[j]);
    TablesRead(run[j], t.kind);
    MaxIdBounds(Table(run[j], t.kind), r);
    RefreshReaches(world, run[j], id);
    RunCeiling(world, run, steps, j + 1, i, id, upTo);
    CompletingView(run[i], t);
    CeilingBounds(run[i], t, upTo);
  }

  lemma RefreshReaches(world: World, s: Sys, id: ScanId)
    requires Enabled(world, s, Refresh(id, false))
    ensures CeilingReaches(Apply(world, s, Refresh(id, false)).scans, id, MaxId(Table(s, id.kind)))
  {
  }

  lemma CeilingBounds(s: Sys, t: Topic, upTo: nat)
    requires t in s.w.epochs && t in s.w.topicWave
    requires CeilingReaches(s.scans, ScanId(s.w.topicWave[t], t.kind), upTo)
    ensures s.w.epochs[t].floor < s.scans[ScanId(s.w.topicWave[t], t.kind)].first ==> upTo <= ReplayBound(s, t)
  {
  }
}
