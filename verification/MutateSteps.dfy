/** A Mutate keeps the delivery invariant. Between its removes and its wave's start the topics
    it has registered are in `limbo`: gated, but owned by no wave yet. */
module MutateSteps {
  import opened Rows
  import opened WaveScan
  import opened Fetcher
  import opened Frames
  import opened Writer
  import opened StreamSystem
  import opened Bookkeeping
  import opened MutateShape
  import opened TopicSlice
  import opened Delivery
  import WriterSteps
  import V = TopicView

  /** A topic in limbo: floor and mark at its cursor, nothing delivered, held or owned. */
  ghost predicate LimboTopic(w: State, t: Topic) {
    var sl := SliceOf(w, t);
    && sl == Slice(sl.sub, sl.sub, [], None, sl.floor, true, sl.floor, sl.start)
    && sl.start <= |w.out|
    && DeliveredSince(w.out, sl.start, t) == []
  }

  ghost predicate Limbo(w: State, limbo: set<Topic>) {
    forall t :: t in limbo ==> LimboTopic(w, t)
  }

  /** The invariant while a Mutate runs: `s` is the system with the writer still at its old
      state, `w` is where the writer has got to. */
  ghost predicate Mid(s: Sys, w: State, limbo: set<Topic>, newlyLive: nat, mutateId: nat) {
    && Book(w, limbo, newlyLive)
    && TopicsOk(s.(w := w), limbo)
    && WaveScans(w, s.scans)
    && StaleOk(s.(w := w), limbo)
    && w.nextWave == s.w.nextWave
    && !InFlight(w, mutateId)
    && Limbo(w, limbo)
  }

  // ----- dropping a topic -----

  lemma DropTopicOk(s: Sys, w: State, x: Topic, t: Topic)
    requires t != x && TopicOk(s.(w := w), t)
    ensures TopicOk(s.(w := DropTopic(w, x)), t)
  {
    hide ViewOf, V.ViewOk, DropTopic, DeliveredSince, SliceOf;
    DropOther(w, x, t);
    DropView(s, w, DropTopic(w, x), t);
  }

  lemma DropView(s: Sys, w: State, w': State, t: Topic)
    requires SliceOf(w', t) == SliceOf(w, t) && SliceOf(w, t).start <= |w.out|
    requires DeliveredSince(w'.out, SliceOf(w, t).start, t) == DeliveredSince(w.out, SliceOf(w, t).start, t)
    ensures ViewOf(s.(w := w'), t) == ViewOf(s.(w := w), t)
  {
    hide DeliveredSince, InLane, Position, Proj, SliceOf;
  }

  lemma DropTopicsOk(s: Sys, w: State, x: Topic, limbo: set<Topic>)
    requires TopicsOk(s.(w := w), limbo)
    ensures TopicsOk(s.(w := DropTopic(w, x)), limbo)
  {
    hide TopicOk, DropTopic;
    DropFields(w, x);
    forall t | t in DropTopic(w, x).epochs && t !in limbo ensures TopicOk(s.(w := DropTopic(w, x)), t) {
      DropTopicOk(s, w, x, t);
    }
  }

  lemma DropLimbo(w: State, x: Topic, limbo: set<Topic>)
    requires Limbo(w, limbo) && x !in limbo
    ensures Limbo(DropTopic(w, x), limbo)
  {
    hide DropTopic, DeliveredSince, SliceOf;
    forall t | t in limbo ensures LimboTopic(DropTopic(w, x), t) {
      DropOther(w, x, t);
    }
  }

  lemma DropScans(w: State, d: State, t: Topic, scans: map<ScanId, Scan>)
    requires WaveScans(w, scans)
    requires d.topicWave == w.topicWave - {t} && d.epochs == w.epochs - {t}
    requires forall v :: v in d.waves ==> v in w.waves && d.waves[v].scansLeft == w.waves[v].scansLeft
    ensures WaveScans(d, scans)
  {
  }

  lemma DropStale(s: Sys, w: State, d: State, t: Topic, limbo: set<Topic>)
    requires StaleOk(s.(w := w), limbo)
    requires d.topicWave == w.topicWave - {t} && d.epochs == w.epochs - {t} && d.subscribed == w.subscribed - {t}
    ensures StaleOk(s.(w := d), limbo)
  {
  }

  lemma DropFlight(w: State, d: State, mutateId: nat)
    requires !InFlight(w, mutateId)
    requires forall v :: v in d.waves ==> v in w.waves && d.waves[v].mutateId == w.waves[v].mutateId
    ensures !InFlight(d, mutateId)
  {
  }

  lemma DropMid(s: Sys, w: State, t: Topic, limbo: set<Topic>, newlyLive: nat, mutateId: nat)
    requires Mid(s, w, limbo, newlyLive, mutateId) && t !in limbo
    ensures Mid(s, DropTopic(w, t), limbo, newlyLive, mutateId)
  {
    hide Book, TopicsOk, WaveScans, StaleOk, InFlight, Limbo, DropTopic;
    DropFields(w, t);
    var d := DropTopic(w, t);
    DropBook(w, t, limbo, newlyLive);
    DropTopicsOk(s, w, t, limbo);
    DropScans(w, d, t, s.scans);
    DropStale(s, w, d, t, limbo);
    DropFlight(w, d, mutateId);
    DropLimbo(w, t, limbo);
  }

  lemma {:induction false} DropAllMid(s: Sys, w: State, removes: seq<seq<byte>>, mutateId: nat)
    requires Mid(s, w, {}, 0, mutateId)
    ensures DropAll(w, removes).1 == Continue ==> Mid(s, DropAll(w, removes).0, {}, 0, mutateId)
    decreases |removes|
  {
    hide Mid, DropTopic;
    if removes != [] && SplitTopic(removes[0]).Some? {
      var t := SplitTopic(removes[0]).value;
      DropMid(s, w, t, {}, 0, mutateId);
      DropAllMid(s, DropTopic(w, t), removes[1..], mutateId);
    }
  }

  // ----- registering a topic -----

  lemma RegisterTopicsOk(s: Sys, w: State, x: Topic, cursor: nat, mutateId: nat, historyOnly: bool, limbo: set<Topic>)
    requires TopicsOk(s.(w := w), limbo)
    ensures TopicsOk(s.(w := Register(w, x, cursor, mutateId, historyOnly)), limbo + {x})
  {
    var w' := Register(w, x, cursor, mutateId, historyOnly);
    assert w'.epochs.Keys == w.epochs.Keys + {x};
    hide Register, ViewOf, V.ViewOk, DeliveredSince, SliceOf;
    forall t | t in w'.epochs && t !in limbo + {x} ensures TopicOk(s.(w := w'), t) {
      assert t in w'.epochs.Keys;
      assert TopicOk(s.(w := w), t);
      RegisterOther(w, x, cursor, mutateId, historyOnly, t);
      DropView(s, w, w', t);
    }
  }

  lemma RegisterLimbo(w: State, x: Topic, cursor: nat, mutateId: nat, historyOnly: bool, limbo: set<Topic>)
    requires Limbo(w, limbo) && x !in limbo
    requires x !in w.subscribed && x !in w.catchingUp && x !in w.pending && x !in w.topicWave
    ensures Limbo(Register(w, x, cursor, mutateId, historyOnly), limbo + {x})
    ensures SliceOf(Register(w, x, cursor, mutateId, historyOnly), x).floor == cursor
    ensures forall t :: t in limbo ==> SliceOf(Register(w, x, cursor, mutateId, historyOnly), t) == SliceOf(w, t)
  {
    var w' := Register(w, x, cursor, mutateId, historyOnly);
    RegisterSelf(w, x, cursor, mutateId, historyOnly);
    hide Register, DeliveredSince, SliceOf;
    forall t | t in limbo ensures LimboTopic(w', t) && SliceOf(w', t) == SliceOf(w, t) {
      assert LimboTopic(w, t);
      RegisterOther(w, x, cursor, mutateId, historyOnly, t);
    }
    assert LimboTopic(w', x);
  }

  lemma RegisterMid(s: Sys, w: State, t: Topic, cursor: nat, mutateId: nat, historyOnly: bool, limbo: set<Topic>,
                    newlyLive: nat)
    requires Mid(s, w, limbo, newlyLive, mutateId) && t !in limbo
    requires t !in w.subscribed && t !in w.catchingUp && t !in w.pending && t !in w.topicWave
    ensures Mid(s, Register(w, t, cursor, mutateId, historyOnly), limbo + {t},
                if historyOnly then newlyLive else newlyLive + 1, mutateId)
  {
    hide Book, TopicsOk, WaveScans, StaleOk, InFlight, Limbo, Register;
    var w' := Register(w, t, cursor, mutateId, historyOnly);
    RegisterFields(w, t, cursor, mutateId, historyOnly);
    RegisterRest(s, w, w', t, limbo, mutateId);
    RegisterBook(w, t, cursor, mutateId, historyOnly, limbo, newlyLive);
    RegisterTopicsOk(s, w, t, cursor, mutateId, historyOnly, limbo);
    RegisterLimbo(w, t, cursor, mutateId, historyOnly, limbo);
  }

  lemma RegisterFields(w: State, t: Topic, cursor: nat, mutateId: nat, historyOnly: bool)
    ensures var w' := Register(w, t, cursor, mutateId, historyOnly);
            && w'.topicWave == w.topicWave && w'.waves == w.waves && w'.nextWave == w.nextWave
            && w'.epochs.Keys == w.epochs.Keys + {t}
            && (forall x :: x in w.epochs && x != t ==> w'.epochs[x] == w.epochs[x])
            && (w'.subscribed == w.subscribed || w'.subscribed == w.subscribed + {t})
  {
  }

  lemma RegisterRest(s: Sys, w: State, w': State, t: Topic, limbo: set<Topic>, mutateId: nat)
    requires WaveScans(w, s.scans) && StaleOk(s.(w := w), limbo) && !InFlight(w, mutateId)
    requires t !in w.topicWave
    requires w'.topicWave == w.topicWave && w'.waves == w.waves && w'.nextWave == w.nextWave
    requires w'.epochs.Keys == w.epochs.Keys + {t}
    requires forall x :: x in w.epochs && x != t ==> w'.epochs[x] == w.epochs[x]
    requires w'.subscribed == w.subscribed || w'.subscribed == w.subscribed + {t}
    ensures WaveScans(w', s.scans) && StaleOk(s.(w := w'), limbo + {t}) && !InFlight(w', mutateId)
  {
    forall x | x in w'.topicWave ensures x in w'.epochs { assert x in w.epochs.Keys; }
    forall x | x in s.stale && x in w'.epochs && x !in limbo + {t} ensures x in w'.topicWave && x !in w'.subscribed {
      assert x in w'.epochs.Keys;
    }
  }

  // ----- the add loop -----

  /** The add lists enumerate limbo, each topic with its floor, split by kind. */
  ghost predicate Lists(a: Adding, limbo: set<Topic>) {
    && Enumerates(Collected(a.groupAdds, a.welcomeAdds), limbo)
    && ListOk(a.s, a.groupAdds, Group, limbo)
    && ListOk(a.s, a.welcomeAdds, Welcome, limbo)
  }

  /** One kind's list: distinct topics of limbo, each with its floor. */
  ghost predicate ListOk(w: State, adds: seq<Add>, k: Kind, limbo: set<Topic>) {
    && Distinct(adds)
    && (forall x :: x in adds ==> x.topic.kind == k && x.topic in limbo && SliceOf(w, x.topic).floor == x.cursor)
  }

  lemma ListGrows(w: State, w': State, adds: seq<Add>, k: Kind, limbo: set<Topic>, x: Add)
    requires ListOk(w, adds, k, limbo) && x.topic !in limbo && x.topic.kind == k
    requires SliceOf(w', x.topic).floor == x.cursor
    requires forall t :: t in limbo ==> SliceOf(w', t).floor == SliceOf(w, t).floor
    ensures ListOk(w', adds + [x], k, limbo + {x.topic})
  {
    hide SliceOf;
    forall i | 0 <= i < |adds| ensures adds[i].topic != x.topic { assert adds[i] in adds; }
  }

  lemma ListKept(w: State, w': State, adds: seq<Add>, k: Kind, limbo: set<Topic>, more: set<Topic>)
    requires ListOk(w, adds, k, limbo) && limbo <= more
    requires forall t :: t in limbo ==> SliceOf(w', t).floor == SliceOf(w, t).floor
    ensures ListOk(w', adds, k, more)
  {
    hide SliceOf;
  }

  /** Registering a topic outside limbo extends the lists. */
  lemma ListsGrow(a: Adding, w': State, t: Topic, cursor: nat, limbo: set<Topic>, newlyLive: nat)
    requires Lists(a, limbo) && t !in limbo
    requires SliceOf(w', t).floor == cursor
    requires forall x :: x in limbo ==> SliceOf(w', x).floor == SliceOf(a.s, x).floor
    ensures t.kind == Group ==> Lists(Adding(w', a.groupAdds + [Add(t, cursor)], a.welcomeAdds, newlyLive), limbo + {t})
    ensures t.kind == Welcome ==> Lists(Adding(w', a.groupAdds, a.welcomeAdds + [Add(t, cursor)], newlyLive),
                                        limbo + {t})
  {
    hide Collected, SliceOf, Enumerates, ListOk;
    CollectedMore(a.groupAdds, a.welcomeAdds, limbo, t, cursor);
    if t.kind == Group {
      ListGrows(a.s, w', a.groupAdds, Group, limbo, Add(t, cursor));
      ListKept(a.s, w', a.welcomeAdds, Welcome, limbo, limbo + {t});
    } else {
      ListGrows(a.s, w', a.welcomeAdds, Welcome, limbo, Add(t, cursor));
      ListKept(a.s, w', a.groupAdds, Group, limbo, limbo + {t});
    }
  }

  lemma DropLists(a: Adding, t: Topic, limbo: set<Topic>)
    requires Lists(a, limbo) && t !in limbo
    ensures forall x :: x in limbo ==> SliceOf(DropTopic(a.s, t), x) == SliceOf(a.s, x)
  {
    hide DropTopic, SliceOf, DeliveredSince;
    forall x | x in limbo ensures SliceOf(DropTopic(a.s, t), x) == SliceOf(a.s, x) { DropOther(a.s, t, x); }
  }

  /** The state in which AddOne registers a topic: dropped first if it was active. */
  lemma Cleared(s: Sys, w: State, t: Topic, limbo: set<Topic>, newlyLive: nat, mutateId: nat)
    requires Mid(s, w, limbo, newlyLive, mutateId) && t !in limbo && (t in w.topicWave ==> Active(w, t))
    ensures var w1 := if Active(w, t) then DropTopic(w, t) else w;
            && Mid(s, w1, limbo, newlyLive, mutateId)
            && t !in w1.subscribed && t !in w1.catchingUp && t !in w1.pending && t !in w1.topicWave
  {
    var w1 := if Active(w, t) then DropTopic(w, t) else w;
    if Active(w, t) {
      DropFields(w, t);
      DropMid(s, w, t, limbo, newlyLive, mutateId);
    }
    MidBook(s, w1, limbo, newlyLive, mutateId);
    hide Mid, DropTopic;
  }

  lemma MidBook(s: Sys, w: State, limbo: set<Topic>, newlyLive: nat, mutateId: nat)
    requires Mid(s, w, limbo, newlyLive, mutateId)
    ensures w.pending.Keys <= w.catchingUp <= w.subscribed
    ensures forall t :: t in w.pending ==> t in w.catchingUp
  {
    assert forall t :: t in w.pending ==> t in w.pending.Keys;
  }

  /** What the add loop has achieved. */
  ghost predicate AddingMid(s: Sys, a: Adding, limbo: set<Topic>, mutateId: nat) {
    Mid(s, a.s, limbo, a.newlyLive, mutateId) && Lists(a, limbo)
  }

  lemma AddOneMid(s: Sys, a: Adding, t: Topic, cursor: nat, mutateId: nat, historyOnly: bool, limbo: set<Topic>)
    requires AddingMid(s, a, limbo, mutateId) && t !in limbo
    requires AddOne(a, t, cursor, mutateId, historyOnly).1 == Continue
    ensures var a' := AddOne(a, t, cursor, mutateId, historyOnly).0;
            AddingMid(s, a', limbo, mutateId) || AddingMid(s, a', limbo + {t}, mutateId)
  {
    hide Mid, Lists, DropTopic, Register, SliceOf;
    if !(Active(a.s, t) && cursor >= Mark(a.s.highWater, t)) {
      var w1 := if Active(a.s, t) then DropTopic(a.s, t) else a.s;
      var w2 := Register(w1, t, cursor, mutateId, historyOnly);
      Cleared(s, a.s, t, limbo, a.newlyLive, mutateId);
      DropLists(a, t, limbo);
      RegisterMid(s, w1, t, cursor, mutateId, historyOnly, limbo, a.newlyLive);
      RegisterFloors(s, w1, t, cursor, mutateId, historyOnly, limbo, a.newlyLive);
      ListsGrow(a, w2, t, cursor, limbo, if historyOnly then a.newlyLive else a.newlyLive + 1);
    }
  }

  lemma RegisterFloors(s: Sys, w: State, t: Topic, cursor: nat, mutateId: nat, historyOnly: bool, limbo: set<Topic>,
                       newlyLive: nat)
    requires Mid(s, w, limbo, newlyLive, mutateId) && t !in limbo
    requires t !in w.subscribed && t !in w.catchingUp && t !in w.pending && t !in w.topicWave
    ensures SliceOf(Register(w, t, cursor, mutateId, historyOnly), t).floor == cursor
    ensures forall x :: x in limbo ==> SliceOf(Register(w, t, cursor, mutateId, historyOnly), x) == SliceOf(w, x)
  {
    hide Register, Book, TopicsOk, WaveScans, StaleOk, InFlight, Limbo;
    RegisterLimbo(w, t, cursor, mutateId, historyOnly, limbo);
  }

  lemma {:induction false} AddAllMid(s: Sys, a: Adding, order: seq<Topic>, cursors: map<Topic, nat>, mutateId: nat,
                                     historyOnly: bool, limbo: set<Topic>) returns (limbo': set<Topic>)
    requires AddingMid(s, a, limbo, mutateId)
    requires forall t :: t in order ==> t in cursors && t !in limbo
    requires forall i, j :: 0 <= i < j < |order| ==> order[i] != order[j]
    ensures AddAll(a, order, cursors, mutateId, historyOnly).1 == Continue ==>
              AddingMid(s, AddAll(a, order, cursors, mutateId, historyOnly).0, limbo', mutateId)
    decreases |order|
  {
    limbo' := limbo;
    hide AddingMid, AddOne;
    if order != [] {
      var t := order[0];
      var (a', v) := AddOne(a, t, cursors[t], mutateId, historyOnly);
      if v == Continue {
        AddOneMid(s, a, t, cursors[t], mutateId, historyOnly, limbo);
        var next := if AddingMid(s, a', limbo, mutateId) then limbo else limbo + {t};
        limbo' := AddAllMid(s, a', order[1..], cursors, mutateId, historyOnly, next);
      }
    }
  }

  // ----- starting the wave -----

  /** The system after an accepted Mutate that registered topics. */
  function Started(s: Sys, w: State, mutateId: nat, groupAdds: seq<Add>, welcomeAdds: seq<Add>): Sys {
    var w' := StartWave(w, mutateId, groupAdds, welcomeAdds);
    s.(w := w', scans := Spawned(s.scans, Mutated(w', Continue, w.nextWave, groupAdds, welcomeAdds)),
       stale := StaleAfter(s, w'))
  }

  lemma NewScanOk(adds: seq<Add>, k: Kind, maxId: nat)
    requires Distinct(adds) && forall a :: a in adds ==> a.topic.kind == k
    ensures ScanOk(NewScan(adds), k, maxId)
  {
  }

  /** The scan table after spawning the scans of wave `v`. */
  function SpawnedFor(scans: map<ScanId, Scan>, v: nat, groupAdds: seq<Add>, welcomeAdds: seq<Add>): map<ScanId, Scan> {
    Spawned(scans, Mutated(Init, Continue, v, groupAdds, welcomeAdds))
  }

  lemma SpawnedFacts(scans: map<ScanId, Scan>, v: nat, groupAdds: seq<Add>, welcomeAdds: seq<Add>)
    requires forall id :: id in scans ==> id.wave < v
    ensures var scans' := SpawnedFor(scans, v, groupAdds, welcomeAdds);
            && (forall id :: id in scans ==> id in scans' && scans'[id] == scans[id])
            && (forall id :: id in scans' && id !in scans ==>
                  id.wave == v && scans'[id] == NewScan(if id.kind == Group then groupAdds else welcomeAdds))
            && (ScanId(v, Group) in scans' <==> groupAdds != [])
            && (ScanId(v, Welcome) in scans' <==> welcomeAdds != [])
  {
  }

  lemma StartedIs(s: Sys, w: State, mutateId: nat, groupAdds: seq<Add>, welcomeAdds: seq<Add>)
    ensures Started(s, w, mutateId, groupAdds, welcomeAdds).scans
         == SpawnedFor(s.scans, w.nextWave, groupAdds, welcomeAdds)
    ensures Started(s, w, mutateId, groupAdds, welcomeAdds).w == StartWave(w, mutateId, groupAdds, welcomeAdds)
    ensures Started(s, w, mutateId, groupAdds, welcomeAdds).w.nextWave == w.nextWave + 1
  {
  }

  lemma SpawnedScansOk(s: Sys, s': Sys, w: State, groupAdds: seq<Add>, welcomeAdds: seq<Add>, limbo: set<Topic>)
    requires ScansOk(s) && w.nextWave == s.w.nextWave
    requires ListOk(w, groupAdds, Group, limbo) && ListOk(w, welcomeAdds, Welcome, limbo)
    requires s'.scans == SpawnedFor(s.scans, w.nextWave, groupAdds, welcomeAdds)
    requires s'.groups == s.groups && s'.welcomes == s.welcomes && s'.w.nextWave == w.nextWave + 1
    ensures ScansOk(s')
  {
    assert ListOk(w, groupAdds, Group, limbo) && ListOk(w, welcomeAdds, Welcome, limbo);
    NewScanOk(groupAdds, Group, MaxId(s.groups));
    NewScanOk(welcomeAdds, Welcome, MaxId(s.welcomes));
    hide ScanOk, SliceOf, SpawnedFor, ListOk;
    SpawnedFacts(s.scans, w.nextWave, groupAdds, welcomeAdds);
  }

  lemma SpawnedLane(lane: seq<Batch>, scans: map<ScanId, Scan>, scans': map<ScanId, Scan>)
    requires LaneOk(lane, scans) && forall id :: id in scans ==> id in scans' && scans'[id] == scans[id]
    ensures LaneOk(lane, scans')
  {
    forall b | b in lane ensures BatchOk(b, scans') { assert BatchOk(b, scans); }
  }

  lemma StartFields(w: State, mutateId: nat, groupAdds: seq<Add>, welcomeAdds: seq<Add>)
    ensures var w' := StartWave(w, mutateId, groupAdds, welcomeAdds);
            && w'.epochs == w.epochs && w'.out == w.out && w'.subscribed == w.subscribed
            && w'.nextWave == w.nextWave + 1
            && w'.waves == w.waves[w.nextWave := w'.waves[w.nextWave]]
            && w'.waves[w.nextWave].scansLeft
               == (if groupAdds == [] then 0 else 1) + (if welcomeAdds == [] then 0 else 1)
            && (forall t :: t in w'.topicWave <==> t in w.topicWave || t in Collected(groupAdds, welcomeAdds))
            && (forall t :: t in w'.topicWave ==>
                  w'.topicWave[t] == if t in Collected(groupAdds, welcomeAdds) then w.nextWave else w.topicWave[t])
  {
  }

  lemma StartedCounts(w: State, w': State, v: nat, scans: map<ScanId, Scan>, scans': map<ScanId, Scan>,
                      groupAdds: seq<Add>, welcomeAdds: seq<Add>)
    requires WaveScans(w, scans) && (forall id :: id in scans ==> id.wave < v) && (forall u :: u in w.waves ==> u < v)
    requires scans' == SpawnedFor(scans, v, groupAdds, welcomeAdds)
    requires v in w'.waves && w'.waves == w.waves[v := w'.waves[v]]
    requires w'.waves[v].scansLeft == (if groupAdds == [] then 0 else 1) + (if welcomeAdds == [] then 0 else 1)
    ensures forall u :: u in w'.waves ==> w'.waves[u].scansLeft == Left(scans', u)
  {
    SpawnedFacts(scans, v, groupAdds, welcomeAdds);
    hide SpawnedFor;
    forall u | u in w.waves ensures Left(scans', u) == Left(scans, u) {
    }
  }

  lemma StartedLists(w: State, w': State, v: nat, scans: map<ScanId, Scan>, scans': map<ScanId, Scan>,
                     groupAdds: seq<Add>, welcomeAdds: seq<Add>, limbo: set<Topic>)
    requires WaveScans(w, scans) && (forall id :: id in scans ==> id.wave < v)
    requires scans' == SpawnedFor(scans, v, groupAdds, welcomeAdds)
    requires Enumerates(Collected(groupAdds, welcomeAdds), limbo) && forall t :: t in limbo ==> t in w.epochs
    requires ListOk(w, groupAdds, Group, limbo) && ListOk(w, welcomeAdds, Welcome, limbo)
    requires w'.epochs == w.epochs
    requires forall t :: t in w'.topicWave <==> t in w.topicWave || t in Collected(groupAdds, welcomeAdds)
    requires forall t :: t in w'.topicWave ==>
               w'.topicWave[t] == if t in Collected(groupAdds, welcomeAdds) then v else w.topicWave[t]
    ensures forall t :: t in w'.topicWave ==>
              && ScanId(w'.topicWave[t], t.kind) in scans' && t in w'.epochs
              && Add(t, w'.epochs[t].floor) in scans'[ScanId(w'.topicWave[t], t.kind)].adds
  {
    SpawnedFacts(scans, v, groupAdds, welcomeAdds);
    hide SpawnedFor, ListOk, TopicsOf, Collected;
    forall t | t in w'.topicWave
      ensures ScanId(w'.topicWave[t], t.kind) in scans' && t in w'.epochs
              && Add(t, w'.epochs[t].floor) in scans'[ScanId(w'.topicWave[t], t.kind)].adds
    {
      if t in limbo { ListedAdd(w, groupAdds, welcomeAdds, limbo, t); }
    }
  }

  /** Every wave counts its scans and lists its topics, the new one included. */
  lemma StartedWaveScans(w: State, scans: map<ScanId, Scan>, mutateId: nat, groupAdds: seq<Add>,
                         welcomeAdds: seq<Add>, limbo: set<Topic>)
    requires WaveScans(w, scans) && (forall id :: id in scans ==> id.wave < w.nextWave)
    requires (forall u :: u in w.waves ==> u < w.nextWave)
    requires forall t :: t in limbo ==> t in w.epochs
    requires Enumerates(Collected(groupAdds, welcomeAdds), limbo)
    requires ListOk(w, groupAdds, Group, limbo) && ListOk(w, welcomeAdds, Welcome, limbo)
    ensures WaveScans(StartWave(w, mutateId, groupAdds, welcomeAdds),
                      SpawnedFor(scans, w.nextWave, groupAdds, welcomeAdds))
  {
    hide StartWave, SpawnedFor, ListOk, Enumerates, Collected;
    var w' := StartWave(w, mutateId, groupAdds, welcomeAdds);
    var scans' := SpawnedFor(scans, w.nextWave, groupAdds, welcomeAdds);
    StartFields(w, mutateId, groupAdds, welcomeAdds);
    StartedCounts(w, w', w.nextWave, scans, scans', groupAdds, welcomeAdds);
    StartedLists(w, w', w.nextWave, scans, scans', groupAdds, welcomeAdds, limbo);
  }

  lemma {:induction false} ListedTopic(adds: seq<Add>, t: Topic)
    requires t in TopicsOf(adds)
    ensures exists x :: x in adds && x.topic == t
  {
    TopicsOfMember(adds);
    var i :| 0 <= i < |adds| && TopicsOf(adds)[i] == t;
    assert adds[i] in adds;
  }

  lemma ListedAdd(w: State, groupAdds: seq<Add>, welcomeAdds: seq<Add>, limbo: set<Topic>, t: Topic)
    requires Enumerates(Collected(groupAdds, welcomeAdds), limbo) && t in limbo && t in w.epochs
    requires ListOk(w, groupAdds, Group, limbo) && ListOk(w, welcomeAdds, Welcome, limbo)
    ensures Add(t, w.epochs[t].floor) in if t.kind == Group then groupAdds else welcomeAdds
    ensures (if t.kind == Group then groupAdds else welcomeAdds) != []
  {
    assert t in TopicsOf(groupAdds) || t in TopicsOf(welcomeAdds);
    if t in TopicsOf(groupAdds) {
      ListedTopic(groupAdds, t);
      var x :| x in groupAdds && x.topic == t;
      assert x == Add(t, w.epochs[t].floor);
    } else {
      ListedTopic(welcomeAdds, t);
      var x :| x in welcomeAdds && x.topic == t;
      assert x == Add(t, w.epochs[t].floor);
    }
  }

  /** A topic fresh in its wave: nothing delivered, nothing in flight, its queue untouched. */
  lemma FreshView(s: Sys, s': Sys, w: State, t: Topic)
    requires EnvOk(s) && QueueOk(s) && LimboTopic(w, t)
    requires s' == s.(w := s'.w, scans := s'.scans, stale := s'.stale)
    requires s'.w.out == w.out && SliceOf(s'.w, t) == SliceOf(w, t).(wave := Some(s.w.nextWave))
    requires forall b :: b in s.lane ==> b.wave != s.w.nextWave
    requires ScanId(s.w.nextWave, t.kind) in s'.scans && !s'.scans[ScanId(s.w.nextWave, t.kind)].started
    requires SliceOf(w, t).sub || Harmless(Table(s, t.kind), t, SliceOf(w, t).floor, Proj(s.queue, t))
    ensures V.ViewOk(ViewOf(s', t), t)
  {
    HarmlessQueue(s, t, SliceOf(w, t).floor);
    NothingYet(s.lane, s.w.nextWave, t);
    hide DeliveredSince, InLane, Position, Proj, SliceOf, QueueOk, Harmless, V.ViewOk;
    V.Fresh(ViewOf(s', t), t);
  }

  lemma HarmlessQueue(s: Sys, t: Topic, floor: nat)
    requires EnvOk(s) && QueueOk(s)
    ensures Ascending(Proj(s.queue, t)) && V.FromTable(Table(s, t.kind), t, Seen(s, t.kind), Proj(s.queue, t))
    ensures var q := Proj(s.queue, t);
            Harmless(Table(s, t.kind), t, floor, q) <==> V.Covers(Table(s, t.kind), t, floor, LastId(q, 0), q)
  {
    assert V.FromTable(Table(s, t.kind), t, Seen(s, t.kind), Proj(s.queue, t));
    V.SkipsNothing(Table(s, t.kind), t, floor, Seen(s, t.kind), Proj(s.queue, t));
  }

  lemma {:induction false} NothingYet(lane: seq<Batch>, v: nat, t: Topic)
    requires forall b :: b in lane ==> b.wave != v
    ensures InLane(lane, v, t) == []
  {
    if lane != [] {
      assert lane == [lane[0]] + lane[1..];
      NothingYet(lane[1..], v, t);
    }
  }

  /** Starting a wave leaves the views of other topics alone. */
  lemma OldView(s: Sys, s': Sys, w: State, t: Topic)
    requires s' == s.(w := s'.w, scans := s'.scans, stale := s'.stale)
    requires s'.w.out == w.out && SliceOf(s'.w, t) == SliceOf(w, t)
    requires t in w.topicWave ==> w.topicWave[t] < s.w.nextWave
    requires forall id :: id in s.scans ==> id in s'.scans && s'.scans[id] == s.scans[id]
    requires forall id :: id in s'.scans && id !in s.scans ==> id.wave == s.w.nextWave
    ensures ViewOf(s', t) == ViewOf(s.(w := w), t)
  {
    hide DeliveredSince, InLane, Position, Proj;
  }

  lemma StartedTopicOk(s: Sys, w: State, mutateId: nat, groupAdds: seq<Add>, welcomeAdds: seq<Add>,
                       limbo: set<Topic>, t: Topic)
    requires EnvOk(s) && QueueOk(s) && ScansOk(s) && LaneOk(s.lane, s.scans) && w.nextWave == s.w.nextWave
    requires TopicsOk(s.(w := w), limbo) && StaleOk(s.(w := w), limbo) && Limbo(w, limbo)
    requires forall x :: x in w.topicWave ==> w.topicWave[x] < w.nextWave
    requires forall x :: x in limbo ==> x !in w.topicWave && x in w.epochs
    requires Enumerates(Collected(groupAdds, welcomeAdds), limbo)
    requires ListOk(w, groupAdds, Group, limbo) && ListOk(w, welcomeAdds, Welcome, limbo)
    requires t in w.epochs
    ensures TopicOk(Started(s, w, mutateId, groupAdds, welcomeAdds), t)
  {
    var s' := Started(s, w, mutateId, groupAdds, welcomeAdds);
    StartFields(w, mutateId, groupAdds, welcomeAdds);
    StartedIs(s, w, mutateId, groupAdds, welcomeAdds);
    ScanWaves(s);
    SpawnedFacts(s.scans, w.nextWave, groupAdds, welcomeAdds);
    StartSlice(w, mutateId, groupAdds, welcomeAdds, t);
    StaleIs(s, s'.w, t);
    hide Started, StartWave, SpawnedFor, ListOk, ScansOk, EnvOk, QueueOk, ViewOf, V.ViewOk, Collected, StaleAfter,
         Proj, DeliveredSince;
    if t in limbo {
      ListedAdd(w, groupAdds, welcomeAdds, limbo, t);
      assert LimboTopic(w, t);
      StartedSame(s, w, mutateId, groupAdds, welcomeAdds);
      if t in w.subscribed || Harmless(Table(s, t.kind), t, SliceOf(w, t).floor, Proj(s.queue, t)) {
        LaneWaves(s);
        FreshView(s, s', w, t);
      }
    } else {
      assert TopicOk(s.(w := w), t);
      StartedSame(s, w, mutateId, groupAdds, welcomeAdds);
      OldView(s, s', w, t);
    }
  }

  lemma ScanWaves(s: Sys)
    requires ScansOk(s)
    ensures forall id :: id in s.scans ==> id.wave < s.w.nextWave
  {
  }

  lemma LaneWaves(s: Sys)
    requires ScansOk(s) && LaneOk(s.lane, s.scans)
    ensures forall b :: b in s.lane ==> b.wave != s.w.nextWave
  {
    forall b | b in s.lane ensures b.wave != s.w.nextWave { assert BatchOk(b, s.scans); }
  }

  lemma StaleIs(s: Sys, w: State, t: Topic)
    ensures t in StaleAfter(s, w) <==>
            t in w.topicWave && t !in w.subscribed &&
            (if w.topicWave[t] == s.w.nextWave
             then !Harmless(Table(s, t.kind), t, SliceOf(w, t).floor, Proj(s.queue, t))
             else t in s.stale)
  {
  }

  lemma StartedSame(s: Sys, w: State, mutateId: nat, groupAdds: seq<Add>, welcomeAdds: seq<Add>)
    ensures var s' := Started(s, w, mutateId, groupAdds, welcomeAdds);
            s' == s.(w := s'.w, scans := s'.scans, stale := s'.stale) && s'.stale == StaleAfter(s, s'.w)
  {
  }

  lemma StartedStale(s: Sys, w: State)
    ensures StaleOk(s.(w := w, stale := StaleAfter(s, w)), {})
  {
  }

  lemma MidParts(s: Sys, w: State, limbo: set<Topic>, newlyLive: nat, mutateId: nat)
    requires Mid(s, w, limbo, newlyLive, mutateId)
    ensures Book(w, limbo, newlyLive) && TopicsOk(s.(w := w), limbo) && WaveScans(w, s.scans)
    ensures StaleOk(s.(w := w), limbo) && w.nextWave == s.w.nextWave && !InFlight(w, mutateId) && Limbo(w, limbo)
    ensures forall v :: v in w.waves ==> v < w.nextWave
    ensures forall x :: x in w.topicWave ==> w.topicWave[x] < w.nextWave
    ensures forall x :: x in limbo ==> x !in w.topicWave && x in w.epochs
  {
  }

  lemma InvStarted(s: Sys, a: Adding, mutateId: nat, limbo: set<Topic>)
    requires EnvOk(s) && QueueOk(s) && ScansOk(s) && LaneOk(s.lane, s.scans)
    requires AddingMid(s, a, limbo, mutateId) && a.newlyLive == 0 && mutateId != 0
    requires |a.groupAdds| + |a.welcomeAdds| > 0
    ensures Inv(Started(s, a.s, mutateId, a.groupAdds, a.welcomeAdds))
  {
    var w, gs, ws := a.s, a.groupAdds, a.welcomeAdds;
    var s' := Started(s, w, mutateId, gs, ws);
    MidParts(s, w, limbo, 0, mutateId);
    ScanWaves(s);
    StartedIs(s, w, mutateId, gs, ws);
    StartedSame(s, w, mutateId, gs, ws);
    SpawnedFacts(s.scans, w.nextWave, gs, ws);
    StartFields(w, mutateId, gs, ws);
    hide Mid, EnvOk, QueueOk, Book, LaneOk, WaveScans, TopicsOk, ScansOk, StaleOk, Limbo, InFlight, Started,
         StartWave, SpawnedFor, ListOk, Enumerates, Collected, StaleAfter, TopicOk;
    StartBook(w, mutateId, gs, ws, limbo);
    StartedWaveScans(w, s.scans, mutateId, gs, ws, limbo);
    SpawnedScansOk(s, s', w, gs, ws, limbo);
    SpawnedLane(s.lane, s.scans, s'.scans);
    StartedTopics(s, w, mutateId, gs, ws, limbo);
    StartedStale(s, s'.w);
    StartedRest(s, s');
  }

  lemma StartedRest(s: Sys, s': Sys)
    requires EnvOk(s) && QueueOk(s) && StaleOk(s.(w := s'.w, stale := s'.stale), {})
    requires s' == s.(w := s'.w, scans := s'.scans, stale := s'.stale)
    ensures EnvOk(s') && QueueOk(s') && StaleOk(s', {}) && s'.lane == s.lane
  {
    hide Proj;
    forall t: Topic
      ensures Ascending(Proj(s'.queue, t))
      ensures V.FromTable(Table(s', t.kind), t, Seen(s', t.kind), Proj(s'.queue, t)) {
      assert V.FromTable(Table(s, t.kind), t, Seen(s, t.kind), Proj(s.queue, t));
    }
  }

  lemma StartedTopics(s: Sys, w: State, mutateId: nat, groupAdds: seq<Add>, welcomeAdds: seq<Add>, limbo: set<Topic>)
    requires EnvOk(s) && QueueOk(s) && ScansOk(s) && LaneOk(s.lane, s.scans) && w.nextWave == s.w.nextWave
    requires TopicsOk(s.(w := w), limbo) && StaleOk(s.(w := w), limbo) && Limbo(w, limbo)
    requires forall x :: x in w.topicWave ==> w.topicWave[x] < w.nextWave
    requires forall x :: x in limbo ==> x !in w.topicWave && x in w.epochs
    requires Enumerates(Collected(groupAdds, welcomeAdds), limbo)
    requires ListOk(w, groupAdds, Group, limbo) && ListOk(w, welcomeAdds, Welcome, limbo)
    ensures TopicsOk(Started(s, w, mutateId, groupAdds, welcomeAdds), {})
  {
    StartFields(w, mutateId, groupAdds, welcomeAdds);
    StartedIs(s, w, mutateId, groupAdds, welcomeAdds);
    hide EnvOk, QueueOk, LaneOk, ScansOk, Started, StartWave, Limbo, StaleOk, TopicOk, ListOk, Enumerates, Collected;
    var s' := Started(s, w, mutateId, groupAdds, welcomeAdds);
    forall t | t in s'.w.epochs ensures TopicOk(s', t) {
      StartedTopicOk(s, w, mutateId, groupAdds, welcomeAdds, limbo, t);
    }
  }

  // ----- the whole Mutate -----

  lemma CountedMid(s: Sys, w: State, limbo: set<Topic>, newlyLive: nat, mutateId: nat)
    requires Mid(s, w, limbo, newlyLive, mutateId)
    ensures Mid(s, Counted(w, newlyLive), limbo, 0, mutateId)
    ensures forall t :: SliceOf(Counted(w, newlyLive), t) == SliceOf(w, t)
  {
    var w' := Counted(w, newlyLive);
    hide TopicsOk, WaveScans, StaleOk, InFlight, Limbo, Book;
    CountedBook(w, limbo, newlyLive);
    WriterSteps.WaveScansSame(w, w', s.scans);
    CountedRest(s, w, limbo, newlyLive, mutateId);
    CountedTopics(s, w, limbo, newlyLive);
  }

  lemma CountedRest(s: Sys, w: State, limbo: set<Topic>, newlyLive: nat, mutateId: nat)
    requires StaleOk(s.(w := w), limbo) && !InFlight(w, mutateId) && Limbo(w, limbo)
    ensures var w' := Counted(w, newlyLive); StaleOk(s.(w := w'), limbo) && !InFlight(w', mutateId) && Limbo(w', limbo)
    ensures forall t :: SliceOf(Counted(w, newlyLive), t) == SliceOf(w, t)
  {
    var w' := Counted(w, newlyLive);
    hide DeliveredSince;
    assert forall t :: SliceOf(w', t) == SliceOf(w, t);
    hide SliceOf;
    forall t | t in limbo ensures LimboTopic(w', t) { assert LimboTopic(w, t); }
  }

  lemma CountedTopics(s: Sys, w: State, limbo: set<Topic>, newlyLive: nat)
    requires TopicsOk(s.(w := w), limbo)
    ensures TopicsOk(s.(w := Counted(w, newlyLive)), limbo)
  {
    var w' := Counted(w, newlyLive);
    hide ViewOf, V.ViewOk, DeliveredSince;
    forall t | t in w'.epochs && t !in limbo ensures TopicOk(s.(w := w'), t) {
      assert TopicOk(s.(w := w), t);
      DropView(s, w, w', t);
    }
  }

  /** A Mutate that registers nothing is answered at once. */
  function Answered(s: Sys, w: State, mutateId: nat): Sys {
    var w' := w.(out := w.out + [CatchupComplete(mutateId)]);
    s.(w := w', stale := StaleAfter(s, w'))
  }

  lemma AnsweredBook(w: State, mutateId: nat)
    requires Book(w, {}, 0)
    ensures Book(w.(out := w.out + [CatchupComplete(mutateId)]), {}, 0)
  {
  }

  lemma AnsweredTopicOk(s: Sys, w: State, mutateId: nat, t: Topic)
    requires TopicOk(s.(w := w), t) && t in w.epochs && StaleOk(s.(w := w), {})
    requires forall x :: x in w.topicWave ==> w.topicWave[x] < s.w.nextWave
    ensures TopicOk(Answered(s, w, mutateId), t)
  {
    var w' := w.(out := w.out + [CatchupComplete(mutateId)]);
    var start := SliceOf(w, t).start;
    DeliveredSilent(w.out, CatchupComplete(mutateId), start, t);
    StaleIs(s, w', t);
    assert SliceOf(w', t) == SliceOf(w, t);
    hide V.ViewOk, DeliveredSince, SliceOf, StaleAfter, ViewOf, Answered;
    AnsweredSame(s, w, mutateId);
    DropView(s, w, w', t);
    AnsweredView(s, w, mutateId, t);
  }

  lemma AnsweredView(s: Sys, w: State, mutateId: nat, t: Topic)
    ensures ViewOf(Answered(s, w, mutateId), t) == ViewOf(s.(w := w.(out := w.out + [CatchupComplete(mutateId)])), t)
  {
    hide DeliveredSince, InLane, Position, Proj, StaleAfter;
  }

  lemma AnsweredTopics(s: Sys, w: State, mutateId: nat)
    requires TopicsOk(s.(w := w), {}) && StaleOk(s.(w := w), {})
    requires forall x :: x in w.topicWave ==> w.topicWave[x] < s.w.nextWave
    ensures TopicsOk(Answered(s, w, mutateId), {})
  {
    hide TopicOk, StaleOk, StaleAfter;
    forall t | t in w.epochs ensures TopicOk(Answered(s, w, mutateId), t) {
      AnsweredTopicOk(s, w, mutateId, t);
    }
  }

  lemma InvAnswered(s: Sys, w: State, mutateId: nat)
    requires EnvOk(s) && QueueOk(s) && ScansOk(s) && LaneOk(s.lane, s.scans)
    requires Mid(s, w, {}, 0, mutateId)
    ensures Inv(Answered(s, w, mutateId))
  {
    var s' := Answered(s, w, mutateId);
    MidParts(s, w, {}, 0, mutateId);
    AnsweredSame(s, w, mutateId);
    hide Mid, EnvOk, QueueOk, Book, LaneOk, WaveScans, TopicsOk, ScansOk, StaleOk, Limbo, InFlight, StaleAfter,
         Answered;
    AnsweredBook(w, mutateId);
    WriterSteps.WaveScansSame(w, s'.w, s.scans);
    AnsweredTopics(s, w, mutateId);
    StartedStale(s, s'.w);
    StartedRest(s, s');
    ScansSame(s, s');
  }

  lemma AnsweredSame(s: Sys, w: State, mutateId: nat)
    ensures var s' := Answered(s, w, mutateId);
            && s' == s.(w := s'.w, scans := s'.scans, stale := s'.stale)
            && s'.stale == StaleAfter(s, s'.w) && s'.scans == s.scans
            && s'.w == w.(out := w.out + [CatchupComplete(mutateId)])
  {
  }

  /** Running the removes and the adds of an accepted Mutate. */
  lemma RunMid(cfg: Config, s: Sys, m: MutateReq) returns (limbo: set<Topic>)
    requires Inv(s) && Mutate(cfg, s.w, m).verdict == Continue
    requires ParseAdds(Parsed([], map[]), m.adds).Some? && DropAll(s.w, m.removes).1 == Continue
    requires RunAdds(s.w, m).1 == Continue
    ensures AddingMid(s, RunAdds(s.w, m).0, limbo, m.mutateId)
  {
    var p0 := Parsed([], map[]);
    var p := ParseAdds(p0, m.adds).value;
    NotInFlight(cfg, s, m);
    hide Mutate;
    ParseKeepsOrder(p0, m.adds);
    ParseDistinct(p0, m.adds);
    hide Inv, Mid, Lists, DropAll, AddAll, ParseAdds, InFlight;
    var a0 := Adding(DropAll(s.w, m.removes).0, [], [], 0);
    MidStart(s, m.mutateId);
    DropAllMid(s, s.w, m.removes, m.mutateId);
    ListsStart(a0);
    limbo := AddAllMid(s, a0, p.order, p.cursors, m.mutateId, m.historyOnly, {});
  }

  lemma MutateRuns(world: World, s: Sys, m: MutateReq) returns (a: Adding, limbo: set<Topic>)
    requires Inv(s) && Mutate(world.cfg, s.w, m).verdict == Continue
    ensures AddingMid(s, a, limbo, m.mutateId)
    ensures |a.groupAdds| + |a.welcomeAdds| > 0 ==> m.mutateId != 0
    ensures var w := Counted(a.s, a.newlyLive);
            Mutate(world.cfg, s.w, m) ==
              if |a.groupAdds| + |a.welcomeAdds| > 0 then
                Mutated(StartWave(w, m.mutateId, a.groupAdds, a.welcomeAdds), Continue, w.nextWave, a.groupAdds,
                        a.welcomeAdds)
              else Mutated(w.(out := w.out + [CatchupComplete(m.mutateId)]), Continue, 0, [], [])
  {
    hide Inv, AddingMid, Mutate, DropAll, AddAll, ParseAdds, StartWave, RunAdds;
    MutateUnfolds(world.cfg, s.w, m);
    limbo := RunMid(world.cfg, s, m);
    a := RunAdds(s.w, m).0;
    if m.adds == [] { NoAdds(s.w, m); }
  }

  lemma NotInFlight(cfg: Config, s: Sys, m: MutateReq)
    requires Inv(s) && Mutate(cfg, s.w, m).verdict == Continue
    ensures !InFlight(s.w, m.mutateId)
  {
    assert Ids(s.w);
  }

  lemma MidStart(s: Sys, mutateId: nat)
    requires Inv(s) && !InFlight(s.w, mutateId)
    ensures Mid(s, s.w, {}, 0, mutateId)
  {
    assert s.(w := s.w) == s;
  }

  lemma ListsStart(a: Adding)
    requires a.groupAdds == [] && a.welcomeAdds == []
    ensures Lists(a, {})
  {
  }

  lemma CountedLists(a: Adding, limbo: set<Topic>)
    requires Lists(a, limbo)
    ensures Lists(a.(s := Counted(a.s, a.newlyLive), newlyLive := 0), limbo)
  {
    assert forall t :: SliceOf(Counted(a.s, a.newlyLive), t) == SliceOf(a.s, t);
    hide SliceOf;
  }

  lemma MutateIs(world: World, s: Sys, m: MutateReq)
    requires Enabled(world, s, WriterMutate(m))
    ensures var r := Mutate(world.cfg, s.w, m);
            Apply(world, s, WriterMutate(m)) ==
            s.(w := r.s, ended := r.verdict != Continue, scans := Spawned(s.scans, r), stale := StaleAfter(s, r.s))
  {
  }

  lemma InvMutate(world: World, s: Sys, m: MutateReq)
    requires Inv(s) && Enabled(world, s, WriterMutate(m))
    requires Mutate(world.cfg, s.w, m).verdict == Continue
    ensures Inv(Apply(world, s, WriterMutate(m)))
  {
    hide Inv, Apply, Mutate, Mid, Lists, LimboTopic, EnvOk, QueueOk, ScansOk, LaneOk, StartWave, Book, WaveScans,
         TopicsOk, StaleOk;
    var a, limbo := MutateRuns(world, s, m);
    var w := Counted(a.s, a.newlyLive);
    SurroundingsOf(s);
    CountedMid(s, a.s, limbo, a.newlyLive, m.mutateId);
    CountedLists(a, limbo);
    MutateIs(world, s, m);
    if |a.groupAdds| + |a.welcomeAdds| > 0 {
      InvStarted(s, a.(s := w, newlyLive := 0), m.mutateId, limbo);
      assert Apply(world, s, WriterMutate(m)) == Started(s, w, m.mutateId, a.groupAdds, a.welcomeAdds);
    } else {
      NothingInLimbo(a, limbo);
      InvAnswered(s, w, m.mutateId);
      assert Apply(world, s, WriterMutate(m)) == Answered(s, w, m.mutateId);
    }
  }

  lemma SurroundingsOf(s: Sys)
    requires Inv(s)
    ensures EnvOk(s) && QueueOk(s) && ScansOk(s) && LaneOk(s.lane, s.scans)
  {
  }

  lemma NothingInLimbo(a: Adding, limbo: set<Topic>)
    requires Lists(a, limbo) && |a.groupAdds| + |a.welcomeAdds| == 0
    ensures limbo == {}
  {
    hide ListOk;
    assert Collected(a.groupAdds, a.welcomeAdds) == [];
  }
}
