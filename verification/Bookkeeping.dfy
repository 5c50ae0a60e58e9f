/** The writer's bookkeeping invariant and its preservation by every writer step. */
module Bookkeeping {
  import opened Rows
  import opened WaveScan
  import opened Fetcher
  import opened Frames
  import opened Writer

  /** The topics a wave still owns. */
  function Owners(topicWave: map<Topic, nat>, v: nat): set<Topic> {
    set t | t in topicWave && topicWave[t] == v
  }

  /** Bytes of all buffered live messages. */
  ghost function HeldBytes(pending: map<Topic, seq<Row>>): nat {
    if pending == map[] then 0
    else
      var t :| t in pending;
      WireBytes(pending[t]) + HeldBytes(pending - {t})
  }

  lemma {:induction false} HeldBytesRemove(pending: map<Topic, seq<Row>>, t: Topic)
    requires t in pending
    ensures HeldBytes(pending) == WireBytes(pending[t]) + HeldBytes(pending - {t})
    decreases |pending|
  {
    var u :| u in pending && HeldBytes(pending) == WireBytes(pending[u]) + HeldBytes(pending - {u});
    if u != t {
      HeldBytesRemove(pending - {u}, t);
      HeldBytesRemove(pending - {t}, u);
      assert pending - {u} - {t} == pending - {t} - {u};
    }
  }

  lemma HeldBytesPut(pending: map<Topic, seq<Row>>, t: Topic, rows: seq<Row>)
    ensures HeldBytes(pending[t := rows]) == HeldBytes(pending - {t}) + WireBytes(rows)
  {
    HeldBytesRemove(pending[t := rows], t);
    assert pending[t := rows] - {t} == pending - {t};
  }

  lemma {:induction false} WireBytesSnoc(rows: seq<Row>, r: Row)
    ensures WireBytes(rows + [r]) == WireBytes(rows) + r.wire
  {
    if rows == [] {
      assert rows + [r] == [r] && [r][1..] == [];
    } else {
      assert (rows + [r])[1..] == rows[1..] + [r];
      WireBytesSnoc(rows[1..], r);
    }
  }

  /** The dispatcher's topic set is `subscribed`, gated topics are subscribed, only gated topics
      buffer anything, and the buffer's byte count is exact. `newlyLive` topics of a Mutate in
      progress are not on the gauge yet. */
  ghost predicate Gauges(s: State, newlyLive: nat) {
    && s.live == s.subscribed
    && |s.subscribed| == s.subscribedTopics + newlyLive
    && s.catchingUp <= s.subscribed
    && s.pending.Keys <= s.catchingUp
    && s.pendingBytes == HeldBytes(s.pending)
    && (forall t, r :: t in s.pending && r in s.pending[t] ==> r.topic == t)
  }

  /** A mapped topic's wave is active and lists it; a wave owns at least one topic and counts
      its topics exactly. */
  ghost predicate Waves(s: State) {
    && (forall t :: t in s.topicWave ==> s.topicWave[t] in s.waves && t in s.waves[s.topicWave[t]].topics)
    && (forall v :: v in s.waves ==>
          v < s.nextWave && s.waves[v].owned == |Owners(s.topicWave, v)| && s.waves[v].owned > 0)
  }

  /** In-flight waves carry pairwise distinct nonzero mutate_ids. */
  ghost predicate Ids(s: State) {
    && (forall v :: v in s.waves ==> s.waves[v].mutateId != 0)
    && (forall u, v :: u in s.waves && v in s.waves && s.waves[u].mutateId == s.waves[v].mutateId ==> u == v)
  }

  /** A subscribed topic is gated exactly while a wave owns it. `limbo` holds the topics a
      Mutate in progress has registered and not yet given to its wave. */
  ghost predicate Gates(s: State, limbo: set<Topic>) {
    && (forall t :: t in s.subscribed ==> (t in s.catchingUp <==> t in s.topicWave || t in limbo))
    && (forall t :: t in limbo ==> t !in s.topicWave)
    && (forall t :: t in s.epochs <==> t in s.subscribed || t in s.topicWave || t in limbo)
  }

  ghost predicate Book(s: State, limbo: set<Topic>, newlyLive: nat) {
    Gauges(s, newlyLive) && Waves(s) && Ids(s) && Gates(s, limbo)
  }

  lemma InitBook()
    ensures Book(Init, {}, 0)
  {
  }

  // ----- dropTopic -----

  lemma SilenceGauges(s: State, t: Topic, newlyLive: nat)
    requires Gauges(s, newlyLive)
    ensures Gauges(Silence(s, t), newlyLive)
  {
    hide HeldBytes, WireBytes;
    RemoveSize(s.subscribed, t);
    if t in s.catchingUp {
      PendingSilenced(s, t);
    } else {
      assert t !in s.pending.Keys;
      assert s.catchingUp - {t} == s.catchingUp;
    }
  }

  lemma PendingSilenced(s: State, t: Topic)
    ensures HeldBytes(s.pending - {t}) == HeldBytes(s.pending) - WireBytes(PendingOf(s, t))
  {
    if t in s.pending {
      HeldBytesRemove(s.pending, t);
    } else {
      assert s.pending - {t} == s.pending;
    }
  }

  lemma RemoveSize(a: set<Topic>, t: Topic)
    ensures |a - {t}| == if t in a then |a| - 1 else |a|
  {
    if t !in a { assert a - {t} == a; }
  }

  lemma OwnersDrop(topicWave: map<Topic, nat>, t: Topic, v: nat)
    ensures Owners(topicWave - {t}, v) == Owners(topicWave, v) - {t}
    ensures |Owners(topicWave - {t}, v)| ==
            |Owners(topicWave, v)| - (if t in topicWave && topicWave[t] == v then 1 else 0)
  {
    assert Owners(topicWave - {t}, v) == Owners(topicWave, v) - {t};
  }

  lemma DisownWaves(s: State, t: Topic)
    requires Waves(s)
    ensures Waves(Disown(s, t))
  {
    if t in s.topicWave {
      var v, s' := s.topicWave[t], Disown(s, t);
      DisownCounts(s, t);
      hide Owners;
      forall x | x in s'.topicWave
        ensures s'.topicWave[x] in s'.waves && x in s'.waves[s'.topicWave[x]].topics
      {
        if s.topicWave[x] == v { LastOwner(s.topicWave, t, x); }
      }
    }
  }

  lemma DisownCounts(s: State, t: Topic)
    requires Waves(s)
    ensures var d := Disown(s, t);
            forall v :: v in d.waves ==>
              v < d.nextWave && d.waves[v].owned == |Owners(d.topicWave, v)| && d.waves[v].owned > 0
  {
    hide Owners;
    var d := Disown(s, t);
    if t in s.topicWave {
      forall v | v in d.waves
        ensures v < d.nextWave && d.waves[v].owned == |Owners(d.topicWave, v)| && d.waves[v].owned > 0 {
        OwnersDrop(s.topicWave, t, v);
      }
    }
  }

  lemma LastOwner(topicWave: map<Topic, nat>, t: Topic, x: Topic)
    requires t in topicWave && x in topicWave && x != t && topicWave[x] == topicWave[t]
    ensures |Owners(topicWave, topicWave[t])| >= 2
  {
    assert {t, x} <= Owners(topicWave, topicWave[t]);
    SubsetSize({t, x}, Owners(topicWave, topicWave[t]));
  }

  lemma SubsetSize(a: set<Topic>, b: set<Topic>)
    requires a <= b
    ensures |a| <= |b|
  {
    if a != {} {
      var x :| x in a;
      SubsetSize(a - {x}, b - {x});
    }
  }

  /** What dropTopic changes, field by field. */
  lemma SilenceFields(s: State, t: Topic)
    ensures var d := Silence(s, t);
            && d.subscribed == s.subscribed - {t} && d.live == s.live - {t} && d.catchingUp == s.catchingUp - {t}
            && d.epochs == s.epochs - {t} && d.highWater == s.highWater - {t}
            && d.pending == (if t in s.catchingUp then s.pending - {t} else s.pending)
            && d.topicWave == s.topicWave && d.nextWave == s.nextWave && d.halfClosed == s.halfClosed
            && d.out == s.out && d.waves == s.waves
  {
    assert t !in s.catchingUp ==> s.catchingUp - {t} == s.catchingUp;
  }

  lemma DisownFields(s: State, t: Topic)
    ensures var d := Disown(s, t);
            && d.topicWave == s.topicWave - {t}
            && d == s.(topicWave := d.topicWave, waves := d.waves, out := d.out)
            && (d.out == s.out || exists m :: d.out == s.out + [CatchupComplete(m)])
  {
    assert t !in s.topicWave ==> s.topicWave - {t} == s.topicWave;
  }

  lemma DisownKeeps(s: State, t: Topic)
    ensures forall v :: v in Disown(s, t).waves ==>
              && v in s.waves && Disown(s, t).waves[v].mutateId == s.waves[v].mutateId
              && Disown(s, t).waves[v].topics == s.waves[v].topics
              && Disown(s, t).waves[v].scansLeft == s.waves[v].scansLeft
  {
  }

  lemma DropFields(s: State, t: Topic)
    ensures var d := DropTopic(s, t);
            && d.subscribed == s.subscribed - {t} && d.live == s.live - {t} && d.catchingUp == s.catchingUp - {t}
            && d.epochs == s.epochs - {t} && d.topicWave == s.topicWave - {t} && d.highWater == s.highWater - {t}
            && d.pending == (if t in s.catchingUp then s.pending - {t} else s.pending)
            && d.nextWave == s.nextWave && d.halfClosed == s.halfClosed
            && (d.out == s.out || exists m :: d.out == s.out + [CatchupComplete(m)])
            && (forall v :: v in d.waves ==> v in s.waves && d.waves[v].mutateId == s.waves[v].mutateId
                                             && d.waves[v].topics == s.waves[v].topics
                                             && d.waves[v].scansLeft == s.waves[v].scansLeft)
  {
    hide Silence, Disown;
    SilenceFields(s, t);
    DisownFields(Silence(s, t), t);
    DisownKeeps(Silence(s, t), t);
  }

  lemma GatesDropped(s: State, d: State, t: Topic, limbo: set<Topic>)
    requires Gates(s, limbo) && t !in limbo
    requires d.subscribed == s.subscribed - {t} && d.catchingUp == s.catchingUp - {t}
    requires d.epochs == s.epochs - {t} && d.topicWave == s.topicWave - {t}
    ensures Gates(d, limbo)
  {
  }

  lemma GaugesSame(s: State, d: State, newlyLive: nat)
    requires Gauges(s, newlyLive)
    requires d.live == s.live && d.subscribed == s.subscribed && d.subscribedTopics == s.subscribedTopics
    requires d.catchingUp == s.catchingUp && d.pending == s.pending && d.pendingBytes == s.pendingBytes
    ensures Gauges(d, newlyLive)
  {
  }

  lemma DisownSame(s: State, t: Topic)
    ensures var d := Disown(s, t);
            && d.live == s.live && d.subscribed == s.subscribed && d.subscribedTopics == s.subscribedTopics
            && d.catchingUp == s.catchingUp && d.pending == s.pending && d.pendingBytes == s.pendingBytes
  {
    hide Disown;
    DisownFields(s, t);
  }

  lemma IdsKept(s: State, d: State)
    requires Ids(s)
    requires forall v :: v in d.waves ==> v in s.waves && d.waves[v].mutateId == s.waves[v].mutateId
    ensures Ids(d)
  {
  }

  lemma DropBook(s: State, t: Topic, limbo: set<Topic>, newlyLive: nat)
    requires Book(s, limbo, newlyLive) && t !in limbo
    ensures Book(DropTopic(s, t), limbo, newlyLive)
  {
    hide Gauges, Waves, Ids, Gates;
    var s1 := Silence(s, t);
    SilenceGauges(s, t, newlyLive);
    DisownSame(s1, t);
    GaugesSame(s1, Disown(s1, t), newlyLive);
    WavesSame(s, s1);
    DisownWaves(s1, t);
    DropFields(s, t);
    GatesDropped(s, DropTopic(s, t), t, limbo);
    IdsKept(s, DropTopic(s, t));
  }

  lemma WavesSame(s: State, d: State)
    requires Waves(s) && d.waves == s.waves && d.topicWave == s.topicWave && d.nextWave == s.nextWave
    ensures Waves(d)
  {
  }

  // ----- registering and starting a wave -----

  lemma RegisterBook(s: State, t: Topic, cursor: nat, mutateId: nat, historyOnly: bool, limbo: set<Topic>,
                     newlyLive: nat)
    requires Book(s, limbo, newlyLive) && t !in s.subscribed && t !in s.topicWave && t !in limbo
    ensures Book(Register(s, t, cursor, mutateId, historyOnly), limbo + {t},
                 if historyOnly then newlyLive else newlyLive + 1)
  {
  }

  lemma {:induction false} TopicsOfMember(adds: seq<Add>)
    ensures |TopicsOf(adds)| == |adds|
    ensures forall i :: 0 <= i < |adds| ==> TopicsOf(adds)[i] == adds[i].topic
  {
    if adds != [] { TopicsOfMember(adds[1..]); }
  }

  /** The topics a Mutate in progress has collected. */
  function Collected(groupAdds: seq<Add>, welcomeAdds: seq<Add>): seq<Topic> {
    TopicsOf(groupAdds) + TopicsOf(welcomeAdds)
  }

  ghost predicate Enumerates(topics: seq<Topic>, limbo: set<Topic>) {
    && (forall t :: t in topics <==> t in limbo)
    && |topics| == |limbo|
  }

  lemma StartBook(s: State, mutateId: nat, groupAdds: seq<Add>, welcomeAdds: seq<Add>, limbo: set<Topic>)
    requires Book(s, limbo, 0) && Enumerates(Collected(groupAdds, welcomeAdds), limbo)
    requires |groupAdds| + |welcomeAdds| > 0 && mutateId != 0 && !InFlight(s, mutateId)
    ensures Book(StartWave(s, mutateId, groupAdds, welcomeAdds), {}, 0)
  {
    hide Gauges, Waves, Ids, Gates, Enumerates, Collected, InFlight;
    var s' := StartWave(s, mutateId, groupAdds, welcomeAdds);
    GaugesSame(s, s', 0);
    StartGates(s, mutateId, groupAdds, welcomeAdds, limbo);
    StartWaves(s, mutateId, groupAdds, welcomeAdds, limbo);
    StartIds(s, mutateId, groupAdds, welcomeAdds);
  }

  lemma StartWaves(s: State, mutateId: nat, groupAdds: seq<Add>, welcomeAdds: seq<Add>, limbo: set<Topic>)
    requires Waves(s) && Enumerates(Collected(groupAdds, welcomeAdds), limbo) && |groupAdds| + |welcomeAdds| > 0
    requires forall t :: t in limbo ==> t !in s.topicWave
    ensures Waves(StartWave(s, mutateId, groupAdds, welcomeAdds))
  {
    hide Owners, AssignWave;
    var topics := Collected(groupAdds, welcomeAdds);
    StartOwners(s, AssignWave(s.topicWave, topics, s.nextWave), topics, limbo);
    AssignFacts(s.topicWave, Collected(groupAdds, welcomeAdds), s.nextWave);
    CollectedSize(groupAdds, welcomeAdds);
    hide TopicsOf;
  }

  lemma CollectedSize(groupAdds: seq<Add>, welcomeAdds: seq<Add>)
    ensures |Collected(groupAdds, welcomeAdds)| == |groupAdds| + |welcomeAdds|
  {
    TopicsOfMember(groupAdds);
    TopicsOfMember(welcomeAdds);
  }

  lemma AssignFacts(topicWave: map<Topic, nat>, topics: seq<Topic>, v: nat)
    ensures var d := AssignWave(topicWave, topics, v);
            && (forall t :: t in d <==> t in topicWave || t in topics)
            && (forall t :: t in d ==> d[t] == if t in topics then v else topicWave[t])
  {
  }

  lemma StartIds(s: State, mutateId: nat, groupAdds: seq<Add>, welcomeAdds: seq<Add>)
    requires Ids(s) && mutateId != 0 && !InFlight(s, mutateId)
    ensures Ids(StartWave(s, mutateId, groupAdds, welcomeAdds))
  {
  }

  lemma StartGates(s: State, mutateId: nat, groupAdds: seq<Add>, welcomeAdds: seq<Add>, limbo: set<Topic>)
    requires Gates(s, limbo) && Enumerates(Collected(groupAdds, welcomeAdds), limbo)
    ensures Gates(StartWave(s, mutateId, groupAdds, welcomeAdds), {})
    ensures forall t :: t in limbo ==> t !in s.topicWave
  {
    hide TopicsOf;
  }

  lemma StartOwners(s: State, topicWave: map<Topic, nat>, topics: seq<Topic>, limbo: set<Topic>)
    requires Waves(s) && Enumerates(topics, limbo) && topicWave == AssignWave(s.topicWave, topics, s.nextWave)
    requires forall t :: t in limbo ==> t !in s.topicWave
    ensures Owners(topicWave, s.nextWave) == limbo
    ensures forall v :: v in s.waves ==> Owners(topicWave, v) == Owners(s.topicWave, v)
  {
  }

  // ----- taking messages -----

  lemma EmitBook(cfg: Config, s: State, mutateId: nat, msgs: seq<Row>, limbo: set<Topic>, newlyLive: nat)
    requires Book(s, limbo, newlyLive)
    ensures Book(Emit(cfg, s, mutateId, msgs), limbo, newlyLive)
  {
    hide Emit;
    EmitKeeps(cfg, s, mutateId, msgs);
  }

  /** A gated topic's live message joins its buffer. */
  function Buffered(s: State, r: Row): State {
    s.(pending := s.pending[r.topic := PendingOf(s, r.topic) + [r]], pendingBytes := s.pendingBytes + r.wire)
  }

  lemma BufferGauges(s: State, r: Row)
    requires Gauges(s, 0) && r.topic in s.catchingUp
    ensures Gauges(Buffered(s, r), 0)
  {
    HeldBytesPut(s.pending, r.topic, PendingOf(s, r.topic) + [r]);
    WireBytesSnoc(PendingOf(s, r.topic), r);
    if r.topic in s.pending {
      HeldBytesRemove(s.pending, r.topic);
    } else {
      assert s.pending - {r.topic} == s.pending;
    }
  }

  lemma EmitKeeps(cfg: Config, s: State, mutateId: nat, msgs: seq<Row>)
    ensures var d := Emit(cfg, s, mutateId, msgs); d == s.(highWater := d.highWater, out := d.out)
  {
  }

  lemma LiveBook(cfg: Config, s: State, r: Row)
    requires Book(s, {}, 0)
    ensures Book(TakeLive(cfg, s, r).0, {}, 0)
    ensures TakeLive(cfg, s, r).1 == Continue && s.pendingBytes <= cfg.maxPendingBytes ==>
              TakeLive(cfg, s, r).0.pendingBytes <= cfg.maxPendingBytes
  {
    hide Gauges, Waves, Ids, Gates, Emit, PendingOf;
    if r.topic in s.catchingUp {
      var d := Buffered(s, r);
      BufferGauges(s, r);
      WavesSame(s, d);
      IdsKept(s, d);
      GatesSame(s, d);
    } else {
      EmitBook(cfg, s, 0, [r], {}, 0);
      EmitKeeps(cfg, s, 0, [r]);
    }
  }

  // ----- completeWave -----

  /** Whether settling `topics` for wave `v` settles topic `t`. */
  predicate Settles(topicWave: map<Topic, nat>, v: nat, topics: seq<Topic>, t: Topic) {
    t in topics && t in topicWave && topicWave[t] == v
  }

  lemma GaugesUnbuffer(s: State, d: State, t: Topic)
    requires Gauges(s, 0)
    requires d.live == s.live && d.subscribed == s.subscribed && d.subscribedTopics == s.subscribedTopics
    requires d.catchingUp == s.catchingUp - {t} && d.pending == s.pending - {t}
    requires d.pendingBytes == s.pendingBytes - WireBytes(PendingOf(s, t))
    ensures Gauges(d, 0)
  {
    if t in s.pending {
      HeldBytesRemove(s.pending, t);
    } else {
      assert s.pending - {t} == s.pending;
    }
  }

  lemma SettleGauges(s: State, t: Topic)
    requires Gauges(s, 0)
    ensures Gauges(SettleState(s, t), 0)
  {
    hide Gauges;
    if t in s.catchingUp {
      GaugesUnbuffer(s, SettleState(s, t), t);
    } else {
      GaugesSame(s, SettleState(s, t), 0);
    }
  }

  lemma SettleGates(s: State, v: nat, t: Topic)
    requires Gates(s, {}) && s.catchingUp <= s.subscribed && Owns(s, v, t)
    ensures Gates(SettleState(s, t), {})
  {
  }

  /** Settling touches nothing of these. */
  lemma SettleFields(s: State, v: nat, t: Topic)
    ensures var d := SettleState(s, t);
            && d.waves == s.waves && d.nextWave == s.nextWave && d.out == s.out && d.halfClosed == s.halfClosed
            && d.live == s.live && d.subscribed == s.subscribed && d.subscribedTopics == s.subscribedTopics
            && d.topicWave == s.topicWave - {t}
  {
    hide PendingOf, WireBytes;
  }

  lemma {:induction false} SettleAllBook(f: Fold, v: nat, topics: seq<Topic>)
    requires Gauges(f.s, 0) && Gates(f.s, {})
    ensures var d := SettleAll(f, v, topics).s;
            && Gauges(d, 0) && Gates(d, {})
            && d.waves == f.s.waves && d.nextWave == f.s.nextWave && d.out == f.s.out && d.halfClosed == f.s.halfClosed
            && d.live == f.s.live && d.subscribed == f.s.subscribed && d.subscribedTopics == f.s.subscribedTopics
            && (forall x :: x in d.topicWave <==> x in f.s.topicWave && !Settles(f.s.topicWave, v, topics, x))
            && (forall x :: x in d.topicWave ==> d.topicWave[x] == f.s.topicWave[x])
    decreases |topics|
  {
    hide Gates, SettleState;
    if topics != [] {
      var t := topics[0];
      assert topics == [t] + topics[1..];
      if Owns(f.s, v, t) {
        SettleGauges(f.s, t);
        SettleGates(f.s, v, t);
        SettleFields(f.s, v, t);
      }
      hide Gauges;
      SettleAllBook(Settle(f, v, t), v, topics[1..]);
    }
  }

  lemma CompleteWaves(s: State, d: State, v: nat)
    requires Waves(s) && v in s.waves && d.waves == s.waves - {v} && d.nextWave == s.nextWave
    requires forall x :: x in d.topicWave <==> x in s.topicWave && !Settles(s.topicWave, v, s.waves[v].topics, x)
    requires forall x :: x in d.topicWave ==> d.topicWave[x] == s.topicWave[x]
    ensures Waves(d)
  {
    forall u | u in d.waves ensures Owners(d.topicWave, u) == Owners(s.topicWave, u) {
    }
  }

  lemma FinishBook(cfg: Config, f: Fold, v: nat, mutateId: nat)
    ensures var d := FinishFold(cfg, f, v, mutateId);
            && d.waves == f.s.waves - {v} && d.topicWave == f.s.topicWave && d.nextWave == f.s.nextWave
            && d.live == f.s.live && d.subscribed == f.s.subscribed && d.subscribedTopics == f.s.subscribedTopics
            && d.catchingUp == f.s.catchingUp && d.pending == f.s.pending && d.pendingBytes == f.s.pendingBytes
            && d.epochs.Keys == f.s.epochs.Keys && d.halfClosed == f.s.halfClosed
  {
  }

  lemma GatesSame(s: State, d: State)
    requires Gates(s, {}) && d.subscribed == s.subscribed && d.catchingUp == s.catchingUp
    requires d.topicWave == s.topicWave && d.epochs.Keys == s.epochs.Keys
    ensures Gates(d, {})
  {
    assert forall t :: t in d.epochs <==> t in d.epochs.Keys;
  }

  lemma CompleteBook(cfg: Config, s: State, v: nat, w: Wave)
    requires Book(s, {}, 0) && v in s.waves && w.topics == s.waves[v].topics
    ensures Book(CompleteWave(cfg, s, v, w), {}, 0)
    ensures forall t :: t in CompleteWave(cfg, s, v, w).topicWave <==> t in s.topicWave && s.topicWave[t] != v
    ensures CompleteWave(cfg, s, v, w).waves == s.waves - {v}
  {
    hide Gauges, Gates, SettleAll, FinishFold;
    var f := SettleAll(Fold(s, [], [], []), v, w.topics);
    SettleAllBook(Fold(s, [], [], []), v, w.topics);
    FinishBook(cfg, f, v, w.mutateId);
    var d := FinishFold(cfg, f, v, w.mutateId);
    GaugesSame(f.s, d, 0);
    GatesSame(f.s, d);
    CompleteWaves(s, d, v);
    IdsKept(s, d);
  }
}
