/** The single writer of a Subscribe stream, as functions on its state. Class
    `SubscribeStream` runs the same steps in place and is proved to compute these functions. */
module Writer {
  import opened Rows
  import opened WaveScan
  import opened Fetcher
  import opened Frames

  /** The stream's tunables. */
  datatype Config = Config(maxFrameBytes: int, maxPendingBytes: int, maxMutateAdds: int)

  /** One Mutate's in-flight catch-up. */
  datatype Wave = Wave(mutateId: nat, scansLeft: int, owned: int, topics: seq<Topic>)

  /** History: one topic's current registration. It starts at output position `start` with the
      requested floor, in the wave of Mutate `mutateId`; `openedAt` is the position of the
      TopicsLive that opened its gate. No decision of the writer depends on it. */
  datatype Epoch = Epoch(floor: nat, start: nat, mutateId: nat, openedAt: nat)

  datatype State = State(
    highWater: Marks,
    catchingUp: set<Topic>,
    pending: map<Topic, seq<Row>>,
    pendingBytes: int,
    subscribed: set<Topic>,
    subscribedTopics: int,
    live: set<Topic>,               // the topic set of the stream's dispatcher subscription
    waves: map<nat, Wave>,
    nextWave: nat,
    topicWave: map<Topic, nat>,
    halfClosed: bool,
    out: seq<Frame>,                // every frame handed to the sender, in order
    epochs: map<Topic, Epoch>)

  datatype Code = InvalidArgument | ResourceExhausted | Unavailable

  /** What the select loop does next: go on, fail the RPC, or finish cleanly. */
  datatype Verdict = Continue | Fail(code: Code) | Close

  const Init := State(map[], {}, map[], 0, {}, 0, {}, map[], 0, map[], false, [Started], map[])

  function PendingOf(s: State, t: Topic): seq<Row> {
    if t in s.pending then s.pending[t] else []
  }

  function WireBytes(rows: seq<Row>): nat {
    if rows == [] then 0 else rows[0].wire + WireBytes(rows[1..])
  }

  // ----- dropTopic -----

  /** Ends live delivery of a topic and discards what is buffered for it. */
  function Silence(s: State, t: Topic): State {
    var s1 := s.(live := s.live - {t}, highWater := s.highWater - {t}, epochs := s.epochs - {t},
                 subscribedTopics := if t in s.subscribed then s.subscribedTopics - 1 else s.subscribedTopics,
                 subscribed := s.subscribed - {t});
    if t in s.catchingUp then
      s1.(pendingBytes := s.pendingBytes - WireBytes(PendingOf(s, t)), pending := s.pending - {t},
          catchingUp := s.catchingUp - {t})
    else s1
  }

  /** Frees the topic's slot in its wave; a wave that loses its last topic completes at once. */
  function Disown(s: State, t: Topic): State {
    if t !in s.topicWave then s
    else
      var v := s.topicWave[t];
      var s1 := s.(topicWave := s.topicWave - {t});
      if v !in s.waves then s1
      else
        var w := s.waves[v];
        if w.owned - 1 > 0 then s1.(waves := s.waves[v := w.(owned := w.owned - 1)])
        else s1.(waves := s.waves - {v}, out := s.out + [CatchupComplete(w.mutateId)])
  }

  function DropTopic(s: State, t: Topic): State {
    Disown(Silence(s, t), t)
  }

  // ----- completeWave -----

  /** What the completion loop collects while it settles a wave's topics. */
  datatype Fold = Fold(s: State, groups: seq<Row>, welcomes: seq<Row>, marker: seq<Topic>)

  predicate Owns(s: State, v: nat, t: Topic) {
    t in s.topicWave && s.topicWave[t] == v
  }

  /** Settling one owned topic: a gated one opens, a history_only one loses its floor. */
  function SettleState(s: State, t: Topic): State {
    if t in s.catchingUp then
      s.(topicWave := s.topicWave - {t}, catchingUp := s.catchingUp - {t},
         pendingBytes := s.pendingBytes - WireBytes(PendingOf(s, t)), pending := s.pending - {t})
    else s.(topicWave := s.topicWave - {t}, highWater := s.highWater - {t}, epochs := s.epochs - {t})
  }

  function Settle(f: Fold, v: nat, t: Topic): Fold {
    if !Owns(f.s, v, t) then f // the remove that took it from the wave did this already
    else
      var held := if t in f.s.catchingUp then PendingOf(f.s, t) else [];
      Fold(SettleState(f.s, t), if t.kind == Group then f.groups + held else f.groups,
           if t.kind == Welcome then f.welcomes + held else f.welcomes, f.marker + [t])
  }

  function SettleAll(f: Fold, v: nat, topics: seq<Topic>): Fold
    decreases |topics|
  {
    if topics == [] then f else SettleAll(Settle(f, v, topics[0]), v, topics[1..])
  }

  /** The frames and the state a settled fold ends in: the held live messages in id order
      under the wave's id, then TopicsLive, then CatchupComplete. */
  function FinishFold(cfg: Config, f: Fold, v: nat, mutateId: nat): State {
    var groups, welcomes := SortById(f.groups), SortById(f.welcomes);
    var hw := Advance(f.s.highWater, groups);
    var frames := Pack(mutateId, cfg.maxFrameBytes, Survivors(f.s.highWater, groups)) +
                  Pack(mutateId, cfg.maxFrameBytes, Survivors(hw, welcomes));
    var marker := if f.marker == [] then [] else [TopicsLive(f.marker)];
    f.s.(highWater := Advance(hw, welcomes),
         waves := f.s.waves - {v},
         out := f.s.out + frames + marker + [CatchupComplete(mutateId)],
         epochs := OpenEpochs(f.s.epochs, f.marker, |f.s.out| + |frames|))
  }

  function OpenEpochs(epochs: map<Topic, Epoch>, topics: seq<Topic>, at: nat): map<Topic, Epoch> {
    map t | t in epochs :: if t in topics then epochs[t].(openedAt := at) else epochs[t]
  }

  function CompleteWave(cfg: Config, s: State, v: nat, w: Wave): State {
    FinishFold(cfg, SettleAll(Fold(s, [], [], []), v, w.topics), v, w.mutateId)
  }

  // ----- taking a catch-up batch -----

  /** The rows of a batch whose topics its wave still owns. */
  function Wanted(topicWave: map<Topic, nat>, v: nat, rows: seq<Row>): seq<Row> {
    if rows == [] then []
    else if rows[0].topic in topicWave && topicWave[rows[0].topic] == v then [rows[0]] + Wanted(topicWave, v, rows[1..])
    else Wanted(topicWave, v, rows[1..])
  }

  /** Frames messages through the dedup and queues them. */
  function Emit(cfg: Config, s: State, mutateId: nat, msgs: seq<Row>): State {
    s.(highWater := Advance(s.highWater, msgs),
       out := s.out + Pack(mutateId, cfg.maxFrameBytes, Survivors(s.highWater, msgs)))
  }

  lemma EmitWaves(cfg: Config, s: State, mutateId: nat, msgs: seq<Row>)
    ensures Emit(cfg, s, mutateId, msgs).waves == s.waves && Emit(cfg, s, mutateId, msgs).halfClosed == s.halfClosed
  {
  }

  function TakeBatch(cfg: Config, s: State, b: Batch): (State, Verdict) {
    if b.wave !in s.waves then (s, Continue)
    else
      var w := s.waves[b.wave];
      var s1 := Emit(cfg, s, w.mutateId, Wanted(s.topicWave, b.wave, b.rows));
      if !b.done then (s1, Continue)
      else if w.scansLeft - 1 > 0 then
        (s1.(waves := s1.waves[b.wave := w.(scansLeft := w.scansLeft - 1)]), Continue)
      else
        var s2 := CompleteWave(cfg, s1, b.wave, w.(scansLeft := w.scansLeft - 1));
        (s2, if s2.halfClosed && s2.waves == map[] then Close else Continue)
  }

  // ----- taking a live envelope -----

  function TakeLive(cfg: Config, s: State, r: Row): (State, Verdict) {
    if r.topic in s.catchingUp then
      var s1 := s.(pending := s.pending[r.topic := PendingOf(s, r.topic) + [r]],
                   pendingBytes := s.pendingBytes + r.wire);
      (s1, if s1.pendingBytes > cfg.maxPendingBytes then Fail(ResourceExhausted) else Continue)
    else (Emit(cfg, s, 0, [r]), Continue)
  }

  // ----- half-close -----

  function HalfClose(s: State): (State, Verdict) {
    if s.waves == map[] then (s, Close) else (s.(halfClosed := true), Continue)
  }

  // ----- Mutate -----

  datatype AddReq = AddReq(wire: seq<byte>, cursor: nat)

  datatype MutateReq = MutateReq(mutateId: nat, adds: seq<AddReq>, removes: seq<seq<byte>>, historyOnly: bool)

  /** A wire topic is a kind byte and a non-empty identifier. */
  function SplitTopic(wire: seq<byte>): Option<Topic> {
    if |wire| < 2 then None
    else if wire[0] == 0 then Some(Topic(Group, wire[1..]))
    else if wire[0] == 1 then Some(Topic(Welcome, wire[1..]))
    else None
  }

  /** A Mutate's adds with duplicates collapsed: topics in first-seen order, lowest cursors. */
  datatype Parsed = Parsed(order: seq<Topic>, cursors: map<Topic, nat>)

  function ParseOne(p: Parsed, t: Topic, cursor: nat): Parsed {
    if t in p.cursors then
      if cursor < p.cursors[t] then p.(cursors := p.cursors[t := cursor]) else p
    else Parsed(p.order + [t], p.cursors[t := cursor])
  }

  function ParseAdds(p: Parsed, adds: seq<AddReq>): Option<Parsed>
    decreases |adds|
  {
    if adds == [] then Some(p)
    else
      match SplitTopic(adds[0].wire)
      case None => None
      case Some(t) => ParseAdds(ParseOne(p, t, adds[0].cursor), adds[1..])
  }

  function DropAll(s: State, removes: seq<seq<byte>>): (State, Verdict)
    decreases |removes|
  {
    if removes == [] then (s, Continue)
    else
      match SplitTopic(removes[0])
      case None => (s, Fail(InvalidArgument))
      case Some(t) => DropAll(DropTopic(s, t), removes[1..])
  }

  /** The add loop's accumulator. `newlyLive` is added to the gauge after the loop. */
  datatype Adding = Adding(s: State, groupAdds: seq<Add>, welcomeAdds: seq<Add>, newlyLive: nat)

  predicate Active(s: State, t: Topic) { t in s.subscribed || t in s.catchingUp }

  /** Registers one topic afresh: floor, gate, dispatcher, in that order. */
  function Register(s: State, t: Topic, cursor: nat, mutateId: nat, historyOnly: bool): State {
    var s1 := s.(highWater := s.highWater[t := cursor], epochs := s.epochs[t := Epoch(cursor, |s.out|, mutateId, 0)]);
    if historyOnly then s1
    else s1.(catchingUp := s.catchingUp + {t}, live := s.live + {t}, subscribed := s.subscribed + {t})
  }

  function AddOne(a: Adding, t: Topic, cursor: nat, mutateId: nat, historyOnly: bool): (Adding, Verdict) {
    if t in a.s.topicWave && !Active(a.s, t) then (a, Fail(InvalidArgument))
    else if Active(a.s, t) && historyOnly then (a, Fail(InvalidArgument))
    else if Active(a.s, t) && cursor >= Mark(a.s.highWater, t) then (a, Continue)
    else
      var s1 := if Active(a.s, t) then DropTopic(a.s, t) else a.s;
      var s2 := Register(s1, t, cursor, mutateId, historyOnly);
      var newlyLive := if historyOnly then a.newlyLive else a.newlyLive + 1;
      if t.kind == Group then (Adding(s2, a.groupAdds + [Add(t, cursor)], a.welcomeAdds, newlyLive), Continue)
      else (Adding(s2, a.groupAdds, a.welcomeAdds + [Add(t, cursor)], newlyLive), Continue)
  }

  function AddAll(a: Adding, order: seq<Topic>, cursors: map<Topic, nat>, mutateId: nat,
                  historyOnly: bool): (Adding, Verdict)
    requires forall t :: t in order ==> t in cursors
    decreases |order|
  {
    if order == [] then (a, Continue)
    else
      var (a', v) := AddOne(a, order[0], cursors[order[0]], mutateId, historyOnly);
      if v != Continue then (a', v) else AddAll(a', order[1..], cursors, mutateId, historyOnly)
  }

  function TopicsOf(adds: seq<Add>): seq<Topic> {
    if adds == [] then [] else [adds[0].topic] + TopicsOf(adds[1..])
  }

  function AssignWave(topicWave: map<Topic, nat>, topics: seq<Topic>, v: nat): map<Topic, nat> {
    topicWave + map t | t in topics :: v
  }

  /** Starts the wave of a Mutate that registered topics. */
  function StartWave(s: State, mutateId: nat, groupAdds: seq<Add>, welcomeAdds: seq<Add>): State {
    var topics := TopicsOf(groupAdds) + TopicsOf(welcomeAdds);
    var scans := (if groupAdds == [] then 0 else 1) + (if welcomeAdds == [] then 0 else 1);
    s.(nextWave := s.nextWave + 1,
       waves := s.waves[s.nextWave := Wave(mutateId, scans, |groupAdds| + |welcomeAdds|, topics)],
       topicWave := AssignWave(s.topicWave, topics, s.nextWave))
  }

  /** The outcome of a Mutate: the new state, the verdict, and the scans it spawns for wave
      `wave` (those whose add list is not empty). */
  datatype Mutated = Mutated(s: State, verdict: Verdict, wave: nat, groupAdds: seq<Add>, welcomeAdds: seq<Add>)

  function Rejected(s: State, code: Code): Mutated {
    Mutated(s, Fail(code), 0, [], [])
  }

  predicate InFlight(s: State, mutateId: nat) {
    exists v :: v in s.waves && s.waves[v].mutateId == mutateId
  }

  lemma ParseKeepsOrder(p: Parsed, adds: seq<AddReq>)
    requires forall t :: t in p.order <==> t in p.cursors
    ensures ParseAdds(p, adds).Some? ==>
              forall t :: t in ParseAdds(p, adds).value.order <==> t in ParseAdds(p, adds).value.cursors
    decreases |adds|
  {
    if adds != [] && SplitTopic(adds[0].wire).Some? {
      ParseKeepsOrder(ParseOne(p, SplitTopic(adds[0].wire).value, adds[0].cursor), adds[1..]);
    }
  }

  function Mutate(cfg: Config, s: State, m: MutateReq): Mutated {
    if |m.adds| > 0 && m.mutateId == 0 then Rejected(s, InvalidArgument)
    else if |m.adds| > cfg.maxMutateAdds then Rejected(s, ResourceExhausted)
    else if m.mutateId != 0 && InFlight(s, m.mutateId) then Rejected(s, InvalidArgument)
    else
      match ParseAdds(Parsed([], map[]), m.adds)
      case None => Rejected(s, InvalidArgument)
      case Some(p) =>
        ParseKeepsOrder(Parsed([], map[]), m.adds);
        var (s1, v1) := DropAll(s, m.removes);
        if v1 != Continue then Mutated(s1, v1, 0, [], [])
        else
          var (a, v2) := AddAll(Adding(s1, [], [], 0), p.order, p.cursors, m.mutateId, m.historyOnly);
          if v2 != Continue then Mutated(a.s, v2, 0, [], [])
          else
            var s2 := a.s.(subscribedTopics := a.s.subscribedTopics + a.newlyLive);
            if |a.groupAdds| + |a.welcomeAdds| > 0 then
              Mutated(StartWave(s2, m.mutateId, a.groupAdds, a.welcomeAdds), Continue,
                      s2.nextWave, a.groupAdds, a.welcomeAdds)
            else Mutated(s2.(out := s2.out + [CatchupComplete(m.mutateId)]), Continue, 0, [], [])
  }
}
