/** The stream handler's select loop: one writer that owns all state and updates it in place
    (pkg/mls/api/v1/subscribe.go). Every step is proved to compute the writer function of the
    same name, about which everything else is proved. */
module Stream {
  import opened Rows
  import opened WaveScan
  import opened Fetcher
  import opened Frames
  import opened Dispatcher
  import W = Writer

  class SubscribeStream {
    const cfg: W.Config
    const sub: Subscription<Topic, Row>
    var highWaterMarks: map<Topic, nat>      // topic -> last id sent
    var catchingUp: set<Topic>               // topics whose catch-up is in progress
    var pending: map<Topic, seq<Row>>        // live messages held while a topic catches up
    var pendingBytes: int
    var subscribed: set<Topic>               // topics live-registered on the dispatcher
    var subscribedTopics: int
    var waves: map<nat, W.Wave>
    var nextWave: nat
    var topicWave: map<Topic, nat>
    var halfClosed: bool
    var outbound: seq<Frame>                 // everything handed to the sender
    ghost var epochs: map<Topic, W.Epoch>

    ghost predicate Valid()
      reads this
    {
      !sub.all
    }

    /** The writer state this object stands for. */
    ghost function State(): W.State
      reads this, sub
    {
      W.State(highWaterMarks, catchingUp, pending, pendingBytes, subscribed, subscribedTopics, sub.topics, waves,
              nextWave, topicWave, halfClosed, outbound, epochs)
    }

    constructor (cfg: W.Config, sub: Subscription<Topic, Row>)
      requires !sub.all && sub.topics == {}
      ensures Valid() && this.sub == sub && this.cfg == cfg && State() == W.Init
    {
      this.cfg, this.sub := cfg, sub;
      highWaterMarks, catchingUp, pending, pendingBytes := map[], {}, map[], 0;
      subscribed, subscribedTopics := {}, 0;
      waves, nextWave, topicWave, halfClosed := map[], 0, map[], false;
      outbound, epochs := [Frame.Started], map[];
    }

    method Send(frames: seq<Frame>)
      requires Valid()
      modifies this`outbound
      ensures outbound == old(outbound) + frames
    {
      outbound := outbound + frames;
    }

    /** Removes a topic from the stream; if it was mid catch-up, its wave may end with it. */
    method DropTopic(t: Topic)
      requires Valid()
      modifies this, sub
      ensures Valid() && State() == W.DropTopic(old(State()), t)
    {
      hide W.Silence, W.Disown;
      StopDelivery(t);
      FreeWaveSlot(t);
    }

    /** Stops live delivery of a topic, clears its floor and discards what is buffered for it. */
    method StopDelivery(t: Topic)
      requires Valid()
      modifies this, sub
      ensures Valid() && State() == W.Silence(old(State()), t)
    {
      hide W.WireBytes;
      sub.Remove([t]);
      assert sub.topics == old(sub.topics) - {t};
      highWaterMarks := highWaterMarks - {t};
      epochs := epochs - {t};
      if t in subscribed {
        subscribed := subscribed - {t};
        subscribedTopics := subscribedTopics - 1;
      } else {
        assert subscribed - {t} == subscribed;
      }
      if t in catchingUp {
        DiscardPending(t);
      }
    }

    /** Discards what a gated topic holds back, and its gate. */
    method DiscardPending(t: Topic)
      requires Valid()
      modifies this`pendingBytes, this`pending, this`catchingUp
      ensures pendingBytes == old(pendingBytes) - W.WireBytes(W.PendingOf(old(State()), t))
      ensures pending == old(pending) - {t} && catchingUp == old(catchingUp) - {t}
    {
      UncountPending(t);
      pending := pending - {t};
      catchingUp := catchingUp - {t};
    }

    /** Frees the topic's slot in its wave; the wave completes when it was the last. */
    method FreeWaveSlot(t: Topic)
      requires Valid()
      modifies this
      ensures Valid() && State() == W.Disown(old(State()), t)
    {
      if t in topicWave {
        var wave := topicWave[t];
        topicWave := topicWave - {t};
        if wave in waves {
          var w := waves[wave];
          w := w.(owned := w.owned - 1);
          if w.owned > 0 {
            waves := waves[wave := w];
          } else {
            waves := waves - {wave};
            Send([CatchupComplete(w.mutateId)]);
          }
        }
      }
    }

    /** Takes a topic's buffered bytes off the count, message by message. */
    method UncountPending(t: Topic)
      requires Valid()
      modifies this`pendingBytes
      ensures pendingBytes == old(pendingBytes) - W.WireBytes(if t in pending then pending[t] else [])
    {
      if t !in pending {
        return;
      }
      var held := pending[t];
      var i := 0;
      while i < |held|
        invariant 0 <= i <= |held|
        invariant pendingBytes - W.WireBytes(held[i..]) == old(pendingBytes) - W.WireBytes(held)
      {
        assert held[i..][1..] == held[i + 1..];
        pendingBytes := pendingBytes - held[i].wire;
        i := i + 1;
      }
    }

    // ----- completing a wave -----

    /** Settles a wave's topics, collecting what their gates held back. */
    method SettleTopics(wave: nat, topics: seq<Topic>)
      returns (groups: seq<Row>, welcomes: seq<Row>, marker: seq<Topic>)
      requires Valid()
      modifies this
      ensures Valid()
      ensures W.Fold(State(), groups, welcomes, marker) == W.SettleAll(W.Fold(old(State()), [], [], []), wave, topics)
    {
      hide W.Settle;
      groups, welcomes, marker := [], [], [];
      var i := 0;
      while i < |topics|
        invariant 0 <= i <= |topics| && Valid()
        invariant W.SettleAll(W.Fold(State(), groups, welcomes, marker), wave, topics[i..]) ==
                  W.SettleAll(W.Fold(old(State()), [], [], []), wave, topics)
      {
        assert topics[i..][1..] == topics[i + 1..];
        groups, welcomes, marker := SettleTopic(wave, topics[i], groups, welcomes, marker);
        i := i + 1;
      }
    }

    /** Settles one topic the wave still owns: an opening gate hands over its buffer, a
        history_only topic loses its floor. */
    method SettleTopic(wave: nat, t: Topic, groups: seq<Row>, welcomes: seq<Row>, marker: seq<Topic>)
      returns (groups': seq<Row>, welcomes': seq<Row>, marker': seq<Topic>)
      requires Valid()
      modifies this
      ensures Valid()
      ensures W.Fold(State(), groups', welcomes', marker')
           == W.Settle(W.Fold(old(State()), groups, welcomes, marker), wave, t)
    {
      hide W.WireBytes;
      groups', welcomes', marker' := groups, welcomes, marker;
      if t !in topicWave || topicWave[t] != wave {
        return; // the remove that took it from the wave did this already
      }
      topicWave := topicWave - {t};
      marker' := marker + [t];
      if t !in catchingUp {
        highWaterMarks := highWaterMarks - {t};
        epochs := epochs - {t};
        assert groups + [] == groups && welcomes + [] == welcomes;
        return;
      }
      catchingUp := catchingUp - {t};
      var held := if t in pending then pending[t] else [];
      UncountPending(t);
      if t.kind == Welcome {
        welcomes' := welcomes + held;
      } else {
        groups' := groups + held;
      }
      pending := pending - {t};
    }

    /** Flushes what was buffered behind the gates in id order under the wave's id, announces the
        surviving topics, completes the wave, and only then lets live frames through. */
    method CompleteWave(wave: nat, w: W.Wave)
      requires Valid()
      modifies this
      ensures Valid() && sub.topics == old(sub.topics)
      ensures State() == W.CompleteWave(cfg, old(State()), wave, w)
    {
      hide W.SettleAll, Survivors, Advance, Pack, SortById, W.OpenEpochs;
      var groups, welcomes, marker := SettleTopics(wave, w.topics);
      groups, welcomes := SortById(groups), SortById(welcomes);
      waves := waves - {wave};
      var groupFrames, welcomeFrames;
      groupFrames, highWaterMarks := BuildFrames(highWaterMarks, groups, w.mutateId, cfg.maxFrameBytes);
      welcomeFrames, highWaterMarks := BuildFrames(highWaterMarks, welcomes, w.mutateId, cfg.maxFrameBytes);
      var liveMarker := if |marker| > 0 then [TopicsLive(marker)] else [];
      epochs := W.OpenEpochs(epochs, marker, |outbound| + |groupFrames + welcomeFrames|);
      ghost var before := outbound;
      Send(groupFrames + welcomeFrames + liveMarker + [CatchupComplete(w.mutateId)]);
      assert outbound == before + (groupFrames + welcomeFrames) + liveMarker + [CatchupComplete(w.mutateId)];
    }

    // ----- a catch-up batch -----

    /** A topic can be removed or reset while its wave's page is in flight: only what the batch's
        wave still owns is kept. */
    method KeepWanted(wave: nat, rows: seq<Row>) returns (kept: seq<Row>)
      requires Valid()
      ensures kept == W.Wanted(topicWave, wave, rows)
    {
      kept := [];
      var i := 0;
      while i < |rows|
        invariant 0 <= i <= |rows|
        invariant kept + W.Wanted(topicWave, wave, rows[i..]) == W.Wanted(topicWave, wave, rows)
      {
        assert rows[i..][1..] == rows[i + 1..];
        var t := rows[i].topic;
        if t in topicWave && topicWave[t] == wave {
          kept := kept + [rows[i]];
        }
        i := i + 1;
      }
    }

    /** Frames messages through the dedup and queues them for the sender. */
    method SendMessages(msgs: seq<Row>, mutateId: nat)
      requires Valid()
      modifies this
      ensures Valid() && State() == W.Emit(cfg, old(State()), mutateId, msgs)
    {
      var frames;
      frames, highWaterMarks := BuildFrames(highWaterMarks, msgs, mutateId, cfg.maxFrameBytes);
      Send(frames);
    }

    method TakeBatch(b: Batch) returns (verdict: W.Verdict)
      requires Valid()
      modifies this
      ensures Valid() && (State(), verdict) == W.TakeBatch(cfg, old(State()), b)
    {
      hide W.Emit, W.Wanted, W.CompleteWave;
      if b.wave !in waves {
        return W.Continue; // the wave completed early; drop the straggler
      }
      var w := waves[b.wave];
      var kept := KeepWanted(b.wave, b.rows);
      SendMessages(kept, w.mutateId);
      W.EmitWaves(cfg, old(State()), w.mutateId, kept);
      if b.done {
        w := w.(scansLeft := w.scansLeft - 1);
        if w.scansLeft > 0 {
          waves := waves[b.wave := w];
        } else {
          CompleteWave(b.wave, w);
          if halfClosed && |waves| == 0 {
            return W.Close;
          }
        }
      }
      verdict := W.Continue;
    }

    // ----- a live envelope -----

    method TakeLive(env: Row) returns (verdict: W.Verdict)
      requires Valid()
      modifies this
      ensures Valid() && (State(), verdict) == W.TakeLive(cfg, old(State()), env)
    {
      hide W.Emit;
      var t := env.topic;
      if t in catchingUp {
        pending := pending[t := (if t in pending then pending[t] else []) + [env]];
        pendingBytes := pendingBytes + env.wire;
        if pendingBytes > cfg.maxPendingBytes {
          return W.Fail(W.ResourceExhausted);
        }
        return W.Continue;
      }
      SendMessages([env], 0);
      verdict := W.Continue;
    }

    // ----- half-close -----

    method HalfClose() returns (verdict: W.Verdict)
      requires Valid()
      modifies this
      ensures Valid() && (State(), verdict) == W.HalfClose(old(State()))
    {
      if |waves| == 0 {
        return W.Close;
      }
      halfClosed := true;
      verdict := W.Continue;
    }

    // ----- Mutate -----

    method IdInFlight(mutateId: nat) returns (found: bool)
      requires Valid()
      ensures found == W.InFlight(State(), mutateId)
    {
      found := false;
      var left := waves.Keys;
      while left != {}
        invariant left <= waves.Keys
        invariant found == exists v :: v in waves && v !in left && waves[v].mutateId == mutateId
        decreases left
      {
        var v :| v in left;
        if waves[v].mutateId == mutateId {
          found := true;
        }
        left := left - {v};
      }
    }

    /** The checks made before anything changes: a wave cannot ride on the live tag, the adds are
        bounded, and an id must not be in flight. */
    method Refuse(m: W.MutateReq) returns (code: Option<W.Code>)
      requires Valid()
      ensures code == if |m.adds| > 0 && m.mutateId == 0 then Some(W.InvalidArgument)
                      else if |m.adds| > cfg.maxMutateAdds then Some(W.ResourceExhausted)
                      else if m.mutateId != 0 && W.InFlight(State(), m.mutateId) then Some(W.InvalidArgument)
                      else None
    {
      if |m.adds| > 0 && m.mutateId == 0 {
        return Some(W.InvalidArgument);
      }
      if |m.adds| > cfg.maxMutateAdds {
        return Some(W.ResourceExhausted);
      }
      if m.mutateId != 0 {
        var found := IdInFlight(m.mutateId);
        if found {
          return Some(W.InvalidArgument);
        }
      }
      code := None;
    }

    /** Parses and kind-checks every add up front, collapsing duplicates to the lowest cursor. */
    method ParseAdds(adds: seq<W.AddReq>) returns (parsed: Option<W.Parsed>)
      requires Valid()
      ensures parsed == W.ParseAdds(W.Parsed([], map[]), adds)
    {
      var order: seq<Topic>, cursors: map<Topic, nat> := [], map[];
      var i := 0;
      while i < |adds|
        invariant 0 <= i <= |adds|
        invariant W.ParseAdds(W.Parsed(order, cursors), adds[i..]) == W.ParseAdds(W.Parsed([], map[]), adds)
      {
        assert adds[i..][1..] == adds[i + 1..];
        var split := W.SplitTopic(adds[i].wire);
        if split.None? {
          return None;
        }
        var t, cursor := split.value, adds[i].cursor;
        if t in cursors {
          if cursor < cursors[t] {
            cursors := cursors[t := cursor];
          }
        } else {
          cursors := cursors[t := cursor];
          order := order + [t];
        }
        i := i + 1;
      }
      parsed := Some(W.Parsed(order, cursors));
    }

    method DropTopics(removes: seq<seq<byte>>) returns (verdict: W.Verdict)
      requires Valid()
      modifies this, sub
      ensures Valid() && (State(), verdict) == W.DropAll(old(State()), removes)
    {
      hide W.DropTopic;
      var i := 0;
      while i < |removes|
        invariant 0 <= i <= |removes| && Valid()
        invariant W.DropAll(State(), removes[i..]) == W.DropAll(old(State()), removes)
      {
        assert removes[i..][1..] == removes[i + 1..];
        var split := W.SplitTopic(removes[i]);
        if split.None? {
          return W.Fail(W.InvalidArgument);
        }
        DropTopic(split.value);
        i := i + 1;
      }
      verdict := W.Continue;
    }

    /** Registers a topic afresh. The gate closes before the dispatcher hears of the topic, so no
        live envelope can slip past the buffer. */
    method Register(t: Topic, cursor: nat, mutateId: nat, historyOnly: bool)
      requires Valid()
      modifies this, sub
      ensures Valid() && State() == W.Register(old(State()), t, cursor, mutateId, historyOnly)
    {
      highWaterMarks := highWaterMarks[t := cursor];
      epochs := epochs[t := W.Epoch(cursor, |outbound|, mutateId, 0)];
      if !historyOnly {
        catchingUp := catchingUp + {t};
        sub.Add([t]);
        assert sub.topics == old(sub.topics) + {t};
        subscribed := subscribed + {t};
      }
    }

    /** One add: rejected, ignored as a no-op, or registered. */
    method AddTopic(t: Topic, cursor: nat, mutateId: nat, historyOnly: bool,
                    groupAdds: seq<Add>, welcomeAdds: seq<Add>, newlyLive: nat)
      returns (verdict: W.Verdict, groupAdds': seq<Add>, welcomeAdds': seq<Add>, newlyLive': nat)
      requires Valid()
      modifies this, sub
      ensures Valid()
      ensures (W.Adding(State(), groupAdds', welcomeAdds', newlyLive'), verdict) ==
              W.AddOne(W.Adding(old(State()), groupAdds, welcomeAdds, newlyLive), t, cursor, mutateId, historyOnly)
    {
      hide W.DropTopic, W.Register;
      groupAdds', welcomeAdds', newlyLive' := groupAdds, welcomeAdds, newlyLive;
      if t in topicWave && t !in subscribed && t !in catchingUp {
        return W.Fail(W.InvalidArgument), groupAdds', welcomeAdds', newlyLive'; // in-flight history_only catch-up
      }
      if t in subscribed || t in catchingUp {
        if historyOnly {
          return W.Fail(W.InvalidArgument), groupAdds', welcomeAdds', newlyLive';
        }
        if cursor >= (if t in highWaterMarks then highWaterMarks[t] else 0) {
          return W.Continue, groupAdds', welcomeAdds', newlyLive';
        }
        DropTopic(t);
      }
      Register(t, cursor, mutateId, historyOnly);
      if !historyOnly {
        newlyLive' := newlyLive + 1;
      }
      match t.kind {
        case Group => groupAdds' := groupAdds + [Add(t, cursor)];
        case Welcome => welcomeAdds' := welcomeAdds + [Add(t, cursor)];
      }
      verdict := W.Continue;
    }

    method AddTopics(order: seq<Topic>, cursors: map<Topic, nat>, mutateId: nat, historyOnly: bool)
      returns (verdict: W.Verdict, groupAdds: seq<Add>, welcomeAdds: seq<Add>, newlyLive: nat)
      requires Valid() && forall t :: t in order ==> t in cursors
      modifies this, sub
      ensures Valid()
      ensures (W.Adding(State(), groupAdds, welcomeAdds, newlyLive), verdict) ==
              W.AddAll(W.Adding(old(State()), [], [], 0), order, cursors, mutateId, historyOnly)
    {
      hide W.AddOne;
      groupAdds, welcomeAdds, newlyLive := [], [], 0;
      var i := 0;
      while i < |order|
        invariant 0 <= i <= |order| && Valid()
        invariant W.AddAll(W.Adding(State(), groupAdds, welcomeAdds, newlyLive), order[i..], cursors, mutateId,
                           historyOnly) ==
                  W.AddAll(W.Adding(old(State()), [], [], 0), order, cursors, mutateId, historyOnly)
      {
        assert order[i..][1..] == order[i + 1..];
        verdict, groupAdds, welcomeAdds, newlyLive :=
          AddTopic(order[i], cursors[order[i]], mutateId, historyOnly, groupAdds, welcomeAdds, newlyLive);
        if verdict != W.Continue {
          return;
        }
        i := i + 1;
      }
      verdict := W.Continue;
    }

    method AssignWave(topics: seq<Topic>, wave: nat)
      requires Valid()
      modifies this`topicWave
      ensures topicWave == W.AssignWave(old(topicWave), topics, wave)
    {
      var i := 0;
      while i < |topics|
        invariant 0 <= i <= |topics|
        invariant topicWave == W.AssignWave(old(topicWave), topics[..i], wave)
      {
        topicWave := topicWave[topics[i] := wave];
        i := i + 1;
      }
      assert topics[..i] == topics;
    }

    /** Starts a wave over the topics a Mutate registered. */
    method StartWave(mutateId: nat, groupAdds: seq<Add>, welcomeAdds: seq<Add>) returns (wave: nat)
      requires Valid()
      modifies this
      ensures Valid() && wave == old(nextWave)
      ensures State() == W.StartWave(old(State()), mutateId, groupAdds, welcomeAdds)
    {
      wave := nextWave;
      nextWave := nextWave + 1;
      var scans := 0;
      if |groupAdds| > 0 {
        scans := scans + 1;
      }
      if |welcomeAdds| > 0 {
        scans := scans + 1;
      }
      var topics := W.TopicsOf(groupAdds) + W.TopicsOf(welcomeAdds);
      waves := waves[wave := W.Wave(mutateId, scans, |groupAdds| + |welcomeAdds|, topics)];
      AssignWave(topics, wave);
    }

    /** A client's Mutate: validation, removes, adds, and a new wave or an immediate answer. */
    method Mutate(m: W.MutateReq) returns (verdict: W.Verdict, wave: nat, groupAdds: seq<Add>, welcomeAdds: seq<Add>)
      requires Valid()
      modifies this, sub
      ensures Valid()
      ensures W.Mutated(State(), verdict, wave, groupAdds, welcomeAdds) == W.Mutate(cfg, old(State()), m)
    {
      hide W.ParseAdds, W.DropAll, W.AddAll, W.StartWave, W.InFlight, W.ParseOne, W.SplitTopic;
      wave, groupAdds, welcomeAdds := 0, [], [];
      var refused := Refuse(m);
      if refused.Some? {
        return W.Fail(refused.value), wave, groupAdds, welcomeAdds;
      }
      var parsed := ParseAdds(m.adds);
      if parsed.None? {
        return W.Fail(W.InvalidArgument), wave, groupAdds, welcomeAdds;
      }
      W.ParseKeepsOrder(W.Parsed([], map[]), m.adds);
      verdict := DropTopics(m.removes);
      if verdict != W.Continue {
        return verdict, wave, groupAdds, welcomeAdds;
      }
      var adds, welcomes, newlyLive;
      verdict, adds, welcomes, newlyLive := AddTopics(parsed.value.order, parsed.value.cursors, m.mutateId,
                                                      m.historyOnly);
      if verdict != W.Continue {
        return verdict, wave, groupAdds, welcomeAdds;
      }
      if newlyLive > 0 {
        subscribedTopics := subscribedTopics + newlyLive;
      }
      if |adds| + |welcomes| > 0 {
        wave := StartWave(m.mutateId, adds, welcomes);
        groupAdds, welcomeAdds := adds, welcomes;
      } else {
        Send([CatchupComplete(m.mutateId)]);
      }
    }
  }
}
