/** The output log of one registration of a topic: ids strictly rise above the floor, and the
    seam between the wave's replay and the live tail is marked in the log (XIP-83 server
    requirement 4). */
module EpochLog {
  import opened Rows
  import opened WaveScan
  import opened Frames
  import opened Writer
  import opened StreamSystem
  import V = TopicView

  /** What the log of a topic depends on: its epoch, its high-water mark, and whether it is
      registered for live delivery with its gate still closed. */
  datatype Trace = Trace(e: Epoch, mark: nat, live: bool, gated: bool)

  predicate Carries(f: Frame, t: Topic) {
    f.Messages? && Proj(f.rows, t) != []
  }

  predicate Announces(f: Frame, t: Topic) {
    f.TopicsLive? && t in f.topics
  }

  /** Allowed while the topic's wave runs: its replay under the wave's id, no announcement of the
      topic, and not the wave's CatchupComplete. */
  predicate Replay(f: Frame, t: Topic, mutateId: nat) {
    && (Carries(f, t) ==> f.mutateId == mutateId)
    && !Announces(f, t)
    && f != CatchupComplete(mutateId)
  }

  /** Allowed once the gate is open: live frames of the topic carry mutate_id 0. */
  predicate Tail(f: Frame, t: Topic) {
    (Carries(f, t) ==> f.mutateId == 0) && !Announces(f, t)
  }

  ghost predicate Seam(out: seq<Frame>, e: Epoch, t: Topic, gated: bool) {
    if gated then forall i :: e.start <= i < |out| ==> Replay(out[i], t, e.mutateId)
    else
      && e.start <= e.openedAt && e.openedAt + 1 < |out|
      && (forall i :: e.start <= i < e.openedAt ==> Replay(out[i], t, e.mutateId))
      && Announces(out[e.openedAt], t)
      && out[e.openedAt + 1] == CatchupComplete(e.mutateId)
      && (forall i :: e.openedAt + 1 < i < |out| ==> Tail(out[i], t))
  }

  /** Delivered ids strictly increase, from above the floor up to the mark. */
  ghost predicate Rising(out: seq<Frame>, e: Epoch, mark: nat, t: Topic) {
    && e.start <= |out| && e.floor <= mark
    && var d := DeliveredSince(out, e.start, t);
       Ascending(d) && forall r :: r in d ==> e.floor < r.id <= mark
  }

  ghost predicate TraceOk(out: seq<Frame>, tr: Trace, t: Topic) {
    && Rising(out, tr.e, tr.mark, t)
    && tr.e.mutateId != 0
    && (tr.live ==> Seam(out, tr.e, t, tr.gated))
  }

  /** A registration that starts now. */
  lemma Fresh(out: seq<Frame>, cursor: nat, mutateId: nat, live: bool, t: Topic)
    requires mutateId != 0
    ensures TraceOk(out, Trace(Epoch(cursor, |out|, mutateId, 0), cursor, live, live), t)
  {
  }

  lemma Climb(out: seq<Frame>, out': seq<Frame>, e: Epoch, mark: nat, msgs: seq<Row>, t: Topic)
    requires Rising(out, e, mark, t) && |out| <= |out'|
    requires DeliveredSince(out', e.start, t) == DeliveredSince(out, e.start, t) + Rise(mark, msgs)
    ensures Rising(out', e, LastId(Rise(mark, msgs), mark), t)
  {
    var d, rise := DeliveredSince(out, e.start, t), Rise(mark, msgs);
    RiseRows(mark, msgs);
    V.LastAbove(rise, mark);
    forall i, j | 0 <= i < j < |d + rise| ensures (d + rise)[i].id < (d + rise)[j].id {
      if i < |d| { assert d[i] in d; }
      if j >= |d| { assert rise[j - |d|] in rise; }
    }
  }

  /** The seam survives frames allowed on the topic's side of it. */
  lemma SeamGrows(out: seq<Frame>, more: seq<Frame>, e: Epoch, t: Topic, gated: bool)
    requires Seam(out, e, t, gated)
    requires forall i :: 0 <= i < |more| ==> if gated then Replay(more[i], t, e.mutateId) else Tail(more[i], t)
    ensures Seam(out + more, e, t, gated)
  {
    var all := out + more;
    forall i | |out| <= i < |all| ensures all[i] == more[i - |out|] {
    }
  }

  /** The wave's last frames open the gate: TopicsLive, then CatchupComplete. */
  lemma SeamOpens(out: seq<Frame>, frames: seq<Frame>, e: Epoch, t: Topic, marker: seq<Topic>)
    requires Seam(out, e, t, true) && e.start <= |out| && t in marker
    requires forall i :: 0 <= i < |frames| ==> Replay(frames[i], t, e.mutateId)
    ensures Seam(out + frames + [TopicsLive(marker)] + [CatchupComplete(e.mutateId)],
                 e.(openedAt := |out| + |frames|), t, false)
  {
    var all := out + frames + [TopicsLive(marker)] + [CatchupComplete(e.mutateId)];
    var at := |out| + |frames|;
    assert all[at] == TopicsLive(marker) && all[at + 1] == CatchupComplete(e.mutateId);
    forall i | e.start <= i < at ensures Replay(all[i], t, e.mutateId) {
      if i < |out| { assert all[i] == out[i]; } else { assert all[i] == frames[i - |out|]; }
    }
  }

  /** Packed frames carry a topic only when the packed rows hold some of it. */
  lemma PackCarries(mutateId: nat, maxFrameBytes: int, rows: seq<Row>, t: Topic)
    ensures var fs := Pack(mutateId, maxFrameBytes, rows);
            forall i :: 0 <= i < |fs| ==>
              fs[i].Messages? && fs[i].mutateId == mutateId && (Carries(fs[i], t) ==> Proj(rows, t) != [])
  {
    PackMeaning(mutateId, maxFrameBytes, rows);
    var fs := Pack(mutateId, maxFrameBytes, rows);
    forall i | 0 <= i < |fs| ensures Carries(fs[i], t) ==> Proj(rows, t) != [] {
      assert Fits(fs[i], mutateId, maxFrameBytes);
      if Carries(fs[i], t) { RowsInCarries(fs, i, t); }
    }
  }

  lemma {:induction false} RowsInCarries(fs: seq<Frame>, i: nat, t: Topic)
    requires i < |fs| && Carries(fs[i], t)
    ensures Proj(RowsIn(fs), t) != []
  {
    ProjConcat(if fs[0].Messages? then fs[0].rows else [], RowsIn(fs[1..]), t);
    if i > 0 { RowsInCarries(fs[1..], i - 1, t); }
  }
}
