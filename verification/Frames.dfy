/** The frames a stream sends, the per-topic high-water dedup, and the greedy packing of
    message frames. */
module Frames {
  import opened Rows
  import opened WaveScan

  datatype Frame =
    | Started
    | Messages(mutateId: nat, rows: seq<Row>)
    | TopicsLive(topics: seq<Topic>)
    | CatchupComplete(mutateId: nat)

  type Marks = map<Topic, nat>

  /** The high-water mark of a topic: the last id sent, 0 when none is recorded. */
  function Mark(hw: Marks, t: Topic): nat {
    if t in hw then hw[t] else 0
  }

  // ----- dedup -----

  /** The messages that pass the high-water dedup when `msgs` are framed from marks `hw`. */
  function Survivors(hw: Marks, msgs: seq<Row>): seq<Row>
    decreases |msgs|
  {
    if msgs == [] then []
    else if Mark(hw, msgs[0].topic) >= msgs[0].id then Survivors(hw, msgs[1..])
    else [msgs[0]] + Survivors(hw[msgs[0].topic := msgs[0].id], msgs[1..])
  }

  /** The marks afterwards. */
  function Advance(hw: Marks, msgs: seq<Row>): Marks
    decreases |msgs|
  {
    if msgs == [] then hw
    else if Mark(hw, msgs[0].topic) >= msgs[0].id then Advance(hw, msgs[1..])
    else Advance(hw[msgs[0].topic := msgs[0].id], msgs[1..])
  }

  /** The rows of one topic's sequence that rise above everything before them and above `h`. */
  function Rise(h: nat, s: seq<Row>): seq<Row>
    decreases |s|
  {
    if s == [] then []
    else if h >= s[0].id then Rise(h, s[1..])
    else [s[0]] + Rise(s[0].id, s[1..])
  }

  /** The dedup of a mixed batch acts on every topic by itself. */
  lemma {:induction false} SurvivorsOfTopic(hw: Marks, msgs: seq<Row>, t: Topic)
    ensures Proj(Survivors(hw, msgs), t) == Rise(Mark(hw, t), Proj(msgs, t))
    ensures Mark(Advance(hw, msgs), t) == LastId(Rise(Mark(hw, t), Proj(msgs, t)), Mark(hw, t))
    decreases |msgs|
  {
    if msgs != [] {
      var m := msgs[0];
      var hw' := if Mark(hw, m.topic) >= m.id then hw else hw[m.topic := m.id];
      SurvivorsOfTopic(hw', msgs[1..], t);
      ProjCons(m, Survivors(hw', msgs[1..]), t);
      if m.topic == t {
        assert ([m] + Proj(msgs[1..], t))[1..] == Proj(msgs[1..], t);
      }
    }
  }

  lemma {:induction false} RiseRows(h: nat, s: seq<Row>)
    ensures Ascending(Rise(h, s))
    ensures forall r :: r in Rise(h, s) ==> r in s && h < r.id
    ensures LastId(Rise(h, s), h) >= h
    decreases |s|
  {
    if s != [] {
      assert s == [s[0]] + s[1..];
      RiseRows(h, s[1..]);
      RiseRows(s[0].id, s[1..]);
      var p := Rise(s[0].id, s[1..]);
      forall j | 0 <= j < |p| ensures s[0].id < p[j].id { assert p[j] in p; }
    }
  }

  lemma TailAbove(s: seq<Row>)
    requires Ascending(s) && s != []
    ensures Ascending(s[1..]) && forall r :: r in s[1..] ==> s[0].id < r.id
  {
    forall r | r in s[1..] ensures s[0].id < r.id {
      var i :| 0 <= i < |s[1..]| && s[1..][i] == r;
      assert s[i + 1] == r;
    }
  }

  lemma {:induction false} RiseOfAbove(h: nat, s: seq<Row>)
    requires Ascending(s) && forall r :: r in s ==> h < r.id
    ensures Rise(h, s) == s
    decreases |s|
  {
    if s != [] {
      assert s[0] in s;
      TailAbove(s);
      RiseOfAbove(s[0].id, s[1..]);
    }
  }

  /** The dedup of a list in two parts goes on from the mark the first part left. */
  lemma {:induction false} RiseConcat(h: nat, a: seq<Row>, b: seq<Row>)
    ensures Rise(h, a + b) == Rise(h, a) + Rise(LastId(Rise(h, a), h), b)
    decreases |a|
  {
    if a == [] {
      assert a + b == b;
      assert [] + Rise(h, b) == Rise(h, b);
    } else {
      assert (a + b)[1..] == a[1..] + b;
      if h >= a[0].id {
        RiseConcat(h, a[1..], b);
      } else {
        RiseConcat(a[0].id, a[1..], b);
        var head, rest := [a[0]], Rise(a[0].id, a[1..]);
        var more := Rise(LastId(rest, a[0].id), b);
        assert LastId(head + rest, h) == LastId(rest, a[0].id);
        assert head + (rest + more) == (head + rest) + more;
      }
    }
  }

  /** On an ascending sequence the dedup keeps exactly what lies above the mark. */
  lemma {:induction false} RiseOfAscending(h: nat, s: seq<Row>)
    requires Ascending(s)
    ensures forall r :: r in Rise(h, s) <==> r in s && h < r.id
    decreases |s|
  {
    if s != [] {
      TailAbove(s);
      assert s == [s[0]] + s[1..];
      if h >= s[0].id {
        RiseOfAscending(h, s[1..]);
      } else {
        RiseOfAbove(s[0].id, s[1..]);
      }
    }
  }

  // ----- packing -----

  function TotalSize(rows: seq<Row>): nat {
    if rows == [] then 0 else rows[0].size + TotalSize(rows[1..])
  }

  /** Greedy packing, continuing a frame already holding `frame`. */
  function PackFrom(mutateId: nat, maxFrameBytes: int, frame: seq<Row>, rows: seq<Row>): seq<Frame>
    decreases |rows|
  {
    if rows == [] then (if frame == [] then [] else [Messages(mutateId, frame)])
    else if frame != [] && TotalSize(frame) + rows[0].size > maxFrameBytes then
      [Messages(mutateId, frame)] + PackFrom(mutateId, maxFrameBytes, [rows[0]], rows[1..])
    else PackFrom(mutateId, maxFrameBytes, frame + [rows[0]], rows[1..])
  }

  function Pack(mutateId: nat, maxFrameBytes: int, rows: seq<Row>): seq<Frame> {
    PackFrom(mutateId, maxFrameBytes, [], rows)
  }

  /** All message rows in a run of frames, in order. */
  function RowsIn(frames: seq<Frame>): seq<Row> {
    if frames == [] then []
    else (if frames[0].Messages? then frames[0].rows else []) + RowsIn(frames[1..])
  }

  lemma {:induction false} RowsInConcat(a: seq<Frame>, b: seq<Frame>)
    ensures RowsIn(a + b) == RowsIn(a) + RowsIn(b)
  {
    if a == [] {
      assert a + b == b;
    } else {
      assert (a + b)[1..] == a[1..] + b;
      RowsInConcat(a[1..], b);
    }
  }

  lemma {:induction false} TotalSizeConcat(a: seq<Row>, b: seq<Row>)
    ensures TotalSize(a + b) == TotalSize(a) + TotalSize(b)
  {
    if a == [] {
      assert a + b == b;
    } else {
      assert (a + b)[1..] == a[1..] + b;
      TotalSizeConcat(a[1..], b);
    }
  }

  /** A message frame is never empty, and exceeds the cap only when it is one message. */
  ghost predicate Fits(f: Frame, mutateId: nat, maxFrameBytes: int) {
    && f.Messages? && f.mutateId == mutateId && f.rows != []
    && (TotalSize(f.rows) <= maxFrameBytes || |f.rows| == 1)
  }

  /** The packing loses, adds and reorders nothing; every frame fits; and a frame is closed
      only when the next message would not have fitted into it. */
  lemma {:induction false} PackFromMeaning(mutateId: nat, maxFrameBytes: int, frame: seq<Row>, rows: seq<Row>)
    requires TotalSize(frame) <= maxFrameBytes || |frame| <= 1
    ensures var fs := PackFrom(mutateId, maxFrameBytes, frame, rows);
            && RowsIn(fs) == frame + rows
            && (forall i :: 0 <= i < |fs| ==> Fits(fs[i], mutateId, maxFrameBytes))
            && (frame != [] ==> fs != [] && frame <= fs[0].rows)
            && (forall i :: 0 <= i < |fs| - 1 ==> TotalSize(fs[i].rows) + fs[i + 1].rows[0].size > maxFrameBytes)
    decreases |rows|
  {
    if rows == [] {
      var fs := PackFrom(mutateId, maxFrameBytes, frame, rows);
      if frame != [] {
        assert fs[1..] == [];
        assert RowsIn(fs) == frame + [];
      }
    } else if frame != [] && TotalSize(frame) + rows[0].size > maxFrameBytes {
      PackFromMeaning(mutateId, maxFrameBytes, [rows[0]], rows[1..]);
      var rest := PackFrom(mutateId, maxFrameBytes, [rows[0]], rows[1..]);
      var fs := [Messages(mutateId, frame)] + rest;
      assert fs[1..] == rest;
      assert RowsIn(fs) == frame + RowsIn(rest);
      assert [rows[0]] + rows[1..] == rows;
      assert rest[0].rows[0] == rows[0];
    } else {
      TotalSizeConcat(frame, [rows[0]]);
      assert TotalSize([rows[0]]) == rows[0].size by { assert [rows[0]][1..] == []; }
      PackFromMeaning(mutateId, maxFrameBytes, frame + [rows[0]], rows[1..]);
      assert (frame + [rows[0]]) + rows[1..] == frame + rows;
    }
  }

  lemma PackMeaning(mutateId: nat, maxFrameBytes: int, rows: seq<Row>)
    ensures var fs := Pack(mutateId, maxFrameBytes, rows);
            && RowsIn(fs) == rows
            && (forall i :: 0 <= i < |fs| ==> Fits(fs[i], mutateId, maxFrameBytes))
            && (forall i :: 0 <= i < |fs| - 1 ==> TotalSize(fs[i].rows) + fs[i + 1].rows[0].size > maxFrameBytes)
  {
    PackFromMeaning(mutateId, maxFrameBytes, [], rows);
  }

  /** Dedup and packing in one pass, as both frame builders run it. */
  method BuildFrames(hw: Marks, msgs: seq<Row>, mutateId: nat, maxFrameBytes: int)
    returns (frames: seq<Frame>, hw': Marks)
    ensures frames == Pack(mutateId, maxFrameBytes, Survivors(hw, msgs))
    ensures hw' == Advance(hw, msgs)
  {
    frames, hw' := [], hw;
    var frame: seq<Row>, frameBytes := [], 0;
    var i := 0;
    while i < |msgs|
      invariant 0 <= i <= |msgs|
      invariant frameBytes == TotalSize(frame)
      invariant Advance(hw', msgs[i..]) == Advance(hw, msgs)
      invariant frames + PackFrom(mutateId, maxFrameBytes, frame, Survivors(hw', msgs[i..])) ==
                Pack(mutateId, maxFrameBytes, Survivors(hw, msgs))
    {
      var m := msgs[i];
      BuildStep(hw', msgs, i, mutateId, maxFrameBytes, frames, frame);
      if Mark(hw', m.topic) < m.id {
        hw' := hw'[m.topic := m.id];
        if frameBytes + m.size > maxFrameBytes && |frame| > 0 {
          frames := frames + [Messages(mutateId, frame)];
          frame, frameBytes := [], 0;
        }
        frame := frame + [m];
        frameBytes := frameBytes + m.size;
      }
      i := i + 1;
    }
    if |frame| > 0 {
      frames := frames + [Messages(mutateId, frame)];
    }
  }

  lemma BuildStep(hw: Marks, msgs: seq<Row>, i: nat, mutateId: nat, maxFrameBytes: int, frames: seq<Frame>,
                  frame: seq<Row>)
    requires i < |msgs|
    ensures var m := msgs[i];
            var skip := Mark(hw, m.topic) >= m.id;
            var hw' := if skip then hw else hw[m.topic := m.id];
            var full := !skip && frame != [] && TotalSize(frame) + m.size > maxFrameBytes;
            var frames' := if full then frames + [Messages(mutateId, frame)] else frames;
            var frame' := if skip then frame else (if full then [] else frame) + [m];
            && Advance(hw, msgs[i..]) == Advance(hw', msgs[i + 1..])
            && frames + PackFrom(mutateId, maxFrameBytes, frame, Survivors(hw, msgs[i..])) ==
               frames' + PackFrom(mutateId, maxFrameBytes, frame', Survivors(hw', msgs[i + 1..]))
            && (!skip ==> TotalSize(frame') == (if full then 0 else TotalSize(frame)) + m.size)
  {
    var m := msgs[i];
    assert msgs[i..][1..] == msgs[i + 1..];
    if Mark(hw, m.topic) < m.id {
      var rest := Survivors(hw[m.topic := m.id], msgs[i + 1..]);
      assert ([m] + rest)[1..] == rest;
      assert [] + [m] == [m];
      TotalSizeConcat(frame, [m]);
      assert TotalSize([m]) == m.size by { assert [m][1..] == []; }
    }
  }
}
