/** What a Mutate means, topic by topic: it depends on the set of removed topics and on the lowest
    cursor requested for each added topic, not on the order or repetition of either list. */
module MutateMeaning {
  import opened Rows
  import opened WaveScan
  import opened Fetcher
  import opened Frames
  import opened Writer
  import opened Bookkeeping
  import opened MutateShape
  import opened TopicSlice
  import opened LogSteps
  import opened AnswerCount
  import WriterRuns

  // ----- parsing -----

  /** Bytes that name some topic: a kind byte, 0 or 1, and at least one byte more. */
  predicate GoodWire(wire: seq<byte>) { |wire| >= 2 && (wire[0] == 0 || wire[0] == 1) }

  /** Bytes that name this topic: 0 for a group or 1 for a welcome, then its identifier. */
  predicate Names(wire: seq<byte>, t: Topic) {
    t.ident != [] && wire == [if t.kind == Group then 0 else 1] + t.ident
  }

  /** Splitting accepts exactly the bytes that name a topic, and finds that topic. */
  lemma SplitMeans(wire: seq<byte>, t: Topic)
    ensures SplitTopic(wire) == Some(t) <==> Names(wire, t)
    ensures SplitTopic(wire).Some? <==> GoodWire(wire)
  {
    if GoodWire(wire) { assert wire == [wire[0]] + wire[1..]; }
    if Names(wire, t) { assert wire[1..] == t.ident; }
  }

  /** On the bytes themselves: 0 and an identifier is that group, 1 and an identifier that welcome
      topic; without an identifier, or with any other first byte, no topic is named. */
  lemma SplitWires(kind: byte, ident: seq<byte>)
    ensures SplitTopic([kind] + ident) ==
            if ident != [] && kind == 0 then Some(Topic(Group, ident))
            else if ident != [] && kind == 1 then Some(Topic(Welcome, ident))
            else None
    ensures SplitTopic([]) == None
  {
    assert ([kind] + ident)[1..] == ident;
  }

  /** Whether some add of the list names the topic at this cursor. */
  ghost predicate Requests(adds: seq<AddReq>, t: Topic, cursor: nat) {
    exists i :: 0 <= i < |adds| && Names(adds[i].wire, t) && adds[i].cursor == cursor
  }

  /** The cursor is the lowest at which the list adds the topic. */
  ghost predicate Wants(adds: seq<AddReq>, t: Topic, cursor: nat) {
    Requests(adds, t, cursor) && forall c :: Requests(adds, t, c) ==> cursor <= c
  }

  predicate GoodAdds(adds: seq<AddReq>) { forall a :: a in adds ==> GoodWire(a.wire) }

  /** Parsing keeps, for exactly the topics requested, the lowest cursor requested. */
  ghost predicate Lowest(p: Parsed, adds: seq<AddReq>) {
    && (forall t :: t in p.cursors ==> Requests(adds, t, p.cursors[t]))
    && (forall t, c :: Requests(adds, t, c) ==> t in p.cursors && p.cursors[t] <= c)
  }

  lemma LowestIsWanted(p: Parsed, adds: seq<AddReq>)
    requires Lowest(p, adds)
    ensures forall t, c :: Wants(adds, t, c) <==> t in p.cursors && p.cursors[t] == c
  {
    hide Requests;
    forall t, c ensures Wants(adds, t, c) <==> t in p.cursors && p.cursors[t] == c {
      if Wants(adds, t, c) { assert Requests(adds, t, p.cursors[t]); }
    }
  }

  lemma RequestsSnoc(adds: seq<AddReq>, a: AddReq, t: Topic, c: nat)
    ensures Requests(adds + [a], t, c) <==> Requests(adds, t, c) || (Names(a.wire, t) && a.cursor == c)
  {
    hide Names;
    var all := adds + [a];
    if Requests(adds, t, c) {
      var i :| 0 <= i < |adds| && Names(adds[i].wire, t) && adds[i].cursor == c;
      assert all[i] == adds[i];
    }
    if Names(a.wire, t) && a.cursor == c { assert all[|adds|] == a; }
  }

  /** Parsing succeeds exactly on adds that all name topics. */
  lemma {:induction false} ParseSucceeds(p: Parsed, adds: seq<AddReq>)
    ensures ParseAdds(p, adds).Some? <==> GoodAdds(adds)
    decreases |adds|
  {
    if adds != [] {
      var wire := adds[0].wire;
      SplitMeans(wire, if SplitTopic(wire).Some? then SplitTopic(wire).value else Topic(Group, []));
      assert adds == [adds[0]] + adds[1..];
      hide SplitTopic, GoodWire;
      if SplitTopic(wire).Some? { ParseSucceeds(ParseOne(p, SplitTopic(wire).value, adds[0].cursor), adds[1..]); }
    }
  }

  lemma {:induction false} ParseLowest(done: seq<AddReq>, p: Parsed, rest: seq<AddReq>)
    requires Lowest(p, done)
    ensures ParseAdds(p, rest).Some? ==> Lowest(ParseAdds(p, rest).value, done + rest)
    decreases |rest|
  {
    if rest == [] {
      assert done + rest == done;
    } else if SplitTopic(rest[0].wire).Some? {
      var p' := ParseOne(p, SplitTopic(rest[0].wire).value, rest[0].cursor);
      forall t, c
        ensures Requests(done + [rest[0]], t, c) <==>
                (Requests(done, t, c) || (SplitTopic(rest[0].wire) == Some(t) && rest[0].cursor == c))
      {
        RequestsSnoc(done, rest[0], t, c);
        SplitMeans(rest[0].wire, t);
      }
      hide SplitTopic, Requests;
      assert Lowest(p', done + [rest[0]]);
      ParseLowest(done + [rest[0]], p', rest[1..]);
      assert (done + [rest[0]]) + rest[1..] == done + rest;
    }
  }

  /** What parsing a request's adds yields. */
  lemma ParseMeans(adds: seq<AddReq>)
    ensures ParseAdds(Parsed([], map[]), adds).Some? <==> GoodAdds(adds)
    ensures GoodAdds(adds) ==>
              var p := ParseAdds(Parsed([], map[]), adds).value;
              Lowest(p, adds) && forall t, c :: Wants(adds, t, c) <==> t in p.cursors && p.cursors[t] == c
  {
    hide ParseAdds, Lowest, Wants, GoodAdds;
    ParseSucceeds(Parsed([], map[]), adds);
    NothingParsed();
    ParseLowest([], Parsed([], map[]), adds);
    assert [] + adds == adds;
    if GoodAdds(adds) { LowestIsWanted(ParseAdds(Parsed([], map[]), adds).value, adds); }
  }

  lemma NothingParsed()
    ensures Lowest(Parsed([], map[]), [])
  {
  }

  // ----- one topic's fate -----

  predicate IsActive(sl: Slice) { sl.sub || sl.gated }

  /** The topic may be added: it is not in a history_only wave, and a history_only request does
      not target a live topic. */
  predicate Addable(sl: Slice, historyOnly: bool) {
    !(sl.wave.Some? && !IsActive(sl)) && !(IsActive(sl) && historyOnly)
  }

  /** The add is not a no-op: the topic is not active, or the cursor lies below its mark. */
  predicate Takes(sl: Slice, cursor: nat) {
    !(IsActive(sl) && cursor >= sl.mark)
  }

  /** The slice of a topic the stream does not have. */
  const GONE := Slice(false, false, [], None, 0, false, 0, 0)

  /** A topic's slice after the removes. */
  function AfterRemoves(s: State, removed: set<Topic>, t: Topic): Slice {
    if t in removed then GONE else SliceOf(s, t)
  }

  /** The topics a Mutate registers, with their floors. */
  function Added(s: State, removed: set<Topic>, cursors: map<Topic, nat>): map<Topic, nat> {
    map t | t in cursors && Takes(AfterRemoves(s, removed, t), cursors[t]) :: cursors[t]
  }

  function Merged(m: map<Topic, nat>, gone: set<Topic>, added: map<Topic, nat>): map<Topic, nat> { (m - gone) + added }

  function Rejoined(m: set<Topic>, gone: set<Topic>, live: set<Topic>): set<Topic> { (m - gone) + live }

  function Minus<V>(m: map<Topic, V>, gone: set<Topic>): map<Topic, V> { m - gone }

  function Live(added: map<Topic, nat>, historyOnly: bool): set<Topic> { if historyOnly then {} else added.Keys }

  /** `d` is `s` with the topics of `gone` removed and those of `added` registered. */
  ghost predicate Reached(s: State, d: State, gone: set<Topic>, added: map<Topic, nat>, historyOnly: bool) {
    var live := Live(added, historyOnly);
    && d.highWater == Merged(s.highWater, gone, added)
    && d.subscribed == Rejoined(s.subscribed, gone, live)
    && d.live == Rejoined(s.live, gone, live)
    && d.catchingUp == Rejoined(s.catchingUp, gone, live)
    && d.topicWave == Minus(s.topicWave, gone)
    && d.pending == Minus(s.pending, gone)
    && d.nextWave == s.nextWave && d.halfClosed == s.halfClosed
    && WavesKept(s, d)
  }

  lemma DropWaves(s: State, t: Topic)
    ensures forall v :: v in DropTopic(s, t).waves ==>
              v in s.waves && DropTopic(s, t).waves[v] == s.waves[v].(owned := DropTopic(s, t).waves[v].owned)
  {
    SilenceFields(s, t);
    hide Silence;
  }

  lemma MapMinus<V>(m: map<Topic, V>, gone: set<Topic>, t: Topic)
    ensures m - (gone + {t}) == m - gone - {t}
  {
  }

  lemma SetMinus(m: set<Topic>, gone: set<Topic>, t: Topic)
    ensures m - (gone + {t}) == m - gone - {t}
    ensures m - (gone + {t}) + {} == m - gone + {} - {t}
  {
  }

  /** Removing or re-registering one topic, in a map and in a set. */
  lemma MapPut(m: map<Topic, nat>, gone: set<Topic>, added: map<Topic, nat>, w: map<Topic, nat>, t: Topic, cursor: nat)
    requires w - {t} == ((m - gone) + added) - {t} && t !in added
    ensures w[t := cursor] == (m - (gone + {t})) + added[t := cursor]
    ensures added[t := cursor].Keys == added.Keys + {t}
  {
    forall x | x in w && x != t ensures x in ((m - gone) + added) - {t} && w[x] == ((m - gone) + added)[x] {
      assert x in w - {t};
    }
    forall x | x in (m - gone) + added && x != t ensures x in w {
      assert x in ((m - gone) + added) - {t};
    }
  }

  lemma SetPut(m: set<Topic>, gone: set<Topic>, live: set<Topic>, w: set<Topic>, t: Topic)
    requires w == ((m - gone) + live) - {t} && t !in live
    ensures w + {t} == (m - (gone + {t})) + (live + {t})
    ensures w == (m - (gone + {t})) + live
  {
  }

  ghost predicate WavesKept(s: State, d: State) {
    forall v :: v in d.waves ==> v in s.waves && d.waves[v] == s.waves[v].(owned := d.waves[v].owned)
  }

  /** `w` is `d` without topic `t`. */
  ghost predicate Without(d: State, w: State, t: Topic) {
    && w.highWater - {t} == d.highWater - {t}
    && w.subscribed == d.subscribed - {t} && w.live == d.live - {t} && w.catchingUp == d.catchingUp - {t}
    && w.topicWave == d.topicWave - {t} && w.pending == d.pending - {t}
    && w.nextWave == d.nextWave && w.halfClosed == d.halfClosed && WavesKept(d, w)
  }

  lemma DropWithout(d: State, t: Topic)
    requires d.pending.Keys <= d.catchingUp
    ensures Without(d, DropTopic(d, t), t) && DropTopic(d, t).highWater == d.highWater - {t}
  {
    DropFields(d, t);
    DropWaves(d, t);
    hide DropTopic;
    assert t !in d.catchingUp ==> d.pending - {t} == d.pending by {
      assert t !in d.catchingUp ==> t !in d.pending.Keys;
    }
    assert d.highWater - {t} - {t} == d.highWater - {t};
  }

  lemma RemoveReaches(s: State, d: State, w: State, gone: set<Topic>, t: Topic)
    requires Reached(s, d, gone, map[], false) && Without(d, w, t) && w.highWater == d.highWater - {t}
    ensures Reached(s, w, gone + {t}, map[], false)
  {
    MapMinus(s.highWater, gone, t);
    MapMinus(s.topicWave, gone, t);
    MapMinus(s.pending, gone, t);
    SetMinus(s.subscribed, gone, t);
    SetMinus(s.live, gone, t);
    SetMinus(s.catchingUp, gone, t);
    var none: map<Topic, nat> := map[];
    assert none.Keys == {};
    assert (s.highWater - gone) + none == s.highWater - gone;
    assert (s.highWater - (gone + {t})) + none == s.highWater - (gone + {t});
  }

  lemma DropReaches(s: State, d: State, gone: set<Topic>, t: Topic)
    requires Reached(s, d, gone, map[], false) && d.pending.Keys <= d.catchingUp
    ensures Reached(s, DropTopic(d, t), gone + {t}, map[], false)
  {
    hide Reached, DropTopic;
    DropWithout(d, t);
    RemoveReaches(s, d, DropTopic(d, t), gone, t);
  }

  /** The set of topics a list of removes names. */
  function RemoveSet(removes: seq<seq<byte>>): set<Topic> {
    set r | r in removes && GoodWire(r) :: Topic(if r[0] == 0 then Group else Welcome, r[1..])
  }

  predicate Parses(removes: seq<seq<byte>>) {
    forall r :: r in removes ==> GoodWire(r)
  }

  lemma ParsesTail(removes: seq<seq<byte>>)
    requires removes != []
    ensures Parses(removes) <==> SplitTopic(removes[0]).Some? && Parses(removes[1..])
    ensures RemoveSet(removes)
         == (if SplitTopic(removes[0]).Some? then {SplitTopic(removes[0]).value} else {}) + RemoveSet(removes[1..])
  {
    assert removes == [removes[0]] + removes[1..];
    assert forall r :: r in removes <==> r == removes[0] || r in removes[1..];
    var wire := removes[0];
    SplitMeans(wire, if SplitTopic(wire).Some? then SplitTopic(wire).value else Topic(Group, []));
  }

  lemma SoundPending(s: State, limbo: set<Topic>, newlyLive: nat, mutateId: nat)
    requires Sound(s, limbo, newlyLive, mutateId)
    ensures s.pending.Keys <= s.catchingUp <= s.subscribed && s.live == s.subscribed
  {
    hide Logs, Tags, InFlight;
  }

  /** The removes succeed exactly when they all parse, and leave the set removed. */
  lemma {:induction false} DropAllReaches(s: State, d: State, gone: set<Topic>, removes: seq<seq<byte>>, mutateId: nat)
    requires Sound(d, {}, 0, mutateId) && Reached(s, d, gone, map[], false)
    ensures DropAll(d, removes).1 == Continue <==> Parses(removes)
    ensures Parses(removes) ==>
              && Reached(s, DropAll(d, removes).0, gone + RemoveSet(removes), map[], false)
              && Sound(DropAll(d, removes).0, {}, 0, mutateId)
    decreases |removes|
  {
    hide Sound, Reached, DropTopic, SplitTopic, Parses, RemoveSet;
    if removes == [] {
      NoneParses();
      assert gone + {} == gone;
    } else {
      ParsesTail(removes);
      if SplitTopic(removes[0]).Some? {
        var t := SplitTopic(removes[0]).value;
        DropOneReaches(s, d, gone, t, mutateId);
        DropAllReaches(s, DropTopic(d, t), gone + {t}, removes[1..], mutateId);
        assert RemoveSet(removes) == {t} + RemoveSet(removes[1..]);
        assert (gone + {t}) + RemoveSet(removes[1..]) == gone + RemoveSet(removes);
      }
    }
  }

  lemma DropOneReaches(s: State, d: State, gone: set<Topic>, t: Topic, mutateId: nat)
    requires Sound(d, {}, 0, mutateId) && Reached(s, d, gone, map[], false)
    ensures Sound(DropTopic(d, t), {}, 0, mutateId) && Reached(s, DropTopic(d, t), gone + {t}, map[], false)
  {
    hide Sound, Reached, DropTopic;
    SoundPending(d, {}, 0, mutateId);
    DropReaches(s, d, gone, t);
    DropSound(d, t, {}, 0, mutateId);
  }

  lemma NoneParses()
    ensures Parses([]) && RemoveSet([]) == {}
  {
  }

  // ----- the adds -----

  lemma AddOneCases(a: Adding, t: Topic, cursor: nat, mutateId: nat, historyOnly: bool)
    ensures var sl, r := SliceOf(a.s, t), AddOne(a, t, cursor, mutateId, historyOnly);
            && (r.1 == Continue <==> Addable(sl, historyOnly))
            && (Addable(sl, historyOnly) && !Takes(sl, cursor) ==> r.0 == a)
            && (Addable(sl, historyOnly) && Takes(sl, cursor) ==>
                  r.0.s == Register(if IsActive(sl) then DropTopic(a.s, t) else a.s, t, cursor, mutateId, historyOnly))
  {
    hide DropTopic, Register;
  }

  lemma RegisterReaches(s: State, d: State, w: State, gone: set<Topic>, added: map<Topic, nat>, t: Topic, cursor: nat,
                        mutateId: nat, historyOnly: bool)
    requires Reached(s, d, gone, added, historyOnly) && Without(d, w, t) && t !in added
    ensures Reached(s, Register(w, t, cursor, mutateId, historyOnly), gone + {t}, added[t := cursor], historyOnly)
  {
    var live := if historyOnly then {} else added.Keys;
    MapPut(s.highWater, gone, added, w.highWater, t, cursor);
    MapMinus(s.topicWave, gone, t);
    MapMinus(s.pending, gone, t);
    SetPut(s.subscribed, gone, live, w.subscribed, t);
    SetPut(s.live, gone, live, w.live, t);
    SetPut(s.catchingUp, gone, live, w.catchingUp, t);
  }

  lemma AddOneReaches(s0: State, s: State, a: Adding, gone: set<Topic>, added: map<Topic, nat>, t: Topic, cursor: nat,
                      mutateId: nat, historyOnly: bool)
    requires WriterRuns.AddingSound(s0, a, added.Keys, mutateId) && Reached(s, a.s, gone, added, historyOnly)
    requires t !in added
    requires Addable(SliceOf(a.s, t), historyOnly) && Takes(SliceOf(a.s, t), cursor)
    ensures Reached(s, AddOne(a, t, cursor, mutateId, historyOnly).0.s, gone + {t}, added[t := cursor], historyOnly)
  {
    hide Reached, DropTopic, Register, WriterRuns.AddingSound, AddOne, Without;
    var d := a.s;
    var w := if IsActive(SliceOf(d, t)) then DropTopic(d, t) else d;
    AddOneCases(a, t, cursor, mutateId, historyOnly);
    AddingPending(s0, a, added.Keys, mutateId);
    if IsActive(SliceOf(d, t)) { DropWithout(d, t); } else { Inactive(d, t); }
    RegisterReaches(s, d, w, gone, added, t, cursor, mutateId, historyOnly);
  }

  lemma AddingPending(s0: State, a: Adding, limbo: set<Topic>, mutateId: nat)
    requires WriterRuns.AddingSound(s0, a, limbo, mutateId)
    ensures a.s.pending.Keys <= a.s.catchingUp <= a.s.subscribed && a.s.live == a.s.subscribed
  {
    hide Sound;
    SoundPending(a.s, limbo, a.newlyLive, mutateId);
  }

  /** A topic that is neither active nor in a wave is already gone, but for its mark. */
  lemma Inactive(d: State, t: Topic)
    requires d.pending.Keys <= d.catchingUp <= d.subscribed && d.live == d.subscribed
    requires !IsActive(SliceOf(d, t)) && SliceOf(d, t).wave.None?
    ensures Without(d, d, t)
  {
    assert t !in d.pending.Keys;
    assert d.pending - {t} == d.pending && d.topicWave - {t} == d.topicWave;
  }

  /** An add leaves every other topic's slice alone. */
  lemma AddOneOther(a: Adding, t: Topic, cursor: nat, mutateId: nat, historyOnly: bool, x: Topic)
    requires x != t
    ensures SliceOf(AddOne(a, t, cursor, mutateId, historyOnly).0.s, x) == SliceOf(a.s, x)
  {
    AddOneCases(a, t, cursor, mutateId, historyOnly);
    DropOther(a.s, t, x);
    RegisterOther(a.s, t, cursor, mutateId, historyOnly, x);
    RegisterOther(DropTopic(a.s, t), t, cursor, mutateId, historyOnly, x);
    hide DropTopic, Register, SliceOf;
  }

  /** What the rest of the list adds, each topic judged by its slice before the loop. */
  function AddedBy(before: State, order: seq<Topic>, cursors: map<Topic, nat>): map<Topic, nat>
    requires forall t :: t in order ==> t in cursors
  {
    map t | t in order && Takes(SliceOf(before, t), cursors[t]) :: cursors[t]
  }

  /** The add loop succeeds exactly when every topic is addable, and registers exactly those whose
      add is not a no-op. */
  lemma {:induction false} AddAllReaches(s0: State, s: State, before: State, a: Adding, gone: set<Topic>,
                                         added: map<Topic, nat>, order: seq<Topic>, cursors: map<Topic, nat>,
                                         mutateId: nat, historyOnly: bool)
    requires WriterRuns.AddingSound(s0, a, added.Keys, mutateId) && Reached(s, a.s, gone, added, historyOnly)
    requires order != [] ==> mutateId != 0
    requires forall t :: t in order ==> t in cursors && t !in added && SliceOf(a.s, t) == SliceOf(before, t)
    requires forall i, j :: 0 <= i < j < |order| ==> order[i] != order[j]
    ensures var r := AddAll(a, order, cursors, mutateId, historyOnly);
            && (r.1 == Continue <==> forall t :: t in order ==> Addable(SliceOf(before, t), historyOnly))
            && (r.1 == Continue ==>
                  var more := AddedBy(before, order, cursors);
                  && Reached(s, r.0.s, gone + more.Keys, added + more, historyOnly)
                  && WriterRuns.AddingSound(s0, r.0, (added + more).Keys, mutateId))
    decreases |order|
  {
    hide WriterRuns.AddingSound, Reached, AddOne, SliceOf, Takes, Addable;
    if order == [] {
      NothingAdded(before, cursors, gone, added);
    } else {
      var t, rest := order[0], order[1..];
      assert order == [t] + rest;
      AddOneCases(a, t, cursors[t], mutateId, historyOnly);
      var (a', v) := AddOne(a, t, cursors[t], mutateId, historyOnly);
      if v == Continue {
        OthersWait(before, a, t, cursors[t], mutateId, historyOnly, rest);
        AddedSplit(before, t, rest, cursors);
        if Takes(SliceOf(before, t), cursors[t]) {
          AddOneReaches(s0, s, a, gone, added, t, cursors[t], mutateId, historyOnly);
          AddOneGrows(s0, a, t, cursors[t], mutateId, historyOnly, added);
          AddAllReaches(s0, s, before, a', gone + {t}, added[t := cursors[t]], rest, cursors, mutateId, historyOnly);
          MergeMore(gone, added, AddedBy(before, rest, cursors), t, cursors[t]);
        } else {
          AddAllReaches(s0, s, before, a', gone, added, rest, cursors, mutateId, historyOnly);
        }
      }
    }
  }

  lemma NothingAdded(before: State, cursors: map<Topic, nat>, gone: set<Topic>, added: map<Topic, nat>)
    ensures var more := AddedBy(before, [], cursors); gone + more.Keys == gone && added + more == added
  {
    assert AddedBy(before, [], cursors).Keys == {};
  }

  lemma OthersWait(before: State, a: Adding, t: Topic, cursor: nat, mutateId: nat, historyOnly: bool, rest: seq<Topic>)
    requires forall x :: x in rest ==> x != t && SliceOf(a.s, x) == SliceOf(before, x)
    ensures forall x :: x in rest ==> SliceOf(AddOne(a, t, cursor, mutateId, historyOnly).0.s, x) == SliceOf(before, x)
  {
    hide AddOne, SliceOf;
    forall x | x in rest ensures SliceOf(AddOne(a, t, cursor, mutateId, historyOnly).0.s, x) == SliceOf(before, x) {
      AddOneOther(a, t, cursor, mutateId, historyOnly, x);
    }
  }

  lemma MergeMore(gone: set<Topic>, added: map<Topic, nat>, more: map<Topic, nat>, t: Topic, cursor: nat)
    requires t !in more
    ensures added[t := cursor] + more == added + more[t := cursor]
    ensures (gone + {t}) + more.Keys == gone + (more.Keys + {t})
  {
  }

  lemma AddedSplit(before: State, t: Topic, rest: seq<Topic>, cursors: map<Topic, nat>)
    requires t in cursors && (forall x :: x in rest ==> x in cursors) && t !in rest
    ensures var all, more := AddedBy(before, [t] + rest, cursors), AddedBy(before, rest, cursors);
            && all == (if Takes(SliceOf(before, t), cursors[t]) then more[t := cursors[t]] else more)
            && all.Keys == (if Takes(SliceOf(before, t), cursors[t]) then more.Keys + {t} else more.Keys)
            && t !in more
  {
    hide SliceOf, Takes;
  }

  /** A taken add extends limbo by its topic. */
  lemma AddOneGrows(s0: State, a: Adding, t: Topic, cursor: nat, mutateId: nat, historyOnly: bool,
                    added: map<Topic, nat>)
    requires WriterRuns.AddingSound(s0, a, added.Keys, mutateId) && t !in added && mutateId != 0
    requires Addable(SliceOf(a.s, t), historyOnly) && Takes(SliceOf(a.s, t), cursor)
    ensures WriterRuns.AddingSound(s0, AddOne(a, t, cursor, mutateId, historyOnly).0, added[t := cursor].Keys, mutateId)
  {
    AddOneCases(a, t, cursor, mutateId, historyOnly);
    assert added[t := cursor].Keys == added.Keys + {t};
    assert t in a.s.topicWave ==> Active(a.s, t);
    hide WriterRuns.AddingSound, DropTopic, Register, AddOne;
    WriterRuns.AddOneSound(s0, a, t, cursor, mutateId, historyOnly, added.Keys);
  }

  // ----- kinds -----

  ghost predicate Sorted(groupAdds: seq<Add>, welcomeAdds: seq<Add>) {
    (forall x :: x in groupAdds ==> x.topic.kind == Group) && (forall x :: x in welcomeAdds ==> x.topic.kind == Welcome)
  }

  lemma {:induction false} AddAllSorted(a: Adding, order: seq<Topic>, cursors: map<Topic, nat>, mutateId: nat,
                                        historyOnly: bool)
    requires Sorted(a.groupAdds, a.welcomeAdds) && forall t :: t in order ==> t in cursors
    ensures var r := AddAll(a, order, cursors, mutateId, historyOnly).0; Sorted(r.groupAdds, r.welcomeAdds)
    decreases |order|
  {
    hide DropTopic, Register;
    if order != [] {
      var next := AddOne(a, order[0], cursors[order[0]], mutateId, historyOnly).0;
      AddAllSorted(next, order[1..], cursors, mutateId, historyOnly);
    }
  }

  predicate HasKind(topics: set<Topic>, k: Kind) { exists t :: t in topics && t.kind == k }

  lemma ScansOfKinds(groupAdds: seq<Add>, welcomeAdds: seq<Add>, limbo: set<Topic>)
    requires Sorted(groupAdds, welcomeAdds) && Enumerates(Collected(groupAdds, welcomeAdds), limbo)
    ensures groupAdds != [] <==> HasKind(limbo, Group)
    ensures welcomeAdds != [] <==> HasKind(limbo, Welcome)
    ensures |groupAdds| + |welcomeAdds| > 0 <==> limbo != {}
    ensures |groupAdds| + |welcomeAdds| == |limbo|
  {
    TopicsOfMember(groupAdds);
    TopicsOfMember(welcomeAdds);
    var gs, ws := TopicsOf(groupAdds), TopicsOf(welcomeAdds);
    hide TopicsOf;
    if groupAdds != [] { assert gs[0] in gs + ws && groupAdds[0] in groupAdds; }
    if welcomeAdds != [] { assert ws[0] in gs + ws && welcomeAdds[0] in welcomeAdds; }
    forall t | t in limbo ensures if t.kind == Group then groupAdds != [] else welcomeAdds != [] {
      assert t in gs + ws;
      if t in gs {
        var i :| 0 <= i < |gs| && gs[i] == t;
        assert groupAdds[i] in groupAdds;
      } else {
        var i :| 0 <= i < |ws| && ws[i] == t;
        assert welcomeAdds[i] in welcomeAdds;
      }
    }
  }

  // ----- the whole Mutate -----

  /** After the removes, a topic's fate is that of its slice before them, or of no slice at all. */
  lemma SameFate(s: State, d: State, removed: set<Topic>, t: Topic, historyOnly: bool)
    requires Reached(s, d, removed, map[], false)
    ensures forall c :: Takes(SliceOf(d, t), c) == Takes(AfterRemoves(s, removed, t), c)
    ensures Addable(SliceOf(d, t), historyOnly) == Addable(AfterRemoves(s, removed, t), historyOnly)
  {
    var a, b := SliceOf(d, t), AfterRemoves(s, removed, t);
    var none: map<Topic, nat> := map[];
    assert none.Keys == {};
    assert a.sub == b.sub && a.gated == b.gated && a.wave == b.wave && a.mark == b.mark;
  }

  lemma NothingYetAdded(s: State, d: State, removed: set<Topic>, historyOnly: bool)
    requires Reached(s, d, removed, map[], false)
    ensures Reached(s, d, removed, map[], historyOnly)
  {
    var none: map<Topic, nat> := map[];
    assert none.Keys == {};
  }

  /** The removes of a request, from where it finds the writer. */
  lemma RemovesMean(s: State, m: MutateReq)
    requires Sound(s, {}, 0, m.mutateId)
    ensures DropAll(s, m.removes).1 == Continue <==> Parses(m.removes)
    ensures Parses(m.removes) ==>
              && Reached(s, DropAll(s, m.removes).0, RemoveSet(m.removes), map[], false)
              && Sound(DropAll(s, m.removes).0, {}, 0, m.mutateId)
  {
    hide Sound, Reached, DropAll, Parses;
    SelfReached(s);
    DropAllReaches(s, s, {}, m.removes, m.mutateId);
    assert {} + RemoveSet(m.removes) == RemoveSet(m.removes);
  }

  /** The adds of a request, after its removes. */
  lemma AddsMean(s: State, s1: State, removed: set<Topic>, p: Parsed, mutateId: nat, historyOnly: bool)
    requires Sound(s1, {}, 0, mutateId) && Reached(s, s1, removed, map[], false) && (p.order != [] ==> mutateId != 0)
    requires forall t :: t in p.order <==> t in p.cursors
    requires forall i, j :: 0 <= i < j < |p.order| ==> p.order[i] != p.order[j]
    ensures var r := AddAll(Adding(s1, [], [], 0), p.order, p.cursors, mutateId, historyOnly);
            var added := Added(s, removed, p.cursors);
            && (r.1 == Continue <==> forall t :: t in p.cursors ==> Addable(AfterRemoves(s, removed, t), historyOnly))
            && (r.1 == Continue ==> LoopEnd(s, s1, r.0, removed, added, mutateId, historyOnly))
  {
    hide Sound, Reached, AddAll, SliceOf, Takes, Addable, AfterRemoves, WriterRuns.AddingSound;
    var a0, none: map<Topic, nat> := Adding(s1, [], [], 0), map[];
    NothingYetAdded(s, s1, removed, historyOnly);
    forall t ensures (forall c :: Takes(SliceOf(s1, t), c) == Takes(AfterRemoves(s, removed, t), c))
                     && Addable(SliceOf(s1, t), historyOnly) == Addable(AfterRemoves(s, removed, t), historyOnly)
    {
      SameFate(s, s1, removed, t, historyOnly);
    }
    StartsAdding(s1, mutateId);
    AddAllReaches(s1, s, s1, a0, removed, none, p.order, p.cursors, mutateId, historyOnly);
    AddAllSorted(a0, p.order, p.cursors, mutateId, historyOnly);
    var more := AddedBy(s1, p.order, p.cursors);
    assert more == Added(s, removed, p.cursors);
    assert none + more == more;
  }

  /** Where a successful add loop ends. */
  ghost predicate LoopEnd(s: State, s1: State, a: Adding, removed: set<Topic>, added: map<Topic, nat>, mutateId: nat,
                          historyOnly: bool) {
    && Reached(s, a.s, removed + added.Keys, added, historyOnly)
    && WriterRuns.AddingSound(s1, a, added.Keys, mutateId)
    && Sorted(a.groupAdds, a.welcomeAdds)
  }

  /** Exactly when the removes and the add loop of a parsed request go through, and what they leave. */
  lemma LoopsMean(s: State, m: MutateReq)
    requires Sound(s, {}, 0, m.mutateId) && (m.adds != [] ==> m.mutateId != 0)
    requires ParseAdds(Parsed([], map[]), m.adds).Some?
    ensures DropAll(s, m.removes).1 == Continue <==> Parses(m.removes)
    ensures Parses(m.removes) ==>
              var removed, cursors := RemoveSet(m.removes), ParseAdds(Parsed([], map[]), m.adds).value.cursors;
              && (RunAdds(s, m).1 == Continue <==>
                    forall t :: t in cursors ==> Addable(AfterRemoves(s, removed, t), m.historyOnly))
              && (RunAdds(s, m).1 == Continue ==>
                    LoopEnd(s, DropAll(s, m.removes).0, RunAdds(s, m).0, removed, Added(s, removed, cursors),
                            m.mutateId, m.historyOnly))
  {
    hide Sound, Reached, DropAll, AddAll, ParseAdds, Addable, AfterRemoves, LoopEnd, Added;
    var p0 := Parsed([], map[]);
    ParseKeepsOrder(p0, m.adds);
    ParseDistinct(p0, m.adds);
    WriterRuns.NoOrder(m.adds);
    RemovesMean(s, m);
    if Parses(m.removes) {
      AddsMean(s, DropAll(s, m.removes).0, RemoveSet(m.removes), ParseAdds(p0, m.adds).value, m.mutateId,
               m.historyOnly);
    }
  }

  lemma SelfReached(s: State)
    ensures Reached(s, s, {}, map[], false)
  {
    var none: map<Topic, nat> := map[];
    assert none.Keys == {};
    assert (s.highWater - {}) + none == s.highWater;
    assert s.topicWave - {} == s.topicWave && s.pending - {} == s.pending;
  }

  lemma StartsAdding(s: State, mutateId: nat)
    requires Sound(s, {}, 0, mutateId)
    ensures var none: map<Topic, nat> := map[]; WriterRuns.AddingSound(s, Adding(s, [], [], 0), none.Keys, mutateId)
  {
    var none: map<Topic, nat> := map[];
    assert none.Keys == {};
    hide Sound;
  }

  /** The checks a request must pass before anything changes, apart from parsing. */
  ghost predicate Admissible(cfg: Config, s: State, m: MutateReq) {
    && (m.adds != [] ==> m.mutateId != 0)
    && |m.adds| <= cfg.maxMutateAdds
    && (m.mutateId != 0 ==> !InFlight(s, m.mutateId))
  }

  lemma MutateIsLoops(cfg: Config, s: State, m: MutateReq)
    ensures Mutate(cfg, s, m).verdict == Continue <==>
              && Admissible(cfg, s, m) && ParseAdds(Parsed([], map[]), m.adds).Some?
              && DropAll(s, m.removes).1 == Continue && RunAdds(s, m).1 == Continue
  {
    hide DropAll, AddAll, ParseAdds, StartWave, InFlight;
  }

  lemma NotInFlight(cfg: Config, s: State, m: MutateReq)
    requires Sound(s, {}, 0, 0) && Admissible(cfg, s, m)
    ensures Sound(s, {}, 0, m.mutateId)
  {
    hide Book, Logs;
    WriterRuns.Unlimbo(s, 0, m.mutateId);
  }

  /** Exactly which requests succeed, on the parsed cursors. */
  lemma SucceedsOnCursors(cfg: Config, s: State, m: MutateReq)
    requires Sound(s, {}, 0, 0)
    ensures Mutate(cfg, s, m).verdict == Continue <==>
              && Admissible(cfg, s, m) && Parses(m.removes)
              && ParseAdds(Parsed([], map[]), m.adds).Some?
              && (forall t :: t in ParseAdds(Parsed([], map[]), m.adds).value.cursors ==>
                    Addable(AfterRemoves(s, RemoveSet(m.removes), t), m.historyOnly))
  {
    hide Sound, Mutate, DropAll, RunAdds, ParseAdds, AfterRemoves, Addable, Parses, LoopEnd, RemoveSet;
    MutateIsLoops(cfg, s, m);
    if Admissible(cfg, s, m) && ParseAdds(Parsed([], map[]), m.adds).Some? {
      NotInFlight(cfg, s, m);
      LoopsMean(s, m);
    }
  }

  /** A request the stream can serve: it passes the checks, every wire of it names a topic, and
      every topic it adds is addable once the topics it removes are gone. */
  ghost predicate Acceptable(cfg: Config, s: State, m: MutateReq) {
    && Admissible(cfg, s, m) && Parses(m.removes) && GoodAdds(m.adds)
    && forall t, c :: Requests(m.adds, t, c) ==> Addable(AfterRemoves(s, RemoveSet(m.removes), t), m.historyOnly)
  }

  /** Exactly which requests succeed: the acceptable ones. */
  lemma SucceedsExactly(cfg: Config, s: State, m: MutateReq)
    requires Sound(s, {}, 0, 0)
    ensures Mutate(cfg, s, m).verdict == Continue <==> Acceptable(cfg, s, m)
  {
    hide Sound, Mutate, Admissible, ParseAdds, AfterRemoves, Addable, Parses, Requests, Wants, GoodAdds, RemoveSet;
    SucceedsOnCursors(cfg, s, m);
    ParseMeans(m.adds);
  }

  /** With which code a request is refused: too many adds are the only exhausted resource, and only
      once the id has been checked; every other refusal is an invalid argument. */
  lemma RefusalCode(cfg: Config, s: State, m: MutateReq)
    ensures var v := Mutate(cfg, s, m).verdict;
            v == Continue || v == Fail(if (m.adds != [] ==> m.mutateId != 0) && |m.adds| > cfg.maxMutateAdds
                                       then ResourceExhausted else InvalidArgument)
  {
    hide DropTopic, Register, StartWave, InFlight, ParseAdds;
    DropCode(s, m.removes);
    if ParseAdds(Parsed([], map[]), m.adds).Some? {
      var p := ParseAdds(Parsed([], map[]), m.adds).value;
      ParseKeepsOrder(Parsed([], map[]), m.adds);
      AddCode(Adding(DropAll(s, m.removes).0, [], [], 0), p.order, p.cursors, m.mutateId, m.historyOnly);
    }
    hide DropAll, AddAll;
  }

  lemma {:induction false} DropCode(s: State, removes: seq<seq<byte>>)
    ensures DropAll(s, removes).1 == Continue || DropAll(s, removes).1 == Fail(InvalidArgument)
    decreases |removes|
  {
    hide DropTopic, SplitTopic;
    if removes != [] && SplitTopic(removes[0]).Some? {
      DropCode(DropTopic(s, SplitTopic(removes[0]).value), removes[1..]);
    }
  }

  lemma {:induction false} AddCode(a: Adding, order: seq<Topic>, cursors: map<Topic, nat>, mutateId: nat,
                                   historyOnly: bool)
    requires forall t :: t in order ==> t in cursors
    ensures var v := AddAll(a, order, cursors, mutateId, historyOnly).1; v == Continue || v == Fail(InvalidArgument)
    decreases |order|
  {
    hide DropTopic, Register;
    if order != [] {
      var (a', v) := AddOne(a, order[0], cursors[order[0]], mutateId, historyOnly);
      if v == Continue { AddCode(a', order[1..], cursors, mutateId, historyOnly); }
    }
  }

  /** What a successful Mutate leaves of each field: the removed and the registered topics are
      gone from it, and the registered ones are there afresh, in one new wave. */
  ghost predicate Effect(s: State, d: State, removed: set<Topic>, added: map<Topic, nat>, mutateId: nat,
                         historyOnly: bool) {
    var gone := removed + added.Keys;
    var live := Live(added, historyOnly);
    && d.highWater == Merged(s.highWater, gone, added)
    && d.subscribed == Rejoined(s.subscribed, gone, live)
    && d.catchingUp == Rejoined(s.catchingUp, gone, live)
    && d.pending == Minus(s.pending, gone)
    && d.topicWave == Minus(s.topicWave, gone) + InWave(added, s.nextWave)
    && d.halfClosed == s.halfClosed && d.nextWave == s.nextWave + (if added == map[] then 0 else 1)
    && (forall v :: v in d.waves && v != s.nextWave ==>
          v in s.waves && d.waves[v] == s.waves[v].(owned := d.waves[v].owned))
    && (s.nextWave in d.waves <==> added != map[])
    && (added != map[] ==> NewWave(d.waves[s.nextWave], added.Keys, mutateId))
  }

  function InWave(added: map<Topic, nat>, v: nat): map<Topic, nat> { map t | t in added :: v }

  lemma NoKeys(added: map<Topic, nat>)
    ensures added == map[] <==> added.Keys == {}
  {
  }

  ghost predicate NewWave(w: Wave, topics: set<Topic>, mutateId: nat) {
    && w.mutateId == mutateId && w.owned == |topics|
    && w.scansLeft == (if HasKind(topics, Group) then 1 else 0) + (if HasKind(topics, Welcome) then 1 else 0)
    && (forall t :: t in w.topics <==> t in topics)
  }

  lemma StartEffect(s: State, w: State, removed: set<Topic>, added: map<Topic, nat>, mutateId: nat, historyOnly: bool,
                    groupAdds: seq<Add>, welcomeAdds: seq<Add>)
    requires Reached(s, w, removed + added.Keys, added, historyOnly) && Waves(s)
    requires Enumerates(Collected(groupAdds, welcomeAdds), added.Keys) && Sorted(groupAdds, welcomeAdds)
    requires |groupAdds| + |welcomeAdds| > 0
    ensures Effect(s, StartWave(w, mutateId, groupAdds, welcomeAdds), removed, added, mutateId, historyOnly)
  {
    hide Sorted, Enumerates, Collected, NewWave, StartWave, Waves, HasKind, InWave, Merged, Rejoined, Minus, Live,
         TopicsOf, AssignWave, WavesKept;
    ScansOfKinds(groupAdds, welcomeAdds, added.Keys);
    NextIsNew(s);
    NoKeys(added);
    StartMaps(w, mutateId, groupAdds, welcomeAdds, added);
    NewWaveOf(w, mutateId, groupAdds, welcomeAdds, added.Keys);
    StartRest(w, mutateId, groupAdds, welcomeAdds);
    WavesKeptPut(s, w, StartWave(w, mutateId, groupAdds, welcomeAdds));
  }

  lemma NextIsNew(s: State)
    requires Waves(s)
    ensures s.nextWave !in s.waves
  {
  }

  lemma StartRest(w: State, mutateId: nat, groupAdds: seq<Add>, welcomeAdds: seq<Add>)
    ensures var d := StartWave(w, mutateId, groupAdds, welcomeAdds);
            && d.highWater == w.highWater && d.subscribed == w.subscribed && d.catchingUp == w.catchingUp
            && d.pending == w.pending
            && d.halfClosed == w.halfClosed && d.nextWave == w.nextWave + 1
            && w.nextWave in d.waves && d.waves == w.waves[w.nextWave := d.waves[w.nextWave]]
  {
    hide TopicsOf, AssignWave;
  }

  lemma WavesKeptPut(s: State, w: State, d: State)
    requires WavesKept(s, w) && s.nextWave in d.waves && d.waves == w.waves[s.nextWave := d.waves[s.nextWave]]
    ensures forall v :: v in d.waves && v != s.nextWave ==>
              v in s.waves && d.waves[v] == s.waves[v].(owned := d.waves[v].owned)
  {
  }

  lemma StartMaps(w: State, mutateId: nat, groupAdds: seq<Add>, welcomeAdds: seq<Add>, added: map<Topic, nat>)
    requires Enumerates(Collected(groupAdds, welcomeAdds), added.Keys)
    ensures StartWave(w, mutateId, groupAdds, welcomeAdds).topicWave == w.topicWave + InWave(added, w.nextWave)
  {
    hide TopicsOf;
    var topics := Collected(groupAdds, welcomeAdds);
    assert forall t :: t in added <==> t in added.Keys;
    assert (map t | t in topics :: w.nextWave) == InWave(added, w.nextWave);
    assert AssignWave(w.topicWave, topics, w.nextWave) == w.topicWave + InWave(added, w.nextWave);
  }

  lemma NewWaveOf(w: State, mutateId: nat, groupAdds: seq<Add>, welcomeAdds: seq<Add>, topics: set<Topic>)
    requires Sorted(groupAdds, welcomeAdds) && Enumerates(Collected(groupAdds, welcomeAdds), topics)
    ensures NewWave(StartWave(w, mutateId, groupAdds, welcomeAdds).waves[w.nextWave], topics, mutateId)
  {
    ScansOfKinds(groupAdds, welcomeAdds, topics);
    hide TopicsOf, HasKind, AssignWave, Sorted;
  }

  lemma AnswerEffect(s: State, w: State, removed: set<Topic>, mutateId: nat, historyOnly: bool, added: map<Topic, nat>)
    requires Reached(s, w, removed + added.Keys, added, historyOnly) && Waves(s) && added == map[]
    ensures Effect(s, w.(out := w.out + [CatchupComplete(mutateId)]), removed, added, mutateId, historyOnly)
  {
    assert s.nextWave !in s.waves;
    assert InWave(added, s.nextWave) == map[];
    assert Minus(s.topicWave, removed + added.Keys) + map[] == Minus(s.topicWave, removed + added.Keys);
  }

  lemma CountedReached(s: State, w: State, newlyLive: nat, gone: set<Topic>, added: map<Topic, nat>, historyOnly: bool)
    requires Reached(s, w, gone, added, historyOnly)
    ensures Reached(s, Counted(w, newlyLive), gone, added, historyOnly)
  {
  }

  /** A successful Mutate does exactly this to the writer: a topic among the adds is registered
      afresh at its lowest requested cursor unless it was still active above that cursor, in
      which case nothing happens to it; a topic in both lists is reset; every other removed topic
      is gone; no other topic is touched. */
  lemma MutateMeans(cfg: Config, s: State, m: MutateReq)
    requires Sound(s, {}, 0, 0) && Mutate(cfg, s, m).verdict == Continue
    ensures ParseAdds(Parsed([], map[]), m.adds).Some?
    ensures var p := ParseAdds(Parsed([], map[]), m.adds).value;
            && Lowest(p, m.adds)
            && Effect(s, Mutate(cfg, s, m).s, RemoveSet(m.removes), Added(s, RemoveSet(m.removes), p.cursors),
                      m.mutateId, m.historyOnly)
  {
    hide Sound, Mutate, DropAll, RunAdds, ParseAdds, Reached, Effect, Parses, AfterRemoves, Addable, StartWave,
         Sorted, Collected, Enumerates, Added, Lowest, Wants, GoodAdds, RemoveSet;
    MutateIsLoops(cfg, s, m);
    NotInFlight(cfg, s, m);
    LoopsMean(s, m);
    MutateUnfolds(cfg, s, m);
    ParseMeans(m.adds);
    var a := RunAdds(s, m).0;
    var removed := RemoveSet(m.removes);
    var added := Added(s, removed, ParseAdds(Parsed([], map[]), m.adds).value.cursors);
    CountedReached(s, a.s, a.newlyLive, removed + added.Keys, added, m.historyOnly);
    ScansOfKinds(a.groupAdds, a.welcomeAdds, added.Keys);
    SoundWavesOf(s);
    if |a.groupAdds| + |a.welcomeAdds| > 0 {
      StartEffect(s, Counted(a.s, a.newlyLive), removed, added, m.mutateId, m.historyOnly, a.groupAdds, a.welcomeAdds);
    } else {
      assert added.Keys == {};
      AnswerEffect(s, Counted(a.s, a.newlyLive), removed, m.mutateId, m.historyOnly, added);
    }
  }

  lemma SoundWavesOf(s: State)
    requires Sound(s, {}, 0, 0)
    ensures Waves(s)
  {
  }

  /** The topic starts over at the floor, in the new wave. */
  ghost predicate Afresh(s: State, d: State, t: Topic, floor: nat, historyOnly: bool) {
    && t in d.highWater && d.highWater[t] == floor && t !in d.pending
    && (t in d.subscribed <==> !historyOnly) && (t in d.catchingUp <==> !historyOnly)
    && t in d.topicWave && d.topicWave[t] == s.nextWave
  }

  ghost predicate Gone(d: State, t: Topic) {
    t !in d.highWater && t !in d.subscribed && t !in d.catchingUp && t !in d.topicWave && t !in d.pending
  }

  ghost predicate Untouched(s: State, d: State, t: Topic) {
    && (t in d.highWater <==> t in s.highWater) && (t in s.highWater ==> d.highWater[t] == s.highWater[t])
    && (t in d.subscribed <==> t in s.subscribed) && (t in d.catchingUp <==> t in s.catchingUp)
    && (t in d.topicWave <==> t in s.topicWave) && (t in s.topicWave ==> d.topicWave[t] == s.topicWave[t])
    && (t in d.pending <==> t in s.pending) && (t in s.pending ==> d.pending[t] == s.pending[t])
  }

  /** The same, read topic by topic. A topic whose lowest requested cursor is `c` starts over there,
      unless it stays subscribed and `c` is not below its mark: then nothing happens to it. A topic
      only in the removes is gone, and one in neither list is untouched. */
  lemma TopicFate(cfg: Config, s: State, m: MutateReq, t: Topic)
    requires Sound(s, {}, 0, 0) && Mutate(cfg, s, m).verdict == Continue
    ensures var d, removed := Mutate(cfg, s, m).s, exists r :: r in m.removes && Names(r, t);
            && (forall c :: Wants(m.adds, t, c) ==>
                  if !removed && (t in s.subscribed || t in s.catchingUp)
                     && c >= (if t in s.highWater then s.highWater[t] else 0)
                  then Untouched(s, d, t) else Afresh(s, d, t, c, m.historyOnly))
            && ((forall c :: !Requests(m.adds, t, c)) ==> if removed then Gone(d, t) else Untouched(s, d, t))
  {
    hide Sound, Mutate, ParseAdds, Effect, Lowest, Added, RemoveSet, Names, Requests, Wants, Afresh, Gone, Untouched;
    MutateMeans(cfg, s, m);
    var p, gone := ParseAdds(Parsed([], map[]), m.adds).value, RemoveSet(m.removes);
    LowestIsWanted(p, m.adds);
    LowestRequests(p, m.adds, t);
    SoundActive(s);
    InRemoveSet(m.removes, t);
    EffectFate(s, Mutate(cfg, s, m).s, gone, p.cursors, m.mutateId, m.historyOnly, t);
  }

  lemma LowestRequests(p: Parsed, adds: seq<AddReq>, t: Topic)
    requires Lowest(p, adds)
    ensures t in p.cursors <==> exists c :: Requests(adds, t, c)
  {
    hide Requests;
  }

  lemma EffectFate(s: State, d: State, gone: set<Topic>, cursors: map<Topic, nat>, mutateId: nat, historyOnly: bool,
                   t: Topic)
    requires Effect(s, d, gone, Added(s, gone, cursors), mutateId, historyOnly)
    requires s.pending.Keys <= s.catchingUp <= s.subscribed
    ensures if t in cursors then
              (if t !in gone && (t in s.subscribed || t in s.catchingUp)
                  && cursors[t] >= (if t in s.highWater then s.highWater[t] else 0)
               then Untouched(s, d, t) else Afresh(s, d, t, cursors[t], historyOnly))
            else if t in gone then Gone(d, t) else Untouched(s, d, t)
  {
    hide Effect, Added, Afresh, Untouched, Gone, Takes, AfterRemoves;
    AddedFate(s, gone, cursors, t);
    AddedEffect(s, d, gone, Added(s, gone, cursors), mutateId, historyOnly, t);
  }

  /** Which adds take effect: those of topics that are removed too, not subscribed, or behind. */
  lemma AddedFate(s: State, gone: set<Topic>, cursors: map<Topic, nat>, t: Topic)
    ensures t in Added(s, gone, cursors) <==>
              t in cursors && !(t !in gone && (t in s.subscribed || t in s.catchingUp)
                                && cursors[t] >= (if t in s.highWater then s.highWater[t] else 0))
    ensures t in Added(s, gone, cursors) ==> Added(s, gone, cursors)[t] == cursors[t]
  {
  }

  lemma AddedEffect(s: State, d: State, gone: set<Topic>, added: map<Topic, nat>, mutateId: nat, historyOnly: bool,
                    t: Topic)
    requires Effect(s, d, gone, added, mutateId, historyOnly)
    requires s.pending.Keys <= s.catchingUp <= s.subscribed
    ensures if t in added then Afresh(s, d, t, added[t], historyOnly)
            else if t in gone then Gone(d, t) else Untouched(s, d, t)
  {
    hide NewWave;
  }

  lemma InRemoveSet(removes: seq<seq<byte>>, t: Topic)
    ensures t in RemoveSet(removes) <==> exists r :: r in removes && Names(r, t)
  {
    if r :| r in removes && GoodWire(r) && t == Topic(if r[0] == 0 then Group else Welcome, r[1..]) {
      assert r == [r[0]] + r[1..];
      assert Names(r, t);
    }
    if r :| r in removes && Names(r, t) {
      assert r[1..] == t.ident && GoodWire(r);
      assert t == Topic(if r[0] == 0 then Group else Welcome, r[1..]);
    }
  }

  lemma SoundActive(s: State)
    requires Sound(s, {}, 0, 0)
    ensures s.pending.Keys <= s.catchingUp <= s.subscribed
  {
    hide Logs, Tags, InFlight;
  }

  // ----- the scans a Mutate spawns -----

  /** The lists hold topics at their lowest cursors. */
  ghost predicate Listed(a: Adding, cursors: map<Topic, nat>) {
    forall x :: x in a.groupAdds || x in a.welcomeAdds ==> x.topic in cursors && x.cursor == cursors[x.topic]
  }

  lemma {:induction false} AddAllListed(a: Adding, order: seq<Topic>, cursors: map<Topic, nat>, mutateId: nat,
                                        historyOnly: bool)
    requires Listed(a, cursors) && forall t :: t in order ==> t in cursors
    ensures Listed(AddAll(a, order, cursors, mutateId, historyOnly).0, cursors)
    decreases |order|
  {
    hide DropTopic, Register;
    if order != [] {
      var (a', v) := AddOne(a, order[0], cursors[order[0]], mutateId, historyOnly);
      if v == Continue { AddAllListed(a', order[1..], cursors, mutateId, historyOnly); }
    }
  }

  /** The two lists hold exactly these topics with these floors, each under its kind. */
  ghost predicate SpawnsFor(groupAdds: seq<Add>, welcomeAdds: seq<Add>, added: map<Topic, nat>) {
    && (forall t, c :: Add(t, c) in groupAdds <==> t.kind == Group && t in added && added[t] == c)
    && (forall t, c :: Add(t, c) in welcomeAdds <==> t.kind == Welcome && t in added && added[t] == c)
    && |groupAdds| + |welcomeAdds| == |added.Keys|
  }

  lemma ListedAreAdded(a: Adding, added: map<Topic, nat>)
    requires Enumerates(Collected(a.groupAdds, a.welcomeAdds), added.Keys)
    ensures forall x :: x in a.groupAdds || x in a.welcomeAdds ==> x.topic in added
  {
    TopicsOfMember(a.groupAdds);
    TopicsOfMember(a.welcomeAdds);
    var gs, ws := TopicsOf(a.groupAdds), TopicsOf(a.welcomeAdds);
    hide TopicsOf;
    forall x | x in a.groupAdds || x in a.welcomeAdds ensures x.topic in added {
      if x in a.groupAdds {
        var i :| 0 <= i < |gs| && a.groupAdds[i] == x;
        assert gs[i] in gs + ws;
      } else {
        var i :| 0 <= i < |ws| && a.welcomeAdds[i] == x;
        assert ws[i] in gs + ws;
      }
      assert x.topic in added.Keys;
    }
  }

  lemma AddedAreListed(a: Adding, cursors: map<Topic, nat>, added: map<Topic, nat>, t: Topic)
    requires Listed(a, cursors) && t in added && t in cursors && added[t] == cursors[t]
    requires Enumerates(Collected(a.groupAdds, a.welcomeAdds), added.Keys)
    ensures Add(t, added[t]) in a.groupAdds || Add(t, added[t]) in a.welcomeAdds
  {
    TopicsOfMember(a.groupAdds);
    TopicsOfMember(a.welcomeAdds);
    var gs, ws := TopicsOf(a.groupAdds), TopicsOf(a.welcomeAdds);
    hide TopicsOf;
    assert t in gs + ws;
    if t in gs {
      var i :| 0 <= i < |gs| && gs[i] == t;
      assert a.groupAdds[i] in a.groupAdds && a.groupAdds[i] == Add(t, added[t]);
    } else {
      var i :| 0 <= i < |ws| && ws[i] == t;
      assert a.welcomeAdds[i] in a.welcomeAdds && a.welcomeAdds[i] == Add(t, added[t]);
    }
  }

  lemma ListsAreAdded(a: Adding, cursors: map<Topic, nat>, added: map<Topic, nat>)
    requires Listed(a, cursors) && Sorted(a.groupAdds, a.welcomeAdds)
    requires Enumerates(Collected(a.groupAdds, a.welcomeAdds), added.Keys)
    requires forall t :: t in added ==> t in cursors && added[t] == cursors[t]
    ensures SpawnsFor(a.groupAdds, a.welcomeAdds, added)
  {
    hide Enumerates, Collected;
    ListedAreAdded(a, added);
    ScansOfKinds(a.groupAdds, a.welcomeAdds, added.Keys);
    forall t | t in added ensures Add(t, added[t]) in a.groupAdds || Add(t, added[t]) in a.welcomeAdds {
      AddedAreListed(a, cursors, added, t);
    }
    forall t, c
      ensures Add(t, c) in a.groupAdds <==> t.kind == Group && t in added && added[t] == c
      ensures Add(t, c) in a.welcomeAdds <==> t.kind == Welcome && t in added && added[t] == c
    {
      var x := Add(t, c);
      assert x in a.groupAdds || x in a.welcomeAdds ==> x.topic in added && x.cursor == added[x.topic];
    }
  }

  /** A successful Mutate spawns the scans of exactly the topics it registers, from their floors:
      group topics in the group scan, welcome topics in the welcome scan, each once. */
  lemma ScansMean(cfg: Config, s: State, m: MutateReq)
    requires Sound(s, {}, 0, 0) && Mutate(cfg, s, m).verdict == Continue
    ensures ParseAdds(Parsed([], map[]), m.adds).Some?
    ensures var r, p := Mutate(cfg, s, m), ParseAdds(Parsed([], map[]), m.adds).value;
            var added := Added(s, RemoveSet(m.removes), p.cursors);
            SpawnsFor(r.groupAdds, r.welcomeAdds, added) && (added != map[] ==> r.wave == s.nextWave)
  {
    hide Sound, Mutate, DropAll, AddAll, ParseAdds, Reached, Parses, AfterRemoves, Addable, StartWave, Sorted,
         Collected, Enumerates, Added, GoodAdds, Lowest, Wants, RemoveSet, Listed, SpawnsFor;
    MutateIsLoops(cfg, s, m);
    NotInFlight(cfg, s, m);
    LoopsMean(s, m);
    MutateUnfolds(cfg, s, m);
    RunListed(s, m);
    var a, p := RunAdds(s, m).0, ParseAdds(Parsed([], map[]), m.adds).value;
    var added := Added(s, RemoveSet(m.removes), p.cursors);
    AddedCursors(s, RemoveSet(m.removes), p.cursors);
    ListsAreAdded(a, p.cursors, added);
    ScansOfKinds(a.groupAdds, a.welcomeAdds, added.Keys);
    NoKeys(added);
    NextStays(s, a.s, RemoveSet(m.removes) + added.Keys, added, m.historyOnly);
    NoLists(a);
  }

  lemma RunListed(s: State, m: MutateReq)
    requires ParseAdds(Parsed([], map[]), m.adds).Some?
    ensures Listed(RunAdds(s, m).0, ParseAdds(Parsed([], map[]), m.adds).value.cursors)
  {
    hide DropAll, ParseAdds, AddAll;
    var p := ParseAdds(Parsed([], map[]), m.adds).value;
    ParseKeepsOrder(Parsed([], map[]), m.adds);
    AddAllListed(Adding(DropAll(s, m.removes).0, [], [], 0), p.order, p.cursors, m.mutateId, m.historyOnly);
  }

  lemma AddedCursors(s: State, removed: set<Topic>, cursors: map<Topic, nat>)
    ensures forall t :: t in Added(s, removed, cursors) ==>
              t in cursors && Added(s, removed, cursors)[t] == cursors[t]
  {
    hide Takes, AfterRemoves;
  }

  lemma NextStays(s: State, w: State, gone: set<Topic>, added: map<Topic, nat>, historyOnly: bool)
    requires Reached(s, w, gone, added, historyOnly)
    ensures w.nextWave == s.nextWave
  {
  }

  lemma NoLists(a: Adding)
    ensures |a.groupAdds| + |a.welcomeAdds| == 0 ==> a.groupAdds == [] && a.welcomeAdds == []
  {
  }

  /** The first request on a stream, on its bytes alone: it is accepted exactly when its adds have an
      id, are not too many, and every wire in either list is a kind byte 0 or 1 with an identifier;
      then it registers exactly the topics its adds name, each at the lowest cursor it names it
      with, live unless it asks for history only, and scans exactly these. */
  lemma FreshMutate(cfg: Config, m: MutateReq)
    ensures var r := Mutate(cfg, Init, m);
            && (r.verdict == Continue <==>
                  && (m.adds != [] ==> m.mutateId != 0) && |m.adds| <= cfg.maxMutateAdds
                  && (forall a :: a in m.adds ==> |a.wire| >= 2 && (a.wire[0] == 0 || a.wire[0] == 1))
                  && (forall w: seq<byte> :: w in m.removes ==> |w| >= 2 && (w[0] == 0 || w[0] == 1)))
            && (r.verdict == Continue ==>
                  && r.s.highWater.Keys == r.s.topicWave.Keys
                  && r.s.subscribed == (if m.historyOnly then {} else r.s.topicWave.Keys)
                  && (forall t :: t in r.s.topicWave <==> exists c :: Requests(m.adds, t, c))
                  && (forall t :: t in r.s.topicWave ==> Wants(m.adds, t, r.s.highWater[t]))
                  && SpawnsFor(r.groupAdds, r.welcomeAdds, r.s.highWater))
  {
    hide Sound, Mutate, Effect, RemoveSet, Requests, Wants, ParseAdds, SpawnsFor;
    WriterRuns.InitSound();
    SucceedsOnCursors(cfg, Init, m);
    ParseMeans(m.adds);
    NotInFlightAtFirst(m.mutateId);
    if Mutate(cfg, Init, m).verdict == Continue {
      MutateMeans(cfg, Init, m);
      ScansMean(cfg, Init, m);
      var removed, p := RemoveSet(m.removes), ParseAdds(Parsed([], map[]), m.adds).value;
      AllAdded(removed, p.cursors);
      FirstEffect(Mutate(cfg, Init, m).s, removed, p.cursors, m.mutateId, m.historyOnly);
    }
  }

  lemma NotInFlightAtFirst(id: nat)
    ensures !InFlight(Init, id)
  {
  }

  lemma AllAdded(removed: set<Topic>, cursors: map<Topic, nat>)
    ensures Added(Init, removed, cursors) == cursors
    ensures forall t, historyOnly :: Addable(AfterRemoves(Init, removed, t), historyOnly)
  {
  }

  lemma FirstEffect(d: State, removed: set<Topic>, added: map<Topic, nat>, mutateId: nat, historyOnly: bool)
    requires Effect(Init, d, removed, added, mutateId, historyOnly)
    ensures d.highWater == added && d.topicWave.Keys == added.Keys
    ensures d.subscribed == if historyOnly then {} else added.Keys
  {
    hide NewWave;
  }

  // ----- order and repetition do not matter -----

  /** The same writer state, up to the order in which a new wave lists its topics and the order
      of the frames already sent. */
  ghost predicate SameWriter(a: State, b: State) {
    && a.highWater == b.highWater && a.subscribed == b.subscribed && a.live == b.live && a.catchingUp == b.catchingUp
    && a.pending == b.pending && a.pendingBytes == b.pendingBytes && a.subscribedTopics == b.subscribedTopics
    && a.topicWave == b.topicWave && a.nextWave == b.nextWave && a.halfClosed == b.halfClosed
    && a.waves.Keys == b.waves.Keys
    && (forall v :: v in a.waves ==>
          && a.waves[v].mutateId == b.waves[v].mutateId && a.waves[v].scansLeft == b.waves[v].scansLeft
          && a.waves[v].owned == b.waves[v].owned
          && (forall t :: t in a.waves[v].topics <==> t in b.waves[v].topics))
    && (forall id :: Answers(a.out, id) == Answers(b.out, id))
  }

  /** A bookkept state's waves and gauges follow from its maps. */
  lemma FollowFromMaps(s: State, a: State, b: State, removed: set<Topic>, added: map<Topic, nat>, mutateId: nat,
                       historyOnly: bool)
    requires Book(a, {}, 0) && Book(b, {}, 0)
    requires Effect(s, a, removed, added, mutateId, historyOnly)
    requires Effect(s, b, removed, added, mutateId, historyOnly)
    ensures a.pendingBytes == b.pendingBytes && a.subscribedTopics == b.subscribedTopics && a.live == b.live
    ensures a.waves.Keys == b.waves.Keys
    ensures forall v :: v in a.waves ==> a.waves[v].owned == b.waves[v].owned
  {
    hide Effect;
    SameMaps(s, a, b, removed, added, mutateId, historyOnly);
    MapsGiveGauges(a, b);
  }

  lemma MapsGiveGauges(a: State, b: State)
    requires Book(a, {}, 0) && Book(b, {}, 0)
    requires a.topicWave == b.topicWave && a.subscribed == b.subscribed && a.pending == b.pending
    ensures a.pendingBytes == b.pendingBytes && a.subscribedTopics == b.subscribedTopics && a.live == b.live
    ensures a.waves.Keys == b.waves.Keys
    ensures forall v :: v in a.waves ==> a.waves[v].owned == b.waves[v].owned
  {
    forall v ensures v in a.waves <==> v in b.waves {
      WaveIffOwner(a, v);
      WaveIffOwner(b, v);
    }
  }

  lemma WaveIffOwner(s: State, v: nat)
    requires Waves(s)
    ensures v in s.waves <==> Owners(s.topicWave, v) != {}
  {
    if v in s.waves {
      assert |Owners(s.topicWave, v)| > 0;
    }
    if Owners(s.topicWave, v) != {} {
      var t :| t in Owners(s.topicWave, v);
      assert t in s.topicWave;
    }
  }

  lemma SameFlights(a: State, b: State, id: nat)
    requires a.waves.Keys == b.waves.Keys && forall v :: v in a.waves ==> a.waves[v].mutateId == b.waves[v].mutateId
    ensures InFlight(a, id) == InFlight(b, id)
  {
    assert forall v :: v in a.waves <==> v in b.waves.Keys;
  }

  lemma SameMaps(s: State, a: State, b: State, removed: set<Topic>, added: map<Topic, nat>, mutateId: nat,
                 historyOnly: bool)
    requires Effect(s, a, removed, added, mutateId, historyOnly)
    requires Effect(s, b, removed, added, mutateId, historyOnly)
    ensures a.highWater == b.highWater && a.subscribed == b.subscribed && a.catchingUp == b.catchingUp
    ensures a.pending == b.pending
    ensures a.topicWave == b.topicWave && a.nextWave == b.nextWave && a.halfClosed == b.halfClosed
  {
    hide NewWave;
  }

  lemma SameWave(s: State, a: State, b: State, removed: set<Topic>, added: map<Topic, nat>, mutateId: nat,
                 historyOnly: bool, v: nat)
    requires Effect(s, a, removed, added, mutateId, historyOnly)
    requires Effect(s, b, removed, added, mutateId, historyOnly)
    requires v in a.waves && v in b.waves
    ensures a.waves[v].mutateId == b.waves[v].mutateId && a.waves[v].scansLeft == b.waves[v].scansLeft
    ensures forall t :: t in a.waves[v].topics <==> t in b.waves[v].topics
  {
    hide Effect, HasKind;
    EffectOnWave(s, a, removed, added, mutateId, historyOnly, v);
    EffectOnWave(s, b, removed, added, mutateId, historyOnly, v);
  }

  lemma EffectOnWave(s: State, d: State, removed: set<Topic>, added: map<Topic, nat>, mutateId: nat,
                     historyOnly: bool, v: nat)
    requires Effect(s, d, removed, added, mutateId, historyOnly) && v in d.waves
    ensures if v == s.nextWave then NewWave(d.waves[v], added.Keys, mutateId)
            else v in s.waves && d.waves[v] == s.waves[v].(owned := d.waves[v].owned)
  {
    hide Merged, Rejoined, Minus, Live, InWave, NewWave;
  }

  lemma SameEffect(s: State, a: State, b: State, removed: set<Topic>, added: map<Topic, nat>, mutateId: nat,
                   historyOnly: bool)
    requires Sound(a, {}, 0, 0) && Sound(b, {}, 0, 0)
    requires Effect(s, a, removed, added, mutateId, historyOnly)
    requires Effect(s, b, removed, added, mutateId, historyOnly)
    requires forall id :: Owed(a, id) == Owed(b, id)
    ensures SameWriter(a, b)
  {
    hide Logs, Tags, Book, InFlight, Effect, Owed;
    SameMaps(s, a, b, removed, added, mutateId, historyOnly);
    FollowFromMaps(s, a, b, removed, added, mutateId, historyOnly);
    forall v | v in a.waves
      ensures v in b.waves && a.waves[v].mutateId == b.waves[v].mutateId
      ensures a.waves[v].scansLeft == b.waves[v].scansLeft
      ensures forall t :: t in a.waves[v].topics <==> t in b.waves[v].topics
    {
      assert v in b.waves.Keys;
      SameWave(s, a, b, removed, added, mutateId, historyOnly, v);
    }
    SameAnswers(a, b);
  }

  lemma SameAnswers(a: State, b: State)
    requires a.waves.Keys == b.waves.Keys
    requires forall v :: v in a.waves ==> v in b.waves && a.waves[v].mutateId == b.waves[v].mutateId
    requires forall id :: Owed(a, id) == Owed(b, id)
    ensures forall id :: Answers(a.out, id) == Answers(b.out, id)
  {
    hide InFlight;
    forall id ensures Answers(a.out, id) == Answers(b.out, id) {
      SameFlights(a, b, id);
      assert Owed(a, id) == Owed(b, id);
    }
  }

  /** Two requests that ask the same: the same id and mode, the same set of removed topics, and
      the same lowest cursor for every added topic; both within the limit on raw adds. */
  ghost predicate AskTheSame(cfg: Config, m: MutateReq, n: MutateReq) {
    && m.mutateId == n.mutateId && m.historyOnly == n.historyOnly
    && |m.adds| <= cfg.maxMutateAdds && |n.adds| <= cfg.maxMutateAdds
    && Parses(m.removes) && Parses(n.removes) && RemoveSet(m.removes) == RemoveSet(n.removes)
    && GoodAdds(m.adds) && GoodAdds(n.adds) && forall t, c :: Wants(m.adds, t, c) <==> Wants(n.adds, t, c)
  }

  lemma SameCursors(adds: seq<AddReq>, others: seq<AddReq>)
    requires GoodAdds(adds) && GoodAdds(others) && forall t, c :: Wants(adds, t, c) <==> Wants(others, t, c)
    ensures var p, q := ParseAdds(Parsed([], map[]), adds), ParseAdds(Parsed([], map[]), others);
            p.Some? && q.Some? && p.value.cursors == q.value.cursors
  {
    hide ParseAdds, Lowest, Wants, GoodAdds;
    ParseMeans(adds);
    ParseMeans(others);
    var p := ParseAdds(Parsed([], map[]), adds).value.cursors;
    var q := ParseAdds(Parsed([], map[]), others).value.cursors;
    assert forall t :: t in p ==> Wants(adds, t, p[t]);
    assert forall t :: t in q ==> Wants(others, t, q[t]);
  }

  lemma NoCursors(adds: seq<AddReq>)
    requires ParseAdds(Parsed([], map[]), adds).Some?
    ensures adds == [] <==> ParseAdds(Parsed([], map[]), adds).value.cursors == map[]
  {
    ParseMeans(adds);
    WriterRuns.NoOrder(adds);
    hide ParseAdds;
    if adds != [] {
      assert adds[0] in adds;
      var wire := adds[0].wire;
      var t := Topic(if wire[0] == 0 then Group else Welcome, wire[1..]);
      assert wire == [wire[0]] + wire[1..];
      assert Names(wire, t);
      assert Requests(adds, t, adds[0].cursor);
    }
  }

  /** A Mutate does not depend on the order or repetition of its lists: requests that ask the
      same both succeed or both fail, and when they succeed they leave the same writer. */
  lemma OrderDoesNotMatter(cfg: Config, s: State, m: MutateReq, n: MutateReq)
    requires Sound(s, {}, 0, 0) && AskTheSame(cfg, m, n)
    ensures Mutate(cfg, s, m).verdict == Continue <==> Mutate(cfg, s, n).verdict == Continue
    ensures Mutate(cfg, s, m).verdict == Continue ==> SameWriter(Mutate(cfg, s, m).s, Mutate(cfg, s, n).s)
  {
    hide Sound, Mutate, ParseAdds, Effect, AfterRemoves, Addable, Parses, InFlight, SameWriter, Lowest, Wants, GoodAdds;
    SameCursors(m.adds, n.adds);
    NoCursors(m.adds);
    NoCursors(n.adds);
    SucceedsOnCursors(cfg, s, m);
    SucceedsOnCursors(cfg, s, n);
    if Mutate(cfg, s, m).verdict == Continue {
      hide Added, Owed, RemoveSet, Admissible;
      MutateMeans(cfg, s, m);
      MutateMeans(cfg, s, n);
      WriterRuns.MutateSound(cfg, s, m);
      WriterRuns.MutateSound(cfg, s, n);
      var a, b := Mutate(cfg, s, m).s, Mutate(cfg, s, n).s;
      forall id ensures Owed(a, id) == Owed(b, id) {
      }
      SameEffect(s, a, b, RemoveSet(m.removes),
                 Added(s, RemoveSet(m.removes), ParseAdds(Parsed([], map[]), m.adds).value.cursors), m.mutateId,
                      m.historyOnly);
    }
  }
}
