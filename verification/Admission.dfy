/** Admission to a stream's catch-up lane: scan slots, a byte budget kept by compare-and-swap, and
    a one-token wakeup channel (pkg/mls/api/v1/subscribe.go). Every interleaving of the fetchers'
    and the writer's atomic operations is a run. */
module Admission {
  import opened WaveScan

  /** Where a fetcher stands in reserving `n` bytes: about to load the counter, holding a loaded
      value, or parked on the wakeup channel. */
  datatype Phase = Checking(n: nat) | Loaded(n: nat, cur: int) | Parked(n: nat)

  datatype Limits = Limits(scanMaxConcurrent: int, scanMaxPendingBytes: int)

  /** `bytes` is the atomic counter, `outstanding` the reservations the writer has not freed,
      `phases` the fetchers inside a reservation, `slots` the holders of a scan slot, `token` the
      wakeup channel's one slot, `signalling` whether the writer has freed bytes and not yet
      offered the token. */
  datatype Lane = Lane(bytes: int, outstanding: multiset<nat>, phases: map<nat, Phase>, slots: set<nat>,
                       token: bool, signalling: bool)

  const EMPTY := Lane(0, multiset{}, map[], {}, false, false)

  datatype Op =
    | Acquire(f: nat)
    | Release(f: nat)
    | Ask(f: nat, size: nat)
    | Load(f: nat)
    | Swap(f: nat)
    | Park(f: nat)
    | Wake(f: nat)
    | Free(size: nat)
    | Signal

  predicate Fits(lim: Limits, cur: int, n: nat) {
    cur == 0 || cur + n <= AtLeastOne(lim.scanMaxPendingBytes)
  }

  predicate Allowed(lim: Limits, s: Lane, op: Op) {
    match op
    case Acquire(f) => f !in s.slots && |s.slots| < AtLeastOne(lim.scanMaxConcurrent)
    case Release(f) => f in s.slots && f !in s.phases
    case Ask(f, _) => f in s.slots && f !in s.phases
    case Load(f) => f in s.phases && s.phases[f].Checking?
    case Swap(f) => f in s.phases && s.phases[f].Loaded? && Fits(lim, s.phases[f].cur, s.phases[f].n)
    case Park(f) => f in s.phases && s.phases[f].Loaded? && !Fits(lim, s.phases[f].cur, s.phases[f].n)
    case Wake(f) => f in s.phases && s.phases[f].Parked? && s.token
    case Free(size) => size in s.outstanding && !s.signalling
    case Signal => s.signalling
  }

  function Do(lim: Limits, s: Lane, op: Op): Lane
    requires Allowed(lim, s, op)
  {
    match op
    case Acquire(f) => s.(slots := s.slots + {f})
    case Release(f) => s.(slots := s.slots - {f})
    case Ask(f, size) => s.(phases := s.phases[f := Checking(size)])
    case Load(f) => s.(phases := s.phases[f := Loaded(s.phases[f].n, s.bytes)])
    case Swap(f) =>
      var n := s.phases[f].n;
      if s.bytes == s.phases[f].cur then
        s.(bytes := s.bytes + n, outstanding := s.outstanding + multiset{n}, phases := s.phases - {f})
      else s.(phases := s.phases[f := Checking(n)])
    case Park(f) => s.(phases := s.phases[f := Parked(s.phases[f].n)])
    case Wake(f) => s.(phases := s.phases[f := Checking(s.phases[f].n)], token := false)
    case Free(size) =>
      // an empty batch frees nothing and wakes nobody
      if size == 0 then s.(outstanding := s.outstanding - multiset{0})
      else s.(bytes := s.bytes - size, outstanding := s.outstanding - multiset{size}, signalling := true)
    case Signal => s.(token := true, signalling := false)
  }

  ghost predicate Run(lim: Limits, run: seq<Lane>, ops: seq<Op>) {
    && |run| == |ops| + 1 && run[0] == EMPTY
    && forall i :: 0 <= i < |ops| ==> Allowed(lim, run[i], ops[i]) && run[i + 1] == Do(lim, run[i], ops[i])
  }

  // ----- the byte budget -----

  ghost function Sum(m: multiset<nat>): nat
    decreases |m|
  {
    if m == multiset{} then 0
    else
      var x :| x in m;
      x + Sum(m - multiset{x})
  }

  lemma {:induction false} SumRemove(m: multiset<nat>, x: nat)
    requires x in m
    ensures Sum(m) == x + Sum(m - multiset{x})
    decreases |m|
  {
    hide Sum;
    var y := SumPick(m);
    if y != x {
      SumRemove(m - multiset{y}, x);
      SumRemove(m - multiset{x}, y);
      RemoveBoth(m, x, y);
    }
  }

  lemma SumPick(m: multiset<nat>) returns (y: nat)
    requires m != multiset{}
    ensures y in m && Sum(m) == y + Sum(m - multiset{y})
  {
    y :| y in m && Sum(m) == y + Sum(m - multiset{y});
  }

  lemma RemoveBoth(m: multiset<nat>, x: nat, y: nat)
    ensures m - multiset{y} - multiset{x} == m - multiset{x} - multiset{y}
  {
  }

  lemma SumAdd(m: multiset<nat>, x: nat)
    ensures Sum(m + multiset{x}) == Sum(m) + x
  {
    SumRemove(m + multiset{x}, x);
    assert m + multiset{x} - multiset{x} == m;
  }

  lemma SumAtLeast(m: multiset<nat>, x: nat)
    requires x in m
    ensures x <= Sum(m)
  {
    SumRemove(m, x);
  }

  /** The counter is the sum of what is outstanding, and exceeds the budget only by one turn that
      was admitted into an empty lane. */
  ghost predicate Covered(lim: Limits, bytes: int, outstanding: multiset<nat>) {
    bytes == Sum(outstanding) && (bytes <= lim.scanMaxPendingBytes || bytes <= 1 || bytes in outstanding)
  }

  /** Only slot holders reserve, and slots stay capped. */
  ghost predicate SlotsOk(lim: Limits, s: Lane) {
    s.phases.Keys <= s.slots && (|s.slots| <= lim.scanMaxConcurrent || |s.slots| <= 1)
  }

  ghost predicate Safe(lim: Limits, s: Lane) {
    Covered(lim, s.bytes, s.outstanding) && SlotsOk(lim, s)
  }

  lemma FreeCovered(lim: Limits, bytes: int, outstanding: multiset<nat>, size: nat)
    requires Covered(lim, bytes, outstanding) && size in outstanding
    ensures Covered(lim, bytes - size, outstanding - multiset{size})
  {
    var left := outstanding - multiset{size};
    SumRemove(outstanding, size);
    if bytes - size > lim.scanMaxPendingBytes && bytes - size > 1 {
      assert bytes in left;
      SumAtLeast(left, bytes);
    }
  }

  lemma SwapCovered(lim: Limits, bytes: int, outstanding: multiset<nat>, n: nat)
    requires Covered(lim, bytes, outstanding) && Fits(lim, bytes, n)
    ensures Covered(lim, bytes + n, outstanding + multiset{n})
  {
    SumAdd(outstanding, n);
  }

  lemma OpSafe(lim: Limits, s: Lane, op: Op)
    requires Safe(lim, s) && Allowed(lim, s, op)
    ensures Safe(lim, Do(lim, s, op))
  {
    hide Covered, SlotsOk, Fits;
    OpSlots(lim, s, op);
    match op
    case Swap(f) =>
      if s.bytes == s.phases[f].cur { SwapCovered(lim, s.bytes, s.outstanding, s.phases[f].n); }
    case Free(size) => FreeCovered(lim, s.bytes, s.outstanding, size);
    case _ =>
  }

  lemma OpSlots(lim: Limits, s: Lane, op: Op)
    requires SlotsOk(lim, s) && Allowed(lim, s, op)
    ensures SlotsOk(lim, Do(lim, s, op))
  {
    match op
    case Ask(f, size) => assert s.phases[f := Checking(size)].Keys == s.phases.Keys + {f};
    case Release(f) => assert f !in s.phases.Keys;
    case _ =>
  }

  /** Whatever the interleaving: the counter is exact and never negative, what is reserved and
      not yet consumed stays within the budget or is dominated by one outstanding turn, and
      there are never more scans than slots. */
  lemma {:induction false} BudgetHolds(lim: Limits, run: seq<Lane>, ops: seq<Op>, i: nat)
    requires Run(lim, run, ops) && i <= |ops|
    ensures Safe(lim, run[i])
  {
    if i > 0 {
      hide Safe;
      BudgetHolds(lim, run, ops, i - 1);
      OpSafe(lim, run[i - 1], ops[i - 1]);
    } else {
      assert run[0] == EMPTY;
    }
  }

  /** Who is admitted, exactly. A slot is free while fewer than the configured number are taken, and
      always when none is. A fetcher that looks at the counter reserves at once, unless somebody
      else moves the counter first, if and only if the lane is empty or its turn fits into what the
      budget leaves; otherwise it parks. */
  lemma AdmitsExactly(lim: Limits, s: Lane, f: nat)
    ensures Allowed(lim, s, Acquire(f)) <==> f !in s.slots && (|s.slots| < lim.scanMaxConcurrent || s.slots == {})
    ensures f in s.phases && s.phases[f].Checking? ==>
              && Allowed(lim, s, Load(f))
              && var n, d := s.phases[f].n, Do(lim, s, Load(f));
                 var fits := s.bytes == 0 || s.bytes + n <= lim.scanMaxPendingBytes || s.bytes + n <= 1;
                 && (Allowed(lim, d, Swap(f)) <==> fits) && (Allowed(lim, d, Park(f)) <==> !fits)
                 && (fits ==>
                       && Do(lim, d, Swap(f)).bytes == s.bytes + n
                       && Do(lim, d, Swap(f)).outstanding == s.outstanding + multiset{n}
                       && Do(lim, d, Swap(f)).phases == s.phases - {f})
  {
    if f in s.phases && s.phases[f].Checking? {
      assert s.phases[f := Loaded(s.phases[f].n, s.bytes)] - {f} == s.phases - {f};
    }
  }

  // ----- no lost wakeup -----

  /** A fetcher with bytes to reserve that is going to look at the counter, or has seen it empty. */
  predicate Looks(p: Phase) { p.n >= 1 && (p.Checking? || p == Loaded(p.n, 0)) }

  /** Somebody with bytes to reserve is going to look at the counter again. */
  ghost predicate Awake(s: Lane) {
    s.token || s.signalling ||
    exists f :: f in s.phases && Looks(s.phases[f])
  }

  /** Somebody waits, or is about to wait because of a value loaded earlier. */
  ghost predicate Waiting(s: Lane) {
    exists f :: f in s.phases && (s.phases[f].Parked? || (s.phases[f].Loaded? && s.phases[f].cur != 0))
  }

  /** The promise: when the lane is empty and somebody waits, a look at the counter is coming. */
  ghost predicate WakeOk(s: Lane) {
    s.bytes == 0 && Waiting(s) ==> Awake(s)
  }

  /** The one way to break the promise: a turn of no bytes takes the token others wait for. */
  predicate TakesToken(s: Lane, op: Op) {
    op.Wake? && op.f in s.phases && s.phases[op.f].n == 0 && exists g :: g in s.phases && g != op.f
  }

  lemma OpWakes(lim: Limits, s: Lane, op: Op)
    requires Safe(lim, s) && WakeOk(s) && Allowed(lim, s, op) && !TakesToken(s, op)
    ensures WakeOk(Do(lim, s, op))
  {
    hide Safe, Awake, Waiting, TakesToken, Fits;
    var d := Do(lim, s, op);
    if d.bytes == 0 && Waiting(d) {
      match op
      case Load(f) => LoadWakes(lim, s, f);
      case Ask(f, size) => AskWakes(lim, s, f, size);
      case Wake(f) => WakeWakes(lim, s, f);
      case Swap(f) => SwapWakes(lim, s, f);
      case Park(f) => ParkWakes(lim, s, f);
      case _ => SamePhases(s, d);
    }
  }

  lemma AskWakes(lim: Limits, s: Lane, f: nat, size: nat)
    requires WakeOk(s) && Allowed(lim, s, Ask(f, size)) && s.bytes == 0 && Waiting(Do(lim, s, Ask(f, size)))
    ensures Awake(Do(lim, s, Ask(f, size)))
  {
    var d := Do(lim, s, Ask(f, size));
    var g :| g in d.phases && (d.phases[g].Parked? || (d.phases[g].Loaded? && d.phases[g].cur != 0));
    assert g != f && s.phases[g] == d.phases[g];
    KeptAwake(s, d, f);
  }

  lemma ParkWakes(lim: Limits, s: Lane, f: nat)
    requires WakeOk(s) && Allowed(lim, s, Park(f)) && s.bytes == 0
    ensures Awake(Do(lim, s, Park(f)))
  {
    assert s.phases[f].Loaded? && s.phases[f].cur != 0;
    KeptAwake(s, Do(lim, s, Park(f)), f);
  }

  lemma SamePhases(s: Lane, d: Lane)
    requires d.phases == s.phases && WakeOk(s) && d.bytes == 0 && Waiting(d)
    requires d.token == s.token || d.token
    requires s.signalling ==> d.signalling || d.token
    requires s.bytes != 0 ==> d.signalling
    ensures Awake(d)
  {
    if s.bytes == 0 { assert Awake(s); }
  }

  /** Another fetcher that was going to look still is. */
  lemma KeptAwake(s: Lane, d: Lane, f: nat)
    requires WakeOk(s) && s.bytes == 0 && Waiting(s) && d.token == s.token && d.signalling == s.signalling
    requires forall g :: g in s.phases && g != f ==> g in d.phases && d.phases[g] == s.phases[g]
    requires f in s.phases && Looks(s.phases[f]) ==> f in d.phases && Looks(d.phases[f])
    ensures Awake(d)
  {
    if !s.token && !s.signalling {
      var g :| g in s.phases && Looks(s.phases[g]);
      assert g in d.phases;
    }
  }

  lemma LoadWakes(lim: Limits, s: Lane, f: nat)
    requires WakeOk(s) && Allowed(lim, s, Load(f)) && s.bytes == 0 && Waiting(Do(lim, s, Load(f)))
    ensures Awake(Do(lim, s, Load(f)))
  {
    var d := Do(lim, s, Load(f));
    var g :| g in d.phases && (d.phases[g].Parked? || (d.phases[g].Loaded? && d.phases[g].cur != 0));
    assert g != f && s.phases[g] == d.phases[g];
    KeptAwake(s, d, f);
  }

  lemma WakeWakes(lim: Limits, s: Lane, f: nat)
    requires Allowed(lim, s, Wake(f)) && !TakesToken(s, Wake(f)) && Waiting(Do(lim, s, Wake(f)))
    ensures Awake(Do(lim, s, Wake(f)))
  {
    var d := Do(lim, s, Wake(f));
    var g :| g in d.phases && (d.phases[g].Parked? || (d.phases[g].Loaded? && d.phases[g].cur != 0));
    assert g != f && g in s.phases;
    assert d.phases[f] == Checking(s.phases[f].n);
  }

  lemma SwapWakes(lim: Limits, s: Lane, f: nat)
    requires Safe(lim, s) && WakeOk(s) && Allowed(lim, s, Swap(f))
    requires Do(lim, s, Swap(f)).bytes == 0 && Waiting(Do(lim, s, Swap(f)))
    ensures Awake(Do(lim, s, Swap(f)))
  {
    var d := Do(lim, s, Swap(f));
    SumNatural(s);
    var g :| g in d.phases && (d.phases[g].Parked? || (d.phases[g].Loaded? && d.phases[g].cur != 0));
    assert g != f && s.phases[g] == d.phases[g];
    if s.bytes != s.phases[f].cur && s.phases[f].n >= 1 {
      assert d.phases[f] == Checking(s.phases[f].n);
    } else {
      KeptAwake(s, d, f);
    }
  }

  lemma SumNatural(s: Lane)
    requires s.bytes == Sum(s.outstanding)
    ensures s.bytes >= 0
  {
  }

  // ----- runs over given turn sizes -----

  /** Every turn a run reserves has one of these sizes. */
  ghost predicate AsksIn(ops: seq<Op>, sizes: iset<nat>) {
    forall i :: 0 <= i < |ops| && ops[i].Ask? ==> ops[i].size in sizes
  }

  /** Every reservation made or under way has one of these sizes. */
  ghost predicate SizesIn(s: Lane, sizes: iset<nat>) {
    && (forall f :: f in s.phases ==> s.phases[f].n in sizes)
    && (forall x :: x in s.outstanding ==> x in sizes)
  }

  lemma OpSizes(lim: Limits, s: Lane, op: Op, sizes: iset<nat>)
    requires SizesIn(s, sizes) && Allowed(lim, s, op) && (op.Ask? ==> op.size in sizes)
    ensures SizesIn(Do(lim, s, op), sizes)
  {
    var d := Do(lim, s, op);
    PhaseSizes(lim, s, op);
    OutstandingSizes(lim, s, op);
    hide Do, Allowed;
    forall f | f in d.phases ensures d.phases[f].n in sizes {
      assert (f in s.phases && d.phases[f].n == s.phases[f].n) || (op.Ask? && d.phases[f].n == op.size);
    }
  }

  /** An operation leaves every fetcher's size, but for the one that asks. */
  lemma PhaseSizes(lim: Limits, s: Lane, op: Op)
    requires Allowed(lim, s, op)
    ensures var d := Do(lim, s, op);
            forall f :: f in d.phases ==>
              (f in s.phases && d.phases[f].n == s.phases[f].n) || (op.Ask? && d.phases[f].n == op.size)
  {
    hide Fits;
  }

  /** What becomes outstanding was asked for. */
  lemma OutstandingSizes(lim: Limits, s: Lane, op: Op)
    requires Allowed(lim, s, op)
    ensures var d := Do(lim, s, op);
            forall x :: x in d.outstanding ==> x in s.outstanding || (op.Swap? && x == s.phases[op.f].n)
  {
    hide Fits;
  }

  /** Among turns within the budget only a turn that has bytes ever parks. */
  ghost predicate ParksBytes(lim: Limits, s: Lane) {
    forall f :: f in s.phases ==>
      && (s.phases[f].Loaded? ==> s.phases[f].cur <= AtLeastOne(lim.scanMaxPendingBytes))
      && (s.phases[f].Parked? ==> s.phases[f].n >= 1)
  }

  /** A turn of more bytes than the budget, which is never less than one. */
  predicate Oversized(lim: Limits, n: nat) { n > lim.scanMaxPendingBytes && n > 1 }

  lemma OpParks(lim: Limits, s: Lane, op: Op, sizes: iset<nat>)
    requires Safe(lim, s) && ParksBytes(lim, s) && SizesIn(s, sizes) && Allowed(lim, s, op)
    requires forall n :: n in sizes ==> !Oversized(lim, n)
    ensures ParksBytes(lim, Do(lim, s, op))
  {
    assert s.bytes <= AtLeastOne(lim.scanMaxPendingBytes);
  }

  /** Limits and turn sizes under which the promise can be broken: a turn of no bytes, one over
      the budget, and a second slot. */
  ghost predicate Breakable(lim: Limits, sizes: iset<nat>) {
    0 in sizes && lim.scanMaxConcurrent >= 2 && exists m :: m in sizes && Oversized(lim, m)
  }

  ghost predicate Sound(lim: Limits, s: Lane, sizes: iset<nat>) {
    && Safe(lim, s) && WakeOk(s) && SizesIn(s, sizes)
    && ((forall n :: n in sizes ==> !Oversized(lim, n)) ==> ParksBytes(lim, s))
  }

  /** Otherwise no turn of no bytes ever takes a token from somebody else. */
  lemma NoTheft(lim: Limits, s: Lane, op: Op, sizes: iset<nat>)
    requires Sound(lim, s, sizes) && Allowed(lim, s, op) && !Breakable(lim, sizes)
    ensures !TakesToken(s, op)
  {
    if TakesToken(s, op) {
      var g :| g in s.phases && g != op.f;
      TwoSlots(s.slots, op.f, g);
    }
  }

  lemma TwoSlots(slots: set<nat>, f: nat, g: nat)
    requires f in slots && g in slots && f != g
    ensures |slots| >= 2
  {
    assert |slots - {f}| == |slots| - 1 && g in slots - {f};
  }

  lemma OpSound(lim: Limits, s: Lane, op: Op, sizes: iset<nat>)
    requires Sound(lim, s, sizes) && Allowed(lim, s, op) && !Breakable(lim, sizes) && (op.Ask? ==> op.size in sizes)
    ensures Sound(lim, Do(lim, s, op), sizes)
  {
    NoTheft(lim, s, op, sizes);
    OpSafe(lim, s, op);
    OpWakes(lim, s, op);
    OpSizes(lim, s, op, sizes);
    hide Safe, WakeOk, SizesIn, ParksBytes, Allowed, Do;
    if forall n :: n in sizes ==> !Oversized(lim, n) { OpParks(lim, s, op, sizes); }
  }

  lemma EmptySound(lim: Limits, sizes: iset<nat>)
    ensures Sound(lim, EMPTY, sizes)
  {
  }

  lemma {:induction false} RunIsSound(lim: Limits, run: seq<Lane>, ops: seq<Op>, sizes: iset<nat>, i: nat)
    requires Run(lim, run, ops) && AsksIn(ops, sizes) && !Breakable(lim, sizes) && i <= |ops|
    ensures Sound(lim, run[i], sizes)
  {
    hide Sound, Do, Allowed, Breakable;
    if i > 0 {
      RunIsSound(lim, run, ops, sizes, i - 1);
      var s, op := run[i - 1], ops[i - 1];
      assert Allowed(lim, s, op) && run[i] == Do(lim, s, op);
      OpSound(lim, s, op, sizes);
    } else {
      EmptySound(lim, sizes);
    }
  }

  /** Nobody will touch the counter again unless the writer frees something. */
  ghost predicate Quiet(s: Lane) {
    !s.token && !s.signalling && forall f :: f in s.phases ==> s.phases[f].Parked?
  }

  /** Fetchers are parked, and no release that would wake one is left to come. */
  ghost predicate Stuck(s: Lane) {
    Quiet(s) && s.phases != map[] && forall size :: size in s.outstanding ==> size == 0
  }

  lemma SoundIsNotStuck(lim: Limits, s: Lane, sizes: iset<nat>)
    requires Sound(lim, s, sizes) && Quiet(s) && s.phases != map[]
    ensures exists size :: size in s.outstanding && size >= 1 && Allowed(lim, s, Free(size))
  {
    var f :| f in s.phases.Keys;
    assert f in s.phases && s.phases[f].Parked?;
    assert Waiting(s) && !Awake(s);
    SumNatural(s);
    PositivePart(s.outstanding);
  }

  lemma {:induction false} PositivePart(m: multiset<nat>)
    requires Sum(m) > 0
    ensures exists x :: x in m && x >= 1
    decreases |m|
  {
    var x :| x in m && Sum(m) == x + Sum(m - multiset{x});
    if x == 0 {
      PositivePart(m - multiset{x});
      var y :| y in m - multiset{x} && y >= 1;
      assert y in m;
    }
  }

  predicate HasBytes(n: nat) { n >= 1 }

  /** No admission deadlock: when every turn has at least one byte, as every turn of rows with
      data has, a state in which fetchers are parked and nothing is on its way to wake them always
      has a reservation outstanding whose release will. */
  lemma NoLostWakeup(lim: Limits, run: seq<Lane>, ops: seq<Op>, i: nat)
    requires Run(lim, run, ops) && i <= |ops|
    requires forall j :: 0 <= j < |ops| && ops[j].Ask? ==> HasBytes(ops[j].size)
    requires Quiet(run[i]) && run[i].phases != map[]
    ensures exists size :: size in run[i].outstanding && size >= 1 && Allowed(lim, run[i], Free(size))
  {
    var sizes := iset n: nat | HasBytes(n);
    RunIsSound(lim, run, ops, sizes, i);
    SoundIsNotStuck(lim, run[i], sizes);
  }

  /** Exactly which limits and turn sizes let fetchers be parked for good: those with a turn of no
      bytes, a turn over the budget and a second scan slot. */
  lemma StuckExactly(lim: Limits, sizes: iset<nat>)
    ensures (exists run, ops :: Run(lim, run, ops) && AsksIn(ops, sizes) && Stuck(run[|ops|]))
            <==> Breakable(lim, sizes)
  {
    if Breakable(lim, sizes) {
      var m :| m in sizes && Oversized(lim, m);
      ZeroByteTurnLosesWakeup(lim, m);
      assert AsksIn(ZeroOps(m), sizes);
    } else {
      forall run, ops | Run(lim, run, ops) && AsksIn(ops, sizes) ensures !Stuck(run[|ops|]) {
        RunIsSound(lim, run, ops, sizes, |ops|);
        hide Sound, Run;
        if Stuck(run[|ops|]) { SoundIsNotStuck(lim, run[|ops|], sizes); }
      }
    }
  }

  // ----- a zero-byte turn loses a wakeup -----

  const BOTH: set<nat> := {1, 2}

  /** The lane with both slots taken. */
  function With(bytes: int, outstanding: multiset<nat>, phases: map<nat, Phase>, token: bool, signalling: bool): Lane {
    Lane(bytes, outstanding, phases, BOTH, token, signalling)
  }

  function ZeroLane(m: nat, i: nat): Lane {
    match i
    case 0 => EMPTY
    case 1 => EMPTY.(slots := {1})
    case 2 => With(0, multiset{}, map[], false, false)
    // an over-budget turn of fetcher 1, admitted into the empty lane
    case 3 => With(0, multiset{}, map[1 := Checking(m)], false, false)
    case 4 => With(0, multiset{}, map[1 := Loaded(m, 0)], false, false)
    case 5 => With(m, multiset{m}, map[], false, false)
    // both fetchers' next turns wait, fetcher 2's without a byte
    case 6 => With(m, multiset{m}, map[1 := Checking(m)], false, false)
    case 7 => With(m, multiset{m}, map[1 := Loaded(m, m)], false, false)
    case 8 => With(m, multiset{m}, map[1 := Parked(m)], false, false)
    case 9 => With(m, multiset{m}, map[1 := Parked(m), 2 := Checking(0)], false, false)
    case 10 => With(m, multiset{m}, map[1 := Parked(m), 2 := Loaded(0, m)], false, false)
    case 11 => With(m, multiset{m}, map[1 := Parked(m), 2 := Parked(0)], false, false)
    // the one wakeup goes to the empty turn
    case 12 => With(0, multiset{}, map[1 := Parked(m), 2 := Parked(0)], false, true)
    case 13 => With(0, multiset{}, map[1 := Parked(m), 2 := Parked(0)], true, false)
    case 14 => With(0, multiset{}, map[1 := Parked(m), 2 := Checking(0)], false, false)
    case 15 => With(0, multiset{}, map[1 := Parked(m), 2 := Loaded(0, 0)], false, false)
    case _ => With(0, multiset{0}, map[1 := Parked(m)], false, false)
  }

  function ZeroOps(m: nat): seq<Op> {
    [Acquire(1), Acquire(2), Ask(1, m), Load(1), Swap(1), Ask(1, m), Load(1), Park(1), Ask(2, 0), Load(2), Park(2),
     Free(m), Signal, Wake(2), Load(2), Swap(2)]
  }

  function ZeroRun(m: nat): seq<Lane> { seq(17, i requires 0 <= i => ZeroLane(m, i)) }

  /** One step between two given lanes. */
  ghost predicate Steps(lim: Limits, s: Lane, op: Op, d: Lane) {
    Allowed(lim, s, op) && Do(lim, s, op) == d
  }

  ghost predicate Tight(lim: Limits, m: nat) {
    lim.scanMaxConcurrent >= 2 && Oversized(lim, m)
  }

  lemma ZeroStart(lim: Limits, m: nat)
    requires Tight(lim, m)
    ensures Steps(lim, ZeroLane(m, 0), Acquire(1), ZeroLane(m, 1))
    ensures Steps(lim, ZeroLane(m, 1), Acquire(2), ZeroLane(m, 2))
    ensures Steps(lim, ZeroLane(m, 2), Ask(1, m), ZeroLane(m, 3))
    ensures Steps(lim, ZeroLane(m, 3), Load(1), ZeroLane(m, 4))
    ensures Steps(lim, ZeroLane(m, 4), Swap(1), ZeroLane(m, 5))
  {
    assert {1} + {2} == BOTH && |{1}| == 1;
    assert map[1 := Loaded(m, 0)] - {1} == map[];
  }

  lemma ZeroParks(lim: Limits, m: nat)
    requires Tight(lim, m)
    ensures Steps(lim, ZeroLane(m, 5), Ask(1, m), ZeroLane(m, 6))
    ensures Steps(lim, ZeroLane(m, 6), Load(1), ZeroLane(m, 7))
    ensures Steps(lim, ZeroLane(m, 7), Park(1), ZeroLane(m, 8))
  {
  }

  lemma ZeroParksToo(lim: Limits, m: nat)
    requires Tight(lim, m)
    ensures Steps(lim, ZeroLane(m, 8), Ask(2, 0), ZeroLane(m, 9))
    ensures Steps(lim, ZeroLane(m, 9), Load(2), ZeroLane(m, 10))
    ensures Steps(lim, ZeroLane(m, 10), Park(2), ZeroLane(m, 11))
  {
  }

  lemma ZeroFrees(lim: Limits, m: nat)
    requires Tight(lim, m)
    ensures Steps(lim, ZeroLane(m, 11), Free(m), ZeroLane(m, 12))
  {
  }

  lemma ZeroWakes(lim: Limits, m: nat)
    requires Tight(lim, m)
    ensures Steps(lim, ZeroLane(m, 12), Signal, ZeroLane(m, 13))
    ensures Steps(lim, ZeroLane(m, 13), Wake(2), ZeroLane(m, 14))
  {
  }

  lemma ZeroEnds(lim: Limits, m: nat)
    requires Tight(lim, m)
    ensures Steps(lim, ZeroLane(m, 14), Load(2), ZeroLane(m, 15))
    ensures Steps(lim, ZeroLane(m, 15), Swap(2), ZeroLane(m, 16))
  {
    assert map[1 := Parked(m), 2 := Loaded(0, 0)] - {2} == map[1 := Parked(m)];
  }

  lemma ZeroIsRun(lim: Limits, m: nat)
    requires Tight(lim, m)
    ensures Run(lim, ZeroRun(m), ZeroOps(m))
  {
    hide Allowed, Do, ZeroLane, Steps, Tight;
    ZeroStart(lim, m);
    ZeroParks(lim, m);
    ZeroParksToo(lim, m);
    ZeroFrees(lim, m);
    ZeroWakes(lim, m);
    ZeroEnds(lim, m);
    ZeroBegins(m);
    forall i | 0 <= i < 16 ensures Steps(lim, ZeroRun(m)[i], ZeroOps(m)[i], ZeroRun(m)[i + 1]) {
    }
    StepsAreRun(lim, m);
  }

  lemma ZeroBegins(m: nat)
    ensures ZeroLane(m, 0) == EMPTY
  {
  }

  lemma StepsAreRun(lim: Limits, m: nat)
    requires ZeroLane(m, 0) == EMPTY
    requires forall i :: 0 <= i < 16 ==> Steps(lim, ZeroRun(m)[i], ZeroOps(m)[i], ZeroRun(m)[i + 1])
    ensures Run(lim, ZeroRun(m), ZeroOps(m))
  {
    hide Allowed, Do, ZeroLane;
    assert |ZeroRun(m)| == 17 && |ZeroOps(m)| == 16 && ZeroRun(m)[0] == EMPTY;
    hide ZeroRun, ZeroOps;
    forall i | 0 <= i < 16
      ensures Allowed(lim, ZeroRun(m)[i], ZeroOps(m)[i]) && ZeroRun(m)[i + 1] == Do(lim, ZeroRun(m)[i], ZeroOps(m)[i])
    {
      assert Steps(lim, ZeroRun(m)[i], ZeroOps(m)[i], ZeroRun(m)[i + 1]);
    }
  }

  /** With two slots, a turn of no bytes and one over the budget, this run leaves fetcher 1 parked
      in an empty lane with no release that wakes anybody left to come. */
  lemma ZeroByteTurnLosesWakeup(lim: Limits, m: nat)
    requires lim.scanMaxConcurrent >= 2 && Oversized(lim, m)
    ensures Run(lim, ZeroRun(m), ZeroOps(m))
    ensures Stuck(ZeroRun(m)[|ZeroOps(m)|]) && ZeroRun(m)[|ZeroOps(m)|].phases == map[1 := Parked(m)]
  {
    ZeroIsRun(lim, m);
    hide Run;
    var last := ZeroRun(m)[16];
    assert last == With(0, multiset{0}, map[1 := Parked(m)], false, false);
    assert 1 in last.phases;
  }
}
