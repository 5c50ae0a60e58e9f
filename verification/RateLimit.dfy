/** The arithmetic of the token bucket and the meaning of the two-generation limiter
    (pkg/ratelimiter): Spend and the sweep are atomic steps on two maps of accounts. */
module RateLimit {

  newtype uint16 = x: int | 0 <= x < 0x1_0000

  const MAX_UINT_16 := 65535
  const MINUTE := 60_000_000_000 // in nanoseconds

  datatype LimitType = DEFAULT | PUBLISH

  datatype Limit = Limit(maxTokens: uint16, ratePerMinute: uint16)

  datatype Config = Config(limits: map<LimitType, Limit>, priorityMultiplier: uint16, publishPriorityMultiplier: uint16)

  /** One bucket's balance and when it was last refilled. */
  datatype Account = Account(lastSeen: nat, tokens: uint16)

  /** A product of two uint16 wraps around. */
  function Mul16(a: uint16, b: uint16): uint16 {
    ((a as int * b as int) % 0x1_0000) as uint16
  }

  function MinUint16(x: uint16, y: uint16): uint16 { if x <= y then x else y }

  /** The effective rate and cap of a request. */
  datatype Policy = Policy(rate: uint16, max: uint16)

  function Multiplier(cfg: Config, limitType: LimitType, isPriority: bool): uint16 {
    if !isPriority then 1 else if limitType == PUBLISH then cfg.publishPriorityMultiplier else cfg.priorityMultiplier
  }

  function PolicyOf(cfg: Config, limitType: LimitType, isPriority: bool): Policy
    requires limitType in cfg.limits
  {
    var m := Multiplier(cfg, limitType, isPriority);
    Policy(Mul16(cfg.limits[limitType].ratePerMinute, m), Mul16(cfg.limits[limitType].maxTokens, m))
  }

  /** Whole minutes in a positive duration, as the integer conversion truncates them. */
  function Minutes(d: nat): nat { d / MINUTE }

  /** What is added to a balance, capped so that the uint16 sum cannot overflow. */
  function Added(tokens: uint16, rate: uint16, minutes: nat): nat {
    var additional := rate as int * minutes;
    if additional + tokens as int > MAX_UINT_16 then MAX_UINT_16 - tokens as int else additional
  }

  function Refilled(a: Account, p: Policy, now: nat): Account {
    if now <= a.lastSeen then a
    else
      var sum := ((a.tokens as int + Added(a.tokens, p.rate, Minutes(now - a.lastSeen))) % 0x1_0000) as uint16;
      Account(now, MinUint16(sum, p.max))
  }

  /** The saturating uint16 refill never wraps: it is min(tokens + rate * minutes, max) in
      unbounded arithmetic. */
  lemma RefillIsExact(a: Account, p: Policy, now: nat)
    requires now > a.lastSeen
    ensures var want := a.tokens as int + p.rate as int * Minutes(now - a.lastSeen);
            var r := Refilled(a, p, now);
            r.lastSeen == now && r.tokens as int == if want <= p.max as int then want else p.max as int
  {
    RefillSum(a.tokens as int, p.rate as int * Minutes(now - a.lastSeen));
    NonNegative(p.rate as int, Minutes(now - a.lastSeen));
  }

  lemma NonNegative(a: nat, b: nat)
    ensures a * b >= 0
  {
  }

  lemma RefillSum(tokens: nat, additional: nat)
    requires tokens <= MAX_UINT_16
    ensures var capped := if additional + tokens > MAX_UINT_16 then MAX_UINT_16 - tokens else additional;
            (tokens + capped) % 0x1_0000
            == if tokens + additional <= MAX_UINT_16 then tokens + additional else MAX_UINT_16
  {
  }

  // ----- a limiter that never forgets -----

  type Accounts = map<string, Account>

  /** The account a Spend works on: refilled, or created full. */
  function Opened(m: Accounts, bucket: string, p: Policy, now: nat): Account {
    if bucket in m then Refilled(m[bucket], p, now) else Account(now, p.max)
  }

  function Charge(a: Account, cost: uint16): (Account, bool) {
    if a.tokens < cost then (a, false) else (a.(tokens := a.tokens - cost), true)
  }

  /** The reference limiter: one map, nothing expires. */
  function SpendForever(m: Accounts, bucket: string, p: Policy, cost: uint16, now: nat): (Accounts, bool) {
    var (a, ok) := Charge(Opened(m, bucket, p, now), cost);
    (m[bucket := a], ok)
  }

  // ----- the limiter with two generations -----

  datatype Generations = Generations(newer: Accounts, older: Accounts)

  /** An entry is looked for in the old generation first and created in the new one. */
  function Spend(g: Generations, bucket: string, p: Policy, cost: uint16, now: nat): (Generations, bool) {
    if bucket in g.older then
      var (m, ok) := SpendForever(g.older, bucket, p, cost, now);
      (g.(older := m), ok)
    else
      var (m, ok) := SpendForever(g.newer, bucket, p, cost, now);
      (g.(newer := m), ok)
  }

  /** A Spend as a caller makes it: the request's kind picks the policy. */
  function Request(cfg: Config, g: Generations, limitType: LimitType, bucket: string, isPriority: bool, cost: uint16,
                   now: nat): (Generations, bool)
    requires limitType in cfg.limits
  {
    Spend(g, bucket, PolicyOf(cfg, limitType, isPriority), cost, now)
  }

  /** `ok` and `g'` are what a bucket filled at `rate` a minute up to `cap` answers to a cost, in
      unbounded arithmetic: a new bucket is full, a known one has gained `rate` for each whole
      minute since it was last seen, and the cost is granted if and only if it is there. */
  ghost predicate Answers(g: Generations, bucket: string, rate: nat, cap: nat, cost: nat, now: nat, g': Generations,
                          ok: bool) {
    var m := if bucket in g.older then g.older else g.newer;
    var m' := if bucket in g.older then g'.older else g'.newer;
    var seen: nat := if bucket in m && now < m[bucket].lastSeen then m[bucket].lastSeen else now;
    var have: nat :=
      if bucket !in m then cap
      else if now <= m[bucket].lastSeen then m[bucket].tokens as int
      else if m[bucket].tokens as int + rate * ((now - m[bucket].lastSeen) / 60_000_000_000) <= cap
      then m[bucket].tokens as int + rate * ((now - m[bucket].lastSeen) / 60_000_000_000)
      else cap;
    && (ok <==> cost <= have)
    && bucket in m' && m'[bucket].lastSeen == seen
    && m'[bucket].tokens as int == (if ok then have - cost else have)
    && m' == m[bucket := m'[bucket]]
    && (if bucket in g.older then g'.newer == g.newer else g'.older == g.older)
  }

  /** What a Spend answers, by the kind of request: a regular one runs on the configured rate and
      cap, a priority PUBLISH one on these times the publish multiplier and a priority DEFAULT one
      on these times the default multiplier, each product taken modulo 65536 (so exact whenever it
      fits in a uint16). */
  lemma PolicyIsExact(cfg: Config, g: Generations, limitType: LimitType, bucket: string, isPriority: bool,
                      cost: uint16, now: nat)
    requires limitType in cfg.limits
    ensures var (g', ok) := Request(cfg, g, limitType, bucket, isPriority, cost, now);
            var rate, cap := cfg.limits[limitType].ratePerMinute as int, cfg.limits[limitType].maxTokens as int;
            && (!isPriority ==> Answers(g, bucket, rate, cap, cost as int, now, g', ok))
            && (isPriority && limitType == PUBLISH ==>
                  Answers(g, bucket, (rate * cfg.publishPriorityMultiplier as int) % 65536,
                          (cap * cfg.publishPriorityMultiplier as int) % 65536, cost as int, now, g', ok))
            && (isPriority && limitType == DEFAULT ==>
                  Answers(g, bucket, (rate * cfg.priorityMultiplier as int) % 65536,
                          (cap * cfg.priorityMultiplier as int) % 65536, cost as int, now, g', ok))
  {
    SpendAnswers(g, bucket, PolicyOf(cfg, limitType, isPriority), cost, now);
    hide Answers, Spend;
  }

  lemma SpendAnswers(g: Generations, bucket: string, p: Policy, cost: uint16, now: nat)
    ensures var (g', ok) := Spend(g, bucket, p, cost, now);
            Answers(g, bucket, p.rate as int, p.max as int, cost as int, now, g', ok)
  {
    var was := if bucket in g.older then g.older else g.newer;
    if bucket in was && now > was[bucket].lastSeen {
      RefillIsExact(was[bucket], p, now);
      NonNegative(p.rate as int, Minutes(now - was[bucket].lastSeen));
    }
    hide Refilled;
  }

  /** What a new bucket grants, by the kind of request. */
  lemma FreshGrant(cfg: Config, g: Generations, limitType: LimitType, bucket: string, isPriority: bool, cost: uint16,
                   now: nat)
    requires limitType in cfg.limits && bucket !in g.newer && bucket !in g.older
    ensures var ok := Request(cfg, g, limitType, bucket, isPriority, cost, now).1;
            var cap := cfg.limits[limitType].maxTokens as int;
            && (!isPriority ==> (ok <==> cost as int <= cap))
            && (isPriority && limitType == PUBLISH ==>
                  (ok <==> cost as int <= (cap * cfg.publishPriorityMultiplier as int) % 65536))
            && (isPriority && limitType == DEFAULT ==>
                  (ok <==> cost as int <= (cap * cfg.priorityMultiplier as int) % 65536))
  {
    hide Request;
    PolicyIsExact(cfg, g, limitType, bucket, isPriority, cost, now);
  }

  function Unexpired(m: Accounts, now: nat, expiresAfter: nat): Accounts {
    map b | b in m && now - m[b].lastSeen <= expiresAfter :: m[b]
  }

  /** Expired entries leave the old generation, then the generations trade places. */
  function SweepAndSwap(g: Generations, now: nat, expiresAfter: nat): Generations {
    Generations(Unexpired(g.older, now, expiresAfter), g.newer)
  }

  datatype Step =
    | Spends(bucket: string, p: Policy, cost: uint16, now: nat)
    | Sweeps(now: nat)

  /** The state after a run of the two-generation limiter, and its answers (a sweep answers
      nothing). */
  function Limited(steps: seq<Step>, expiresAfter: nat): (Generations, seq<bool>) {
    if steps == [] then (Generations(map[], map[]), [])
    else
      var (g, answers) := Limited(steps[..|steps| - 1], expiresAfter);
      match steps[|steps| - 1]
      case Spends(b, p, cost, now) => var (g', ok) := Spend(g, b, p, cost, now); (g', answers + [ok])
      case Sweeps(now) => (SweepAndSwap(g, now, expiresAfter), answers)
  }

  /** The same run against the limiter that never forgets. */
  function Unlimited(steps: seq<Step>): (Accounts, seq<bool>) {
    if steps == [] then (map[], [])
    else
      var (m, answers) := Unlimited(steps[..|steps| - 1]);
      match steps[|steps| - 1]
      case Spends(b, p, cost, now) => var (m', ok) := SpendForever(m, b, p, cost, now); (m', answers + [ok])
      case Sweeps(_) => (m, answers)
  }

  // ----- the sweep cannot be observed -----

  /** A policy refills to its cap in any time after which its entry may be swept. */
  predicate Recovers(p: Policy, expiresAfter: nat) {
    p.rate as int * Minutes(expiresAfter + 1) >= p.max as int
  }

  /** The clock does not go back, and a bucket name is always used with one policy. */
  ghost predicate Orderly(steps: seq<Step>, policy: string -> Policy) {
    && (forall i, j :: 0 <= i < j < |steps| ==> steps[i].now <= steps[j].now)
    && (forall i :: 0 <= i < |steps| && steps[i].Spends? ==> steps[i].p == policy(steps[i].bucket))
  }

  /** The two generations hold a part of what the other limiter remembers, no bucket twice; what
      they have lost has been idle for longer than the expiry. */
  ghost predicate Simulates(g: Generations, m: Accounts, now: nat, expiresAfter: nat) {
    && (forall b :: b in g.older ==> b !in g.newer && b in m && m[b] == g.older[b])
    && (forall b :: b in g.newer ==> b in m && m[b] == g.newer[b])
    && (forall b :: b in m && b !in g.older && b !in g.newer ==> now - m[b].lastSeen > expiresAfter)
    && (forall b :: b in m ==> m[b].lastSeen <= now)
  }

  lemma MinutesMono(a: nat, b: nat)
    requires a <= b
    ensures Minutes(a) <= Minutes(b)
  {
  }

  lemma MulMono(r: nat, a: nat, b: nat)
    requires a <= b
    ensures r * a <= r * b
  {
  }

  /** An account idle past the expiry refills to exactly what a new one starts with. */
  lemma IdleIsFull(a: Account, p: Policy, now: nat, expiresAfter: nat)
    requires Recovers(p, expiresAfter) && now - a.lastSeen > expiresAfter
    ensures Refilled(a, p, now) == Account(now, p.max)
  {
    RefillIsExact(a, p, now);
    MinutesMono(expiresAfter + 1, now - a.lastSeen);
    MulMono(p.rate as int, Minutes(expiresAfter + 1), Minutes(now - a.lastSeen));
  }

  lemma SpendSimulates(g: Generations, m: Accounts, since: nat, bucket: string, p: Policy, cost: uint16, now: nat,
                       expiresAfter: nat)
    requires Simulates(g, m, since, expiresAfter) && since <= now && Recovers(p, expiresAfter)
    ensures var (g', ok) := Spend(g, bucket, p, cost, now);
            var (m', ok') := SpendForever(m, bucket, p, cost, now);
            ok == ok' && Simulates(g', m', now, expiresAfter)
  {
    if bucket in m && bucket !in g.older && bucket !in g.newer {
      IdleIsFull(m[bucket], p, now, expiresAfter);
    }
    var mine := if bucket in g.older then g.older else g.newer;
    assert Opened(mine, bucket, p, now) == Opened(m, bucket, p, now);
    OpenedSeen(m, bucket, p, now);
    ChargedSimulates(g, m, since, bucket, p, cost, now, expiresAfter);
  }

  lemma OpenedSeen(m: Accounts, bucket: string, p: Policy, now: nat)
    requires bucket in m ==> m[bucket].lastSeen <= now
    ensures Opened(m, bucket, p, now).lastSeen == now
  {
  }

  /** Both limiters charge the same opened account. */
  lemma ChargedSimulates(g: Generations, m: Accounts, since: nat, bucket: string, p: Policy, cost: uint16, now: nat,
                         expiresAfter: nat)
    requires Simulates(g, m, since, expiresAfter) && since <= now
    requires Opened(if bucket in g.older then g.older else g.newer, bucket, p, now) == Opened(m, bucket, p, now)
    requires Opened(m, bucket, p, now).lastSeen <= now
    ensures var (g', ok) := Spend(g, bucket, p, cost, now);
            var (m', ok') := SpendForever(m, bucket, p, cost, now);
            ok == ok' && Simulates(g', m', now, expiresAfter)
  {
    hide Opened;
  }

  lemma SweepSimulates(g: Generations, m: Accounts, since: nat, now: nat, expiresAfter: nat)
    requires Simulates(g, m, since, expiresAfter) && since <= now
    ensures Simulates(SweepAndSwap(g, now, expiresAfter), m, now, expiresAfter)
  {
  }

  ghost function Clock(steps: seq<Step>): nat {
    if steps == [] then 0 else steps[|steps| - 1].now
  }

  lemma {:induction false} RunSimulates(steps: seq<Step>, policy: string -> Policy, expiresAfter: nat)
    requires Orderly(steps, policy) && forall b :: Recovers(policy(b), expiresAfter)
    ensures Limited(steps, expiresAfter).1 == Unlimited(steps).1
    ensures Simulates(Limited(steps, expiresAfter).0, Unlimited(steps).0, Clock(steps), expiresAfter)
  {
    if steps != [] {
      var earlier, last := steps[..|steps| - 1], steps[|steps| - 1];
      RunSimulates(earlier, policy, expiresAfter);
      assert Clock(earlier) <= last.now by { assert forall i :: 0 <= i < |earlier| ==> earlier[i] == steps[i]; }
      var g, m := Limited(earlier, expiresAfter).0, Unlimited(earlier).0;
      hide Simulates;
      match last
      case Spends(b, p, cost, now) => SpendSimulates(g, m, Clock(earlier), b, p, cost, now, expiresAfter);
      case Sweeps(now) => SweepSimulates(g, m, Clock(earlier), now, expiresAfter);
    }
  }

  /** A run that tells the two limiters apart when a policy does not recover in time: spend all,
      sweep twice, spend all again as soon as the entry may have been dropped. */
  function Forgetful(b: string, p: Policy, expiresAfter: nat): seq<Step> {
    [Spends(b, p, p.max, 0), Sweeps(0), Sweeps(expiresAfter + 1), Spends(b, p, p.max, expiresAfter + 1)]
  }

  lemma ForgetfulLimited(b: string, p: Policy, expiresAfter: nat)
    ensures Limited(Forgetful(b, p, expiresAfter), expiresAfter).1 == [true, true]
  {
    var s := Forgetful(b, p, expiresAfter);
    var none: Accounts := map[];
    assert s[..3] == [s[0], s[1], s[2]] && s[..3][..2] == [s[0], s[1]];
    assert s[..3][..2][..1] == [s[0]] && s[..3][..2][..1][..0] == [];
    assert [s[0]][..0] == [];
    assert SpendForever(none, b, p, p.max, 0) == (map[b := Account(0, 0)], true);
    assert Limited([], expiresAfter) == (Generations(none, none), []);
    var one := [s[0]];
    assert [] + [true] == [true];
    assert one[..|one| - 1] == [];
    assert Spend(Generations(none, none), b, p, p.max, 0) == (Generations(map[b := Account(0, 0)], none), true);
    assert Limited(one, expiresAfter) == (Generations(map[b := Account(0, 0)], none), [] + [true]);
    assert Limited([s[0]], expiresAfter) == (Generations(map[b := Account(0, 0)], none), [true]);
    assert Unexpired(none, 0, expiresAfter) == none;
    assert Limited([s[0], s[1]], expiresAfter) == (Generations(none, map[b := Account(0, 0)]), [true]);
    assert Unexpired(map[b := Account(0, 0)], expiresAfter + 1, expiresAfter) == none;
    assert Limited([s[0], s[1], s[2]], expiresAfter) == (Generations(none, none), [true]);
  }

  lemma ForgetfulUnlimited(b: string, p: Policy, expiresAfter: nat)
    requires !Recovers(p, expiresAfter)
    ensures Unlimited(Forgetful(b, p, expiresAfter)).1 == [true, false]
  {
    var s := Forgetful(b, p, expiresAfter);
    assert s[..3] == [s[0], s[1], s[2]] && s[..3][..2] == [s[0],
         s[1]] && s[..3][..2][..1] == [s[0]] && s[..3][..2][..1][..0] == [];
    var none: Accounts := map[];
    assert [s[0]][..0] == [];
    assert SpendForever(none, b, p, p.max, 0) == (map[b := Account(0, 0)], true);
    assert Unlimited([]) == (none, []);
    var one := [s[0]];
    assert [] + [true] == [true];
    assert one[..|one| - 1] == [];
    assert Unlimited(one) == (map[b := Account(0, 0)], [] + [true]);
    assert Unlimited([s[0]]) == (map[b := Account(0, 0)], [true]);
    assert Unlimited([s[0], s[1]]) == (map[b := Account(0, 0)], [true]);
    assert Unlimited([s[0], s[1], s[2]]) == (map[b := Account(0, 0)], [true]);
    RefillIsExact(Account(0, 0), p, expiresAfter + 1);
  }

  /** Sweep transparency, exactly: with one policy per bucket and a clock that does not go back,
      arbitrary sweeps never change an answer if and only if every policy refills to its cap in
      the shortest time after which an entry may be dropped. */
  lemma SweepsAreInvisibleExactly(policy: string -> Policy, expiresAfter: nat)
    ensures (forall steps :: Orderly(steps, policy) ==> Limited(steps, expiresAfter).1 == Unlimited(steps).1)
            <==> (forall b :: Recovers(policy(b), expiresAfter))
  {
    if forall b :: Recovers(policy(b), expiresAfter) {
      forall steps | Orderly(steps, policy) ensures Limited(steps, expiresAfter).1 == Unlimited(steps).1 {
        RunSimulates(steps, policy, expiresAfter);
      }
    } else {
      var b :| !Recovers(policy(b), expiresAfter);
      ForgetfulLimited(b, policy(b), expiresAfter);
      ForgetfulUnlimited(b, policy(b), expiresAfter);
      assert Orderly(Forgetful(b, policy(b), expiresAfter), policy);
      assert Limited(Forgetful(b, policy(b), expiresAfter), expiresAfter).1[1];
      assert !Unlimited(Forgetful(b, policy(b), expiresAfter)).1[1];
    }
  }

  ghost predicate Disjoint(g: Generations) {
    forall b :: b in g.older ==> b !in g.newer
  }

  lemma SpendDisjoint(g: Generations, bucket: string, p: Policy, cost: uint16, now: nat)
    requires Disjoint(g)
    ensures Disjoint(Spend(g, bucket, p, cost, now).0)
  {
    hide Opened, Charge;
  }

  /** No bucket is ever in both generations, whatever the run. */
  lemma {:induction false} OneGeneration(steps: seq<Step>, expiresAfter: nat)
    ensures Disjoint(Limited(steps, expiresAfter).0)
  {
    if steps != [] {
      OneGeneration(steps[..|steps| - 1], expiresAfter);
      var g := Limited(steps[..|steps| - 1], expiresAfter).0;
      match steps[|steps| - 1]
      case Spends(b, p, cost, now) => SpendDisjoint(g, b, p, cost, now);
      case Sweeps(now) => assert Disjoint(SweepAndSwap(g, now, expiresAfter));
    }
  }

  // ----- the spend bound -----

  /** The total cost granted to a bucket from step `i` on, read off the answers. */
  function GrantedSince(steps: seq<Step>, answers: seq<bool>, bucket: string, i: nat): nat {
    if |steps| <= i then 0
    else
      var last := steps[|steps| - 1];
      if last.Sweeps? then GrantedSince(steps[..|steps| - 1], answers, bucket, i)
      else if answers == [] then 0
      else GrantedSince(steps[..|steps| - 1], answers[..|answers| - 1], bucket, i) +
           if last.bucket == bucket && answers[|answers| - 1] then last.cost as int else 0
  }

  lemma FloorSum(r: nat, a: nat, b: nat)
    ensures r * Minutes(a) + r * Minutes(b) <= r * Minutes(a + b)
  {
    assert Minutes(a) + Minutes(b) <= Minutes(a + b);
    MulMono(r, Minutes(a) + Minutes(b), Minutes(a + b));
    assert r * (Minutes(a) + Minutes(b)) == r * Minutes(a) + r * Minutes(b);
  }

  /** The bucket's own account obeys its policy's cap and the clock. */
  ghost predicate Capped(m: Accounts, bucket: string, p: Policy, now: nat) {
    bucket in m ==> m[bucket].tokens <= p.max && m[bucket].lastSeen <= now
  }

  lemma {:induction false} RunCapped(steps: seq<Step>, policy: string -> Policy, bucket: string)
    requires Orderly(steps, policy)
    ensures Capped(Unlimited(steps).0, bucket, policy(bucket), Clock(steps))
  {
    if steps != [] {
      var earlier, last := steps[..|steps| - 1], steps[|steps| - 1];
      RunCapped(earlier, policy, bucket);
      assert Clock(earlier) <= last.now by { assert forall i :: 0 <= i < |earlier| ==> earlier[i] == steps[i]; }
      var m := Unlimited(earlier).0;
      if last.Spends? && last.bucket == bucket && bucket in m && last.now > m[bucket].lastSeen {
        RefillIsExact(m[bucket], last.p, last.now);
      }
    }
  }

  /** What has been granted since step i plus what is left is covered by one full bucket and the
      refill of the whole minutes since. */
  ghost predicate Bounded(granted: nat, m: Accounts, bucket: string, p: Policy, from: nat) {
    granted == 0 ||
    (bucket in m && from <= m[bucket].lastSeen
     && granted + m[bucket].tokens as int <= p.max as int + p.rate as int * Minutes(m[bucket].lastSeen - from))
  }

  lemma SpendBounded(granted: nat, m: Accounts, bucket: string, p: Policy, cost: uint16, from: nat, now: nat)
    requires Bounded(granted, m, bucket, p, from) && Capped(m, bucket, p, now) && from <= now
    ensures var (m', ok) := SpendForever(m, bucket, p, cost, now);
            Bounded(granted + (if ok then cost as int else 0), m', bucket, p, from)
  {
    var a := Opened(m, bucket, p, now);
    NonNegative(p.rate as int, Minutes(now - from));
    if bucket in m && now > m[bucket].lastSeen {
      RefillIsExact(m[bucket], p, now);
      if granted > 0 { FloorSum(p.rate as int, m[bucket].lastSeen - from, now - m[bucket].lastSeen); }
    }
    assert a.tokens <= p.max && a.lastSeen == now;
    assert granted > 0 ==> granted + a.tokens as int <= p.max as int + p.rate as int * Minutes(now - from);
  }

  lemma {:induction false} RunBounded(steps: seq<Step>, policy: string -> Policy, bucket: string, i: nat)
    requires Orderly(steps, policy) && i < |steps|
    ensures Bounded(GrantedSince(steps, Unlimited(steps).1, bucket, i), Unlimited(steps).0, bucket, policy(bucket),
                    steps[i].now)
    decreases |steps|
  {
    var earlier, last := steps[..|steps| - 1], steps[|steps| - 1];
    var m := Unlimited(earlier).0;
    RunCapped(earlier, policy, bucket);
    assert forall k :: 0 <= k < |earlier| ==> earlier[k] == steps[k];
    if i < |earlier| { RunBounded(earlier, policy, bucket, i); }
    if last.Spends? {
      var answers := Unlimited(steps).1;
      assert answers[..|answers| - 1] == Unlimited(earlier).1;
      if last.bucket == bucket {
        SpendBounded(GrantedSince(earlier, Unlimited(earlier).1, bucket, i), m, bucket, last.p, last.cost,
                     steps[i].now, last.now);
      }
    }
  }

  /** The spend bound, for the limiter as it runs, sweeps included: over any stretch of a run,
      what a bucket is granted is at most its cap plus its rate times the whole minutes the
      stretch lasts. */
  lemma SpendIsBounded(steps: seq<Step>, policy: string -> Policy, expiresAfter: nat, bucket: string, i: nat)
    requires Orderly(steps, policy) && i < |steps| && forall b :: Recovers(policy(b), expiresAfter)
    ensures GrantedSince(steps, Limited(steps, expiresAfter).1, bucket, i) <=
            policy(bucket).max as int + policy(bucket).rate as int * Minutes(Clock(steps) - steps[i].now)
  {
    RunSimulates(steps, policy, expiresAfter);
    RunBounded(steps, policy, bucket, i);
    RunCapped(steps, policy, bucket);
    var m, p := Unlimited(steps).0, policy(bucket);
    NonNegative(p.rate as int, Minutes(Clock(steps) - steps[i].now));
    if bucket in m && steps[i].now <= m[bucket].lastSeen {
      MinutesMono(m[bucket].lastSeen - steps[i].now, Clock(steps) - steps[i].now);
      MulMono(p.rate as int, Minutes(m[bucket].lastSeen - steps[i].now), Minutes(Clock(steps) - steps[i].now));
    }
  }

  // ----- bucket names -----

  function TypeName(t: LimitType): string { if t == DEFAULT then "DEF" else "PUB" }

  /** The interceptor's bucket name for a client. */
  function BucketName(ip: string, t: LimitType, isPriority: bool): string {
    (if isPriority then "P" else "R") + ip + TypeName(t)
  }

  /** A bucket name determines the client, the limit and the priority, so it is only ever used
      with one policy. */
  lemma BucketNameDetermines(ip: string, t: LimitType, isPriority: bool, ip': string, t': LimitType, isPriority': bool)
    requires BucketName(ip, t, isPriority) == BucketName(ip', t', isPriority')
    ensures ip == ip' && t == t' && isPriority == isPriority'
  {
    var a, b := BucketName(ip, t, isPriority), BucketName(ip', t', isPriority');
    assert a[0] == if isPriority then 'P' else 'R';
    assert b[0] == if isPriority' then 'P' else 'R';
    assert |a| == |ip| + 4 && |b| == |ip'| + 4;
    assert a[|a| - 1] == TypeName(t)[2] && b[|b| - 1] == TypeName(t')[2];
    assert a[1..|a| - 3] == ip && b[1..|b| - 3] == ip';
  }

  /** The shipped limits and multipliers. */
  function Defaults(): Config {
    Config(map[DEFAULT := Limit(20000, 4000), PUBLISH := Limit(3000, 600)], 2, 4)
  }

  /** What the shipped configuration grants, whatever a bucket holds: 20000 tokens at 4000 a minute,
      twice that with priority; for publishes 3000 at 600 a minute, four times that with priority. */
  lemma ShippedLimitsGrant(g: Generations, bucket: string, cost: uint16, now: nat)
    ensures DEFAULT in Defaults().limits && PUBLISH in Defaults().limits
    ensures var (g', ok) := Request(Defaults(), g, DEFAULT, bucket, false, cost, now);
            Answers(g, bucket, 4000, 20000, cost as int, now, g', ok)
    ensures var (g', ok) := Request(Defaults(), g, DEFAULT, bucket, true, cost, now);
            Answers(g, bucket, 8000, 40000, cost as int, now, g', ok)
    ensures var (g', ok) := Request(Defaults(), g, PUBLISH, bucket, false, cost, now);
            Answers(g, bucket, 600, 3000, cost as int, now, g', ok)
    ensures var (g', ok) := Request(Defaults(), g, PUBLISH, bucket, true, cost, now);
            Answers(g, bucket, 2400, 12000, cost as int, now, g', ok)
  {
    hide Answers, Request;
    PolicyIsExact(Defaults(), g, DEFAULT, bucket, false, cost, now);
    PolicyIsExact(Defaults(), g, DEFAULT, bucket, true, cost, now);
    PolicyIsExact(Defaults(), g, PUBLISH, bucket, false, cost, now);
    PolicyIsExact(Defaults(), g, PUBLISH, bucket, true, cost, now);
  }

  /** With the one-hour expiry those limits refill in time, so sweeps change no answer. */
  lemma ShippedLimitsRecover(t: LimitType, isPriority: bool)
    ensures t in Defaults().limits && Recovers(PolicyOf(Defaults(), t, isPriority), 60 * MINUTE)
  {
    assert Minutes(60 * MINUTE + 1) == 60;
  }
}
