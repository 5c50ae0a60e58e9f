/** The limiter's objects, updated in place (pkg/ratelimiter/rate_limiter.go, buckets.go); every
    method is proved to compute the function of module RateLimit of the same meaning. */
module RateLimiter {
  import opened RateLimit

  class Entry {
    var lastSeen: nat
    var tokens: uint16

    constructor (lastSeen: nat, tokens: uint16)
      ensures this.lastSeen == lastSeen && this.tokens == tokens
    {
      this.lastSeen, this.tokens := lastSeen, tokens;
    }

    function Value(): Account
      reads this
    {
      Account(lastSeen, tokens)
    }
  }

  /** Refills an entry for the time since it was last seen. */
  method Refill(l: Limit, entry: Entry, multiplier: uint16, now: nat)
    modifies entry
    ensures entry.Value()
         == Refilled(old(entry.Value()),
                     Policy(Mul16(l.ratePerMinute, multiplier), Mul16(l.maxTokens, multiplier)), now)
  {
    hide Mul16, Minutes;
    var ratePerMinute, maxTokens := Mul16(l.ratePerMinute, multiplier), Mul16(l.maxTokens, multiplier);
    if now > entry.lastSeen {
      var minutesSinceLastSeen := Minutes(now - entry.lastSeen);
      NonNegative(ratePerMinute as int, minutesSinceLastSeen);
      entry.lastSeen := now;
      var additionalTokens: int := ratePerMinute as int * minutesSinceLastSeen;
      if additionalTokens + entry.tokens as int > MAX_UINT_16 {
        additionalTokens := MAX_UINT_16 - entry.tokens as int;
      }
      assert additionalTokens == Added(entry.tokens, ratePerMinute, minutesSinceLastSeen);
      hide Added;
      entry.tokens := MinUint16(entry.tokens + additionalTokens as uint16, maxTokens);
    }
  }

  class Buckets {
    var buckets: map<string, Entry>

    constructor ()
      ensures Valid() && buckets == map[]
    {
      buckets := map[];
    }

    ghost function Entries(): set<Entry>
      reads this
    {
      set b | b in buckets :: buckets[b]
    }

    /** Different names have different entries. */
    ghost predicate Valid()
      reads this
    {
      forall a, b :: a in buckets && b in buckets && a != b ==> buckets[a] != buckets[b]
    }

    ghost function Contents(): Accounts
      reads this, Entries()
    {
      map b | b in buckets :: buckets[b].Value()
    }

    /** The bucket's entry, refilled; created full when missing and wanted. */
    method GetAndRefill(bucket: string, limit: Limit, multiplier: uint16, createIfMissing: bool,
                        now: nat) returns (entry: Entry?)
      requires Valid()
      modifies this, Entries()
      ensures Valid()
      ensures bucket !in old(buckets) && !createIfMissing ==>
                entry == null && buckets == old(buckets) && Contents() == old(Contents())
      ensures bucket in old(buckets) || createIfMissing ==>
                && entry != null && bucket in buckets && buckets[bucket] == entry
                && (forall b :: b in buckets && b != bucket ==> b in old(buckets) && buckets[b] == old(buckets)[b])
                && (bucket in old(buckets) ==> entry == old(buckets)[bucket])
                && (bucket !in old(buckets) ==> fresh(entry))
                && Contents() == old(Contents())[bucket := Opened(old(Contents()), bucket,
                     Policy(Mul16(limit.ratePerMinute, multiplier), Mul16(limit.maxTokens, multiplier)), now)]
    {
      if bucket !in buckets {
        if !createIfMissing {
          return null;
        }
        var currentVal := new Entry(now, Mul16(limit.maxTokens, multiplier));
        buckets := buckets[bucket := currentVal];
        return currentVal;
      }
      var currentVal := buckets[bucket];
      Refill(limit, currentVal, multiplier, now);
      return currentVal;
    }

    /** The names of the entries idle for longer than the expiry, each once. */
    method FindExpired(expiresAfter: nat, now: nat) returns (expired: seq<string>)
      ensures forall i, j :: 0 <= i < j < |expired| ==> expired[i] != expired[j]
      ensures forall b :: b in expired <==> b in buckets && now - buckets[b].lastSeen > expiresAfter
    {
      expired := [];
      var left := buckets.Keys;
      while left != {}
        invariant left <= buckets.Keys
        invariant forall i, j :: 0 <= i < j < |expired| ==> expired[i] != expired[j]
        invariant forall b :: b in expired <==> b in buckets && b !in left && now - buckets[b].lastSeen > expiresAfter
        decreases left
      {
        var b :| b in left;
        if now - buckets[b].lastSeen > expiresAfter {
          expired := expired + [b];
        }
        left := left - {b};
      }
    }

    /** Deletes the named entries one by one, looking again whether each has stayed idle. */
    method Delete(expired: seq<string>, expiresAfter: nat, now: nat) returns (deleted: nat)
      requires forall i, j :: 0 <= i < j < |expired| ==> expired[i] != expired[j]
      requires forall b :: b in expired ==> b in buckets && now - buckets[b].lastSeen > expiresAfter
      modifies this
      ensures forall b :: b in buckets <==> b in old(buckets) && b !in expired
      ensures forall b :: b in buckets ==> buckets[b] == old(buckets)[b]
      ensures deleted == |old(buckets)| - |buckets|
    {
      deleted := 0;
      var i := 0;
      while i < |expired|
        invariant 0 <= i <= |expired|
        invariant forall b :: b in buckets <==> b in old(buckets) && b !in expired[..i]
        invariant forall b :: b in buckets ==> buckets[b] == old(buckets)[b]
        invariant deleted == |old(buckets)| - |buckets|
      {
        var b := expired[i];
        assert b in expired && b !in expired[..i];
        assert expired[..i + 1] == expired[..i] + [b];
        if b in buckets && now - buckets[b].lastSeen > expiresAfter {
          RemovedSize(buckets, b);
          buckets := buckets - {b};
          deleted := deleted + 1;
        }
        i := i + 1;
      }
      assert expired[..i] == expired;
    }

    /** Drops the entries idle for longer than the expiry. */
    method DeleteExpired(expiresAfter: nat, now: nat) returns (deleted: nat)
      requires Valid()
      modifies this
      ensures Valid() && Contents() == Unexpired(old(Contents()), now, expiresAfter)
      ensures forall b :: b in buckets ==> b in old(buckets) && buckets[b] == old(buckets)[b]
      ensures deleted == |old(buckets)| - |buckets|
    {
      var expired := FindExpired(expiresAfter, now);
      deleted := Delete(expired, expiresAfter, now);
    }
  }

  lemma RemovedSize(m: map<string, Entry>, b: string)
    requires b in m
    ensures |m - {b}| == |m| - 1
  {
    assert (m - {b}).Keys == m.Keys - {b};
    assert |m.Keys| == |m| && |(m - {b}).Keys| == |m - {b}|;
  }

  /** The locked part of a Spend: `mine` holds the entry under `bucket`, `other` does not. */
  method Pay(entry: Entry, cost: uint16, ghost bucket: string, ghost mine: Buckets,
             ghost other: Buckets) returns (ok: bool)
    requires mine.Valid() && bucket in mine.buckets && mine.buckets[bucket] == entry && entry !in other.Entries()
    modifies entry
    ensures (entry.Value(), ok) == Charge(old(entry.Value()), cost)
    ensures mine.Contents() == old(mine.Contents())[bucket := entry.Value()]
    ensures other.Contents() == old(other.Contents())
  {
    ok := entry.tokens >= cost;
    if ok {
      entry.tokens := entry.tokens - cost;
    }
    assert forall x :: x in other.buckets ==> other.buckets[x] in other.Entries();
  }

  class TokenBucketRateLimiter {
    const cfg: Config
    var newBuckets: Buckets // where new entries go
    var oldBuckets: Buckets // the generation the next sweep empties

    constructor (cfg: Config)
      ensures Valid() && this.cfg == cfg && State() == Generations(map[], map[])
    {
      this.cfg := cfg;
      newBuckets := new Buckets();
      oldBuckets := new Buckets();
    }

    ghost predicate Valid()
      reads this, newBuckets, oldBuckets
    {
      && newBuckets != oldBuckets && newBuckets.Valid() && oldBuckets.Valid()
      && newBuckets.Entries() !! oldBuckets.Entries()
    }

    ghost function State(): Generations
      reads this, newBuckets, oldBuckets, newBuckets.Entries(), oldBuckets.Entries()
    {
      Generations(newBuckets.Contents(), oldBuckets.Contents())
    }

    /** The entry a Spend works on: from the old generation if it is there, else from the new. */
    method FillAndReturnEntry(limitType: LimitType, bucket: string, isPriority: bool, now: nat) returns (entry: Entry)
      requires Valid() && limitType in cfg.limits
      modifies newBuckets, oldBuckets, newBuckets.Entries(), oldBuckets.Entries()
      ensures Valid()
      ensures var g := old(State());
              var p := PolicyOf(cfg, limitType, isPriority);
              if bucket in g.older then
                && State() == g.(older := g.older[bucket := Opened(g.older, bucket, p, now)])
                && bucket in oldBuckets.buckets && oldBuckets.buckets[bucket] == entry
              else
                && State() == g.(newer := g.newer[bucket := Opened(g.newer, bucket, p, now)])
                && bucket in newBuckets.buckets && newBuckets.buckets[bucket] == entry
      ensures newBuckets.Entries() <= old(newBuckets.Entries()) + {entry}
      ensures oldBuckets.Entries() <= old(oldBuckets.Entries())
      ensures fresh(entry) || entry in old(newBuckets.Entries()) || entry in old(oldBuckets.Entries())
    {
      hide Opened, Mul16;
      var limit := cfg.limits[limitType];
      var multiplier: uint16 := 1;
      if isPriority {
        if limitType == PUBLISH {
          multiplier := cfg.publishPriorityMultiplier;
        } else {
          multiplier := cfg.priorityMultiplier;
        }
      }
      var found := oldBuckets.GetAndRefill(bucket, limit, multiplier, false, now);
      if found != null {
        return found;
      }
      var created := newBuckets.GetAndRefill(bucket, limit, multiplier, true, now);
      return created;
    }

    /** Charges a bucket; answers whether it could pay. */
    method Spend(limitType: LimitType, bucket: string, cost: uint16, isPriority: bool, now: nat) returns (ok: bool)
      requires Valid() && limitType in cfg.limits
      modifies newBuckets, oldBuckets, newBuckets.Entries(), oldBuckets.Entries()
      ensures Valid()
      ensures (State(), ok) == Request(cfg, old(State()), limitType, bucket, isPriority, cost, now)
    {
      hide Opened, PolicyOf, Charge;
      var entry := FillAndReturnEntry(limitType, bucket, isPriority, now);
      ghost var g, p := old(State()), PolicyOf(cfg, limitType, isPriority);
      ghost var inOld := bucket in g.older;
      ghost var refilled := Opened(if inOld then g.older else g.newer, bucket, p, now);
      assert entry.Value() == refilled by {
        assert entry.Value() == (if inOld then State().older else State().newer)[bucket];
      }
      ok := Pay(entry, cost, bucket, if inOld then oldBuckets else newBuckets,
                if inOld then newBuckets else oldBuckets);
      assert (if inOld then g.older else g.newer)[bucket := refilled][bucket := entry.Value()] ==
             (if inOld then g.older else g.newer)[bucket := entry.Value()];
    }

    method SweepAndSwap(expiresAfter: nat, now: nat) returns (deletedEntries: nat)
      requires Valid()
      modifies this, oldBuckets
      ensures Valid() && State() == RateLimit.SweepAndSwap(old(State()), now, expiresAfter)
      ensures newBuckets == old(oldBuckets) && oldBuckets == old(newBuckets)
    {
      deletedEntries := oldBuckets.DeleteExpired(expiresAfter, now);
      newBuckets, oldBuckets := oldBuckets, newBuckets;
    }
  }
}
