/** The bounded table of client addresses: an LRU with a TTL sweep. Token buckets are left out;
    an entry is the time its address was last seen. The clock must not run backwards. */
module IpTable {
  import opened Collections

  type Time = int

  /** One minute, the pause between sweeps, in nanoseconds. */
  const MINUTE: int := 60_000_000_000

  type Table = map<string, Time>

  function Swept(data: Table, cutoff: Time): Table {
    map ip | ip in data && data[ip] >= cutoff :: data[ip]
  }

  /** The table an Allow works on: swept first when a sweep is due and entries expire. */
  function Kept(data: Table, due: bool, ttl: int, now: Time): Table {
    if due && ttl > 0 then Swept(data, now - ttl) else data
  }

  predicate IsOldest(ip: string, data: Table) {
    ip in data && forall k :: k in data ==> data[ip] <= data[k]
  }

  /** The eviction: some oldest entry goes, unless its address is empty. */
  ghost predicate Evicts(data: Table, data': Table) {
    exists victim :: IsOldest(victim, data) && data' == if victim == "" then data else data - {victim}
  }

  /** What one Allow may make of the table; map iteration order decides among equally old entries. */
  ghost predicate Allows(data: Table, maxIPs: nat, due: bool, ttl: int, ip: string, now: Time, data': Table) {
    var kept := Kept(data, due, ttl, now);
    if ip in kept || |kept| < maxIPs then data' == kept[ip := now]
    else exists rest :: Evicts(kept, rest) && data' == rest[ip := now]
  }

  /** Tracked addresses are known with their last time, and every address that was dropped was last
      seen no later than every tracked one. */
  ghost predicate LeastRecent(data: Table, seen: Table) {
    && (forall a :: a in data ==> a in seen && data[a] == seen[a])
    && (forall a, b :: a in data && b in seen && b !in data ==> seen[b] <= data[a])
  }

  ghost predicate SeenBy(seen: Table, now: Time) {
    forall a :: a in seen ==> seen[a] <= now
  }

  lemma SweepKeepsOrder(data: Table, seen: Table, cutoff: Time)
    requires LeastRecent(data, seen)
    ensures LeastRecent(Swept(data, cutoff), seen)
  {
  }

  lemma EvictKeepsOrder(data: Table, data': Table, seen: Table)
    requires LeastRecent(data, seen) && Evicts(data, data')
    ensures LeastRecent(data', seen)
  {
  }

  lemma TouchKeepsOrder(data: Table, seen: Table, ip: string, now: Time)
    requires LeastRecent(data, seen) && SeenBy(seen, now)
    ensures LeastRecent(data[ip := now], seen[ip := now]) && SeenBy(seen[ip := now], now)
  {
  }

  /** Every Allow keeps the table least-recently-used. */
  lemma AllowKeepsOrder(data: Table, maxIPs: nat, due: bool, ttl: int, ip: string, now: Time, data': Table, seen: Table)
    requires LeastRecent(data, seen) && SeenBy(seen, now) && Allows(data, maxIPs, due, ttl, ip, now, data')
    ensures LeastRecent(data', seen[ip := now]) && SeenBy(seen[ip := now], now)
  {
    var kept := Kept(data, due, ttl, now);
    if due && ttl > 0 { SweepKeepsOrder(data, seen, now - ttl); }
    if ip in kept || |kept| < maxIPs {
      TouchKeepsOrder(kept, seen, ip, now);
    } else {
      var rest :| Evicts(kept, rest) && data' == rest[ip := now];
      EvictKeepsOrder(kept, rest, seen);
      TouchKeepsOrder(rest, seen, ip, now);
    }
  }

  lemma KeptSmaller(data: Table, due: bool, ttl: int, now: Time)
    ensures |Kept(data, due, ttl, now)| <= |data|
    ensures Kept(data, due, ttl, now).Keys <= data.Keys
  {
    var kept := Kept(data, due, ttl, now);
    assert kept.Keys <= data.Keys;
    SubsetSize(kept.Keys, data.Keys);
  }

  lemma TouchSize(data: Table, ip: string, now: Time)
    ensures |data[ip := now]| == if ip in data then |data| else |data| + 1
  {
    assert data[ip := now].Keys == data.Keys + {ip};
  }

  lemma DropSize(data: Table, ip: string)
    requires ip in data
    ensures |data - {ip}| == |data| - 1
  {
    assert (data - {ip}).Keys == data.Keys - {ip};
  }

  /** The one situation in which an Allow overfills the table: it is full, the address is new, and
      the empty address is among the oldest entries. */
  predicate Overfills(data: Table, maxIPs: nat, due: bool, ttl: int, ip: string, now: Time) {
    var kept := Kept(data, due, ttl, now);
    ip !in kept && |kept| >= maxIPs && IsOldest("", kept)
  }

  lemma StaysBounded(data: Table, maxIPs: nat, due: bool, ttl: int, ip: string, now: Time, data': Table)
    requires |data| <= maxIPs && Allows(data, maxIPs, due, ttl, ip, now, data') && !Overfills(data, maxIPs, due, ttl, ip, now)
    ensures |data'| <= maxIPs
  {
    var kept := Kept(data, due, ttl, now);
    KeptSmaller(data, due, ttl, now);
    if ip in kept || |kept| < maxIPs {
      TouchSize(kept, ip, now);
    } else {
      var rest :| Evicts(kept, rest) && data' == rest[ip := now];
      var victim :| IsOldest(victim, kept) && rest == if victim == "" then kept else kept - {victim};
      DropSize(kept, victim);
      TouchSize(rest, ip, now);
    }
  }

  /** From a table within its bound, an Allow is sure to stay within it exactly unless it overfills. */
  lemma BoundExact(data: Table, maxIPs: nat, due: bool, ttl: int, ip: string, now: Time)
    requires |data| <= maxIPs
    ensures (forall data' :: Allows(data, maxIPs, due, ttl, ip, now, data') ==> |data'| <= maxIPs)
            <==> !Overfills(data, maxIPs, due, ttl, ip, now)
  {
    if Overfills(data, maxIPs, due, ttl, ip, now) {
      var kept := Kept(data, due, ttl, now);
      assert Evicts(kept, kept);
      assert Allows(data, maxIPs, due, ttl, ip, now, kept[ip := now]);
      TouchSize(kept, ip, now);
    } else {
      forall data' | Allows(data, maxIPs, due, ttl, ip, now, data') ensures |data'| <= maxIPs {
        StaysBounded(data, maxIPs, due, ttl, ip, now, data');
      }
    }
  }

  /** The entries an Allow finds after the sweep: all of them unless a sweep is due and entries expire, else
      those seen within the TTL. */
  function Alive(data: Table, due: bool, ttl: int, now: Time): set<string> {
    set a | a in data && (!due || ttl <= 0 || now - data[a] <= ttl)
  }

  /** What becomes of each entry: the address itself is tracked with the new time, nothing else is added or
      changed, an expired entry goes, and another live one goes only when the table is full, the address is
      new and the entry is the only one to go, not empty and no younger than any other live one. */
  lemma AllowExact(data: Table, maxIPs: nat, due: bool, ttl: int, ip: string, now: Time, data': Table, a: string, b: string)
    requires Allows(data, maxIPs, due, ttl, ip, now, data') && a != ip
    ensures ip in data' && data'[ip] == now
    ensures var alive := Alive(data, due, ttl, now);
            && (a in data' ==> a in alive && data'[a] == data[a])
            && (a in alive && a !in data' ==>
                  ip !in alive && |alive| >= maxIPs && a != "" && (b in alive ==> data[a] <= data[b] && (b == a || b in data')))
  {
    var kept := Kept(data, due, ttl, now);
    assert kept.Keys == Alive(data, due, ttl, now);
    assert |kept| == |kept.Keys|;
    if !(ip in kept || |kept| < maxIPs) {
      var rest :| Evicts(kept, rest) && data' == rest[ip := now];
      var victim :| IsOldest(victim, kept) && rest == if victim == "" then kept else kept - {victim};
    }
  }

  class IpRateLimiter {
    const maxIPs: nat
    const ttl: int
    var nextSweep: Time
    var data: Table
    var lastEvicted: string
    ghost var seen: Table
    ghost var clock: Time

    /** Least recently used at all times; within the bound as long as no empty address came in. */
    ghost predicate Valid()
      reads this
    {
      && maxIPs >= 100
      && LeastRecent(data, seen) && SeenBy(seen, clock)
      && ("" !in seen ==> |data| <= maxIPs)
    }

    constructor (limit: int, ttl: int, now: Time)
      ensures Valid() && data == map[] && seen == map[] && clock == now
      ensures maxIPs == (if limit > 100 then limit else 100) && this.ttl == ttl && nextSweep == now + 60_000_000_000
    {
      maxIPs := if limit > 100 then limit else 100;
      this.ttl := ttl;
      nextSweep := now + MINUTE;
      data, seen, clock := map[], map[], now;
      lastEvicted := "";
    }

    method Allow(ip: string, now: Time)
      requires Valid() && clock <= now
      modifies this
      ensures Valid() && clock == now && seen == old(seen)[ip := now]
      ensures Allows(old(data), maxIPs, now > old(nextSweep), ttl, ip, now, data)
      ensures nextSweep == if now > old(nextSweep) then now + 60_000_000_000 else old(nextSweep)
    {
      if now > nextSweep { Sweep(now); }
      if ip !in data && |data| >= maxIPs {
        EvictOldest();
      }
      data := data[ip := now];
      AllowKeepsOrder(old(data), maxIPs, now > old(nextSweep), ttl, ip, now, data, seen);
      if "" !in seen && ip != "" {
        StaysBounded(old(data), maxIPs, now > old(nextSweep), ttl, ip, now, data);
      }
      seen := seen[ip := now];
      clock := now;
    }

    method Sweep(now: Time)
      modifies this`data, this`nextSweep
      ensures data == Kept(old(data), true, ttl, now) && nextSweep == now + 60_000_000_000
    {
      nextSweep := now + MINUTE;
      if ttl <= 0 { return; }
      var cutoff := now - ttl;
      var rest := data.Keys;
      while rest != {}
        invariant rest <= old(data).Keys && data.Keys <= old(data).Keys
        invariant forall ip :: ip in data ==> data[ip] == old(data)[ip]
        invariant forall ip :: ip in old(data) ==> (ip in data <==> (ip in rest || old(data)[ip] >= cutoff))
        invariant nextSweep == now + MINUTE
        decreases |rest|
      {
        var ip :| ip in rest;
        if data[ip] < cutoff { data := data - {ip}; }
        rest := rest - {ip};
      }
    }

    method EvictOldest()
      requires data != map[]
      modifies this`data, this`lastEvicted
      ensures Evicts(old(data), data)
    {
      var oldest, oldestSeen, first := "", 0, true;
      var rest := data.Keys;
      while rest != {}
        invariant rest <= data.Keys && data == old(data)
        invariant first <==> rest == data.Keys
        invariant !first ==> oldest in data && oldestSeen == data[oldest]
        invariant !first ==> forall ip :: ip in data && ip !in rest ==> oldestSeen <= data[ip]
        decreases |rest|
      {
        var ip :| ip in rest;
        if first || data[ip] < oldestSeen {
          first, oldest, oldestSeen := false, ip, data[ip];
        }
        rest := rest - {ip};
      }
      assert IsOldest(oldest, data);
      if oldest != "" {
        data := data - {oldest};
        lastEvicted := oldest;
      }
    }
  }

  /** A row of n letters. */
  function Letters(n: nat): string {
    seq(n, i => 'a')
  }

  /** Nothing can be evicted while the empty address is the only oldest one. */
  lemma EmptyStays(data: Table, rest: Table)
    requires "" in data && (forall k :: k in data && k != "" ==> data[""] < data[k]) && Evicts(data, rest)
    ensures rest == data
  {
    var victim :| IsOldest(victim, data) && rest == if victim == "" then data else data - {victim};
    assert data[victim] <= data[""];
  }

  lemma OneTooMany(data: Table, maxIPs: nat, ttl: int, ip: string, now: Time, data': Table)
    requires "" in data && (forall k :: k in data && k != "" ==> data[""] < data[k])
    requires |data| == maxIPs && ip !in data && Allows(data, maxIPs, false, ttl, ip, now, data')
    ensures |data'| == maxIPs + 1
  {
    var rest :| Evicts(data, rest) && data' == rest[ip := now];
    EmptyStays(data, rest);
    TouchSize(data, ip, now);
  }

  /** A table of 100 addresses that first sees the empty address and then 100 others holds 101 entries. */
  method FillAfterEmptyAddress(limit: int, ttl: int) returns (l: IpRateLimiter)
    requires limit <= 100
    ensures l.Valid() && l.maxIPs == 100 && |l.data| == 101
  {
    l := new IpRateLimiter(limit, ttl, 0);
    l.Allow("", 0);
    var n := 1;
    while n < 100
      invariant 1 <= n <= 100 && l.Valid() && l.maxIPs == 100 && l.nextSweep == MINUTE && 0 <= l.clock < n
      invariant fresh(l) && |l.data| == n && "" in l.data
      invariant forall k :: k in l.data ==> k == "" || (|k| < n && l.data[""] < l.data[k])
    {
      ghost var before := l.data;
      l.Allow(Letters(n), n);
      TouchSize(before, Letters(n), n);
      n := n + 1;
    }
    ghost var full := l.data;
    l.Allow(Letters(100), 100);
    OneTooMany(full, 100, l.ttl, Letters(100), 100, l.data);
  }
}
