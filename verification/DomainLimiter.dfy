/** The in-process limiter: one token bucket per domain, in a cache that forgets the domain visited
    longest ago. */
module DomainLimiter {
  import opened Prelude
  import opened TokenBucket

  // ----- The cache, as a value -----

  // Keys run from the domain visited longest ago to the latest one.
  datatype Pool = Pool(keys: seq<string>, buckets: map<string, Bucket>)

  ghost predicate Distinct(keys: seq<string>) {
    forall i, j :: 0 <= i < j < |keys| ==> keys[i] != keys[j]
  }

  ghost predicate Sane(p: Pool, maxDomains: nat) {
    && Distinct(p.keys)
    && (forall d :: d in p.keys <==> d in p.buckets)
    && |p.keys| <= maxDomains
  }

  function Without(keys: seq<string>, domain: string): seq<string> {
    if keys == [] then [] else if keys[0] == domain then keys[1..] else [keys[0]] + Without(keys[1..], domain)
  }

  function Visit(p: Pool, maxDomains: nat, domain: string, limit: Limit, now: real): Pool {
    if domain in p.buckets then p.(keys := Without(p.keys, domain) + [domain])
    else
      var room := if p.keys != [] && |p.keys| >= maxDomains then Pool(p.keys[1..], p.buckets - {p.keys[0]}) else p;
      Pool(room.keys + [domain], room.buckets[domain := Bucket(limit.capacity, now)])
  }

  lemma {:induction false} WithoutIs(keys: seq<string>, domain: string)
    requires Distinct(keys)
    ensures Distinct(Without(keys, domain)) && domain !in Without(keys, domain)
    ensures forall d :: d in Without(keys, domain) <==> d in keys && d != domain
    ensures domain in keys ==> |Without(keys, domain)| == |keys| - 1
  {
    if keys != [] {
      WithoutIs(keys[1..], domain);
      assert keys == [keys[0]] + keys[1..];
      assert keys[0] !in keys[1..];
    }
  }

  // A visit leaves the domain cached, last in line, and disturbs nobody's tokens: at most the domain
  // visited longest ago is forgotten, and only when the cache was full of others.
  lemma VisitMeans(p: Pool, maxDomains: nat, domain: string, limit: Limit, now: real)
    requires Sane(p, maxDomains) && maxDomains >= 1
    ensures var q := Visit(p, maxDomains, domain, limit, now);
      && Sane(q, maxDomains) && q.keys[|q.keys| - 1] == domain
      && q.buckets[domain] == (if domain in p.buckets then p.buckets[domain] else Bucket(limit.capacity, now))
      && (forall d :: d in q.buckets && d != domain ==> d in p.buckets && q.buckets[d] == p.buckets[d])
      && (forall d :: d in p.buckets && d !in q.buckets ==> domain !in p.buckets && |p.keys| == maxDomains && d == p.keys[0])
  {
    if domain in p.buckets {
      WithoutIs(p.keys, domain);
    } else if |p.keys| >= maxDomains {
      assert p.keys == [p.keys[0]] + p.keys[1..];
      assert p.keys[0] !in p.keys[1..];
    }
  }

  // ----- The limiter -----

  // The bucket once an undisturbed caller has its tokens; `late` is how much it oversleeps.
  function Settled(l: Limit, b: Bucket, cost: real, now: real, late: real): Bucket
    requires Sound(l)
  {
    var tried := Drawn(l, b, cost, now);
    if Admits(l, b, cost, now) then tried else Drawn(l, tried, cost, now + (cost - tried.tokens) / l.rate + late)
  }

  // One sleep always suffices for an undisturbed caller.
  lemma OneSleep(l: Limit, b: Bucket, cost: real, late: real)
    requires Sound(l) && Holds(l, b) && b.tokens < cost <= l.capacity && late >= 0.0
    ensures Admits(l, b, cost, b.at + (cost - b.tokens) / l.rate + late)
  {
    var need := (cost - b.tokens) / l.rate;
    assert need * l.rate == cost - b.tokens;
    assert need >= 0.0 by {
      if need < 0.0 { TimesStrict(l.rate, need, 0.0); }
    }
    WaitIsExact(l, b, cost, need + late);
  }

  // An undisturbed caller pays exactly its cost, at once if the bucket holds it; and otherwise as soon as
  // enough has flowed in, or as late as it oversleeps, which earns what flows in meanwhile.
  lemma SettledExactly(l: Limit, b: Bucket, cost: real, now: real, late: real)
    requires Sound(l) && Holds(l, b) && b.at <= now && 0.0 < cost <= l.capacity && late >= 0.0
    ensures var held := Min(l.capacity, b.tokens + (now - b.at) * l.rate);
      Settled(l, b, cost, now, late) ==
        if held >= cost then Bucket(held - cost, now)
        else Bucket(Min(l.capacity, cost + late * l.rate) - cost, now + (cost - held) / l.rate + late)
  {
    var held := Level(l, b, now);
    assert held == Min(l.capacity, b.tokens + (now - b.at) * l.rate);
    if held < cost {
      SettledLate(l, b, cost, now, late);
      WokenLevel(l, held, cost, now, late);
    }
  }

  lemma SettledLate(l: Limit, b: Bucket, cost: real, now: real, late: real)
    requires Sound(l) && Holds(l, b) && 0.0 < cost <= l.capacity && late >= 0.0 && !Admits(l, b, cost, now)
    ensures var held := Level(l, b, now);
      var woken := now + (cost - held) / l.rate + late;
      Settled(l, b, cost, now, late) == Bucket(Level(l, Bucket(held, now), woken) - cost, woken)
  {
    DrawnHolds(l, b, cost, now);
    OneSleep(l, Drawn(l, b, cost, now), cost, late);
  }

  // What an emptier bucket holds when its caller wakes.
  lemma WokenLevel(l: Limit, held: real, cost: real, now: real, late: real)
    requires Sound(l) && held < cost && late >= 0.0
    ensures Level(l, Bucket(held, now), now + (cost - held) / l.rate + late) == Min(l.capacity, cost + late * l.rate)
  {
    Earned(l, held, cost, late);
    assert Elapsed(now, now + (cost - held) / l.rate + late) == (cost - held) / l.rate + late;
  }

  lemma Earned(l: Limit, held: real, cost: real, late: real)
    requires Sound(l) && held < cost && late >= 0.0
    ensures (cost - held) / l.rate >= 0.0 && held + ((cost - held) / l.rate + late) * l.rate == cost + late * l.rate
  {
    var wait := (cost - held) / l.rate;
    assert wait * l.rate == cost - held;
    if wait < 0.0 { TimesStrict(l.rate, wait, 0.0); }
    assert (wait + late) * l.rate == wait * l.rate + late * l.rate;
  }

  class Tank {
    var tokens: real
    var updatedAt: real

    constructor (tokens: real, updatedAt: real)
      ensures View() == Bucket(tokens, updatedAt)
    {
      this.tokens, this.updatedAt := tokens, updatedAt;
    }

    function View(): Bucket
      reads this
    {
      Bucket(tokens, updatedAt)
    }

    // The locked section: take the tokens, or say how long to sleep.
    method Attempt(l: Limit, cost: real, now: real) returns (delay: Option<real>)
      requires Sound(l)
      modifies this
      ensures View() == Drawn(l, old(View()), cost, now)
      ensures delay == if old(Admits(l, View(), cost, now)) then None else Some((cost - View().tokens) / l.rate)
    {
      var elapsed := Elapsed(updatedAt, now);
      tokens := Min(l.capacity, tokens + elapsed * l.rate);
      updatedAt := now;
      if tokens >= cost {
        tokens := tokens - cost;
        return None;
      }
      delay := Some((cost - tokens) / l.rate);
    }

    // Tries until it has the tokens, sleeping in between; each wake comes `late` late.
    method Draw(l: Limit, cost: real, now: real, late: real) returns (sleeps: nat)
      requires Sound(l) && Holds(l, View()) && 0.0 < cost <= l.capacity && late >= 0.0
      modifies this
      ensures Holds(l, View()) && View() == Settled(l, old(View()), cost, now, late)
      ensures sleeps == if old(Admits(l, View(), cost, now)) then 0 else 1
    {
      sleeps := 0;
      var clock := now;
      while true
        invariant sleeps <= 1 && Holds(l, View())
        invariant sleeps == 0 ==> clock == now && View() == old(View())
        invariant sleeps == 1 ==> !Admits(l, old(View()), cost, now) && View() == Drawn(l, old(View()), cost, now)
        invariant sleeps == 1 ==> clock == now + (cost - tokens) / l.rate + late
        decreases 2 - sleeps
      {
        DrawnHolds(l, View(), cost, clock);
        if sleeps == 1 { OneSleep(l, View(), cost, late); }
        var delay := Attempt(l, cost, clock);
        if delay.None? { return; }
        sleeps, clock := sleeps + 1, clock + delay.value + late;
      }
    }
  }

  datatype Outcome = BadTokens | BadDomain | TooManyTokens | Acquired(domain: string, sleeps: nat)

  class Limiter {
    const fallback: Limit
    const domains: map<string, Limit>
    const maxDomains: nat
    var keys: seq<string>
    var tanks: map<string, Tank>

    ghost predicate Valid()
      reads this, tanks.Values
    {
      Configured() && Cached() && AllHold(View())
    }

    // No bucket holds less than nothing or more than its capacity.
    ghost predicate AllHold(p: Pool) {
      forall d :: d in p.buckets ==> Holds(LimitOf(d), p.buckets[d])
    }

    ghost predicate Configured() {
      maxDomains >= 1 && Sound(fallback) && forall d :: d in domains ==> Sound(domains[d])
    }

    // One tank per cached domain, no tank shared.
    ghost predicate Cached()
      reads this
    {
      && Distinct(keys) && |keys| <= maxDomains
      && (forall d :: d in keys <==> d in tanks)
      && (forall d, e :: d in tanks && e in tanks && d != e ==> tanks[d] != tanks[e])
    }

    function LimitOf(domain: string): Limit {
      if domain in domains then domains[domain] else fallback
    }

    function View(): Pool
      reads this, tanks.Values
    {
      Pool(keys, map d | d in tanks :: tanks[d].View())
    }

    // The cache holds exactly this.
    ghost predicate Shows(p: Pool)
      reads this, tanks.Values
    {
      keys == p.keys && tanks.Keys == p.buckets.Keys && forall d :: d in tanks ==> tanks[d].View() == p.buckets[d]
    }

    constructor (fallback: Limit, domains: map<string, Limit>, maxDomains: nat)
      requires maxDomains >= 1 && Sound(fallback) && forall d :: d in domains ==> Sound(domains[d])
      ensures Valid() && View() == Pool([], map[])
      ensures this.fallback == fallback && this.domains == domains && this.maxDomains == maxDomains
    {
      this.fallback, this.domains, this.maxDomains := fallback, domains, maxDomains;
      keys, tanks := [], map[];
    }

    // Makes room by forgetting the domain visited longest ago.
    method Evict()
      requires Cached() && keys != []
      modifies this
      ensures Cached() && keys == old(keys[1..]) && tanks == old(tanks - {keys[0]})
    {
      assert keys == [keys[0]] + keys[1..];
      tanks := tanks - {keys[0]};
      keys := keys[1..];
    }

    method Refresh(domain: string)
      requires Cached() && domain in tanks
      modifies this`keys
      ensures Cached() && keys == Without(old(keys), domain) + [domain]
    {
      WithoutIs(keys, domain);
      keys := Without(keys, domain) + [domain];
    }

    method Store(domain: string, tank: Tank)
      requires Cached() && domain !in tanks && tank !in tanks.Values && |keys| < maxDomains
      modifies this
      ensures Cached() && keys == old(keys) + [domain] && tanks == old(tanks)[domain := tank]
    {
      tanks := tanks[domain := tank];
      keys := keys + [domain];
    }

    // A full tank for a domain not cached.
    method Create(domain: string, now: real) returns (tank: Tank)
      requires Cached() && maxDomains >= 1 && domain !in tanks
      modifies this
      ensures Cached() && domain in tanks && tanks[domain] == tank && fresh(tank)
      ensures tank.View() == Bucket(LimitOf(domain).capacity, now)
      ensures var room := if |old(keys)| >= maxDomains then old(tanks) - {old(keys)[0]} else old(tanks);
        tanks == room[domain := tank]
      ensures keys == (if |old(keys)| >= maxDomains then old(keys)[1..] else old(keys)) + [domain]
    {
      tank := new Tank(LimitOf(domain).capacity, now);
      if |keys| >= maxDomains {
        Evict();
      }
      Store(domain, tank);
    }

    method Locate(domain: string, now: real) returns (tank: Tank)
      requires Valid()
      modifies this
      ensures Cached() && domain in tanks && tanks[domain] == tank
      ensures Shows(Visit(old(View()), maxDomains, domain, LimitOf(domain), now))
      ensures fresh(tanks.Values - old(tanks.Values))
    {
      if domain in tanks {
        tank := Revisit(domain, now);
      } else {
        tank := FirstVisit(domain, now);
      }
    }

    method Revisit(domain: string, ghost now: real) returns (tank: Tank)
      requires Cached() && domain in tanks
      modifies this`keys
      ensures Cached() && tank == tanks[domain]
      ensures Shows(Visit(old(View()), maxDomains, domain, LimitOf(domain), now))
    {
      Refresh(domain);
      tank := tanks[domain];
    }

    method FirstVisit(domain: string, now: real) returns (tank: Tank)
      requires Cached() && maxDomains >= 1 && domain !in tanks
      modifies this
      ensures Cached() && domain in tanks && tanks[domain] == tank
      ensures Shows(Visit(old(View()), maxDomains, domain, LimitOf(domain), now))
      ensures fresh(tanks.Values - old(tanks.Values))
    {
      tank := Create(domain, now);
    }

    // Undisturbed by other callers; `name` is what the text normalizes to, and the caller wakes `late` late.
    method Acquire(name: Option<string>, cost: real, now: real, late: real) returns (outcome: Outcome)
      requires Valid() && late >= 0.0
      modifies this, tanks.Values
      ensures Valid()
      ensures if Refusal(name, cost).Acquired? then outcome.Acquired? else outcome == Refusal(name, cost)
      ensures outcome == BadTokens <==> cost <= 0.0
      ensures outcome == BadDomain <==> cost > 0.0 && name.None?
      ensures (outcome == TooManyTokens
               <==> cost > 0.0 && name.Some? && cost > (if name.value in domains then domains[name.value].capacity else fallback.capacity))
      ensures !outcome.Acquired? ==> View() == old(View())
      ensures outcome.Acquired? ==> outcome.domain == name.value && Charged(old(View()), name.value, cost, now, late, outcome.sleeps)
    {
      if cost <= 0.0 { return BadTokens; }
      if name.None? { return BadDomain; }
      if cost > LimitOf(name.value).capacity { return TooManyTokens; }
      var sleeps := Charge(name.value, cost, now, late);
      return Acquired(name.value, sleeps);
    }

    // The error a call meets, if any, in the order the checks are made.
    function Refusal(name: Option<string>, cost: real): Outcome {
      if cost <= 0.0 then BadTokens
      else if name.None? then BadDomain
      else if cost > LimitOf(name.value).capacity then TooManyTokens
      else Acquired(name.value, 0)
    }

    // The domain is visited, its bucket alone pays, and the caller has slept only if tokens were short.
    ghost predicate Charged(p: Pool, domain: string, cost: real, now: real, late: real, sleeps: nat)
      requires Configured()
      reads this, tanks.Values
    {
      var visited := Visit(p, maxDomains, domain, LimitOf(domain), now);
      && domain in visited.buckets
      && Shows(visited.(buckets := visited.buckets[domain := Settled(LimitOf(domain), visited.buckets[domain], cost, now, late)]))
      && sleeps == if Admits(LimitOf(domain), visited.buckets[domain], cost, now) then 0 else 1
    }

    method Charge(domain: string, cost: real, now: real, late: real) returns (sleeps: nat)
      requires Valid() && late >= 0.0 && 0.0 < cost <= LimitOf(domain).capacity
      modifies this, tanks.Values
      ensures Valid() && Charged(old(View()), domain, cost, now, late, sleeps)
    {
      var tank := Locate(domain, now);
      ghost var visited := Visit(old(View()), maxDomains, domain, LimitOf(domain), now);
      assert AllHold(visited);
      sleeps := Pay(tank, domain, cost, now, late, visited);
    }

    // The located tank pays; no other changes.
    method Pay(tank: Tank, domain: string, cost: real, now: real, late: real, ghost visited: Pool) returns (sleeps: nat)
      requires Configured() && Cached() && Shows(visited) && AllHold(visited)
      requires domain in tanks && tanks[domain] == tank && late >= 0.0 && 0.0 < cost <= LimitOf(domain).capacity
      modifies tank
      ensures Cached() && domain in visited.buckets
      ensures var paid := visited.(buckets := visited.buckets[domain := Settled(LimitOf(domain), visited.buckets[domain], cost, now, late)]);
        Shows(paid) && AllHold(paid)
      ensures sleeps == if Admits(LimitOf(domain), visited.buckets[domain], cost, now) then 0 else 1
    {
      sleeps := tank.Draw(LimitOf(domain), cost, now, late);
    }
  }

  // ----- Runs of a cache serving many domains -----

  datatype Event = Visits(domain: string, at: real) | Draws(domain: string, at: real, cost: real)

  // Which limit applies to which domain, and how many domains are kept.
  datatype Setup = Setup(limitOf: string -> Limit, maxDomains: nat)

  function Step(u: Setup, p: Pool, e: Event): Pool {
    match e
    case Visits(d, at) => Visit(p, u.maxDomains, d, u.limitOf(d), at)
    case Draws(d, at, cost) =>
      if d in p.buckets then p.(buckets := p.buckets[d := Drawn(u.limitOf(d), p.buckets[d], cost, at)]) else p
  }

  // The domain is in the cache now and after every event.
  predicate StaysCached(u: Setup, p: Pool, domain: string, run: seq<Event>)
    decreases |run|
  {
    domain in p.buckets && (run == [] || StaysCached(u, Step(u, p, run[0]), domain, run[1..]))
  }

  // What the domain's callers draw, in order.
  function Drawings(domain: string, run: seq<Event>): seq<Request> {
    if run == [] then []
    else (if run[0].Draws? && run[0].domain == domain then [Request(run[0].at, run[0].cost)] else []) + Drawings(domain, run[1..])
  }

  function GrantedTo(u: Setup, p: Pool, domain: string, run: seq<Event>, s: real, t: real): real
    decreases |run|
  {
    if run == [] then 0.0
    else
      var e := run[0];
      (if e.Draws? && e.domain == domain && domain in p.buckets && s <= e.at <= t
          && Admits(u.limitOf(domain), p.buckets[domain], e.cost, e.at) then e.cost else 0.0)
      + GrantedTo(u, Step(u, p, e), domain, run[1..], s, t)
  }

  // While cached, a domain's callers meet one bucket, untouched by the other domains.
  lemma {:induction false} DomainsAreApart(u: Setup, p: Pool, domain: string, run: seq<Event>, s: real, t: real)
    requires Sane(p, u.maxDomains) && u.maxDomains >= 1 && StaysCached(u, p, domain, run)
    ensures GrantedTo(u, p, domain, run, s, t) == Granted(u.limitOf(domain), p.buckets[domain], Drawings(domain, run), s, t)
    decreases |run|
  {
    if run != [] {
      var e := run[0];
      StepSane(u, p, e);
      DomainsAreApart(u, Step(u, p, e), domain, run[1..], s, t);
      if e.Draws? && e.domain == domain {
        assert Drawings(domain, run)[1..] == Drawings(domain, run[1..]);
      } else {
        assert Drawings(domain, run) == Drawings(domain, run[1..]);
      }
    }
  }

  // An event for one domain leaves the bucket of every other cached domain alone.
  lemma StepSane(u: Setup, p: Pool, e: Event)
    requires Sane(p, u.maxDomains) && u.maxDomains >= 1
    ensures Sane(Step(u, p, e), u.maxDomains)
    ensures forall d :: d in p.buckets && d in Step(u, p, e).buckets && !(e.Draws? && e.domain == d) ==> Step(u, p, e).buckets[d] == p.buckets[d]
  {
    VisitMeans(p, u.maxDomains, e.domain, u.limitOf(e.domain), e.at);
  }

  // `others` covers whatever was visited after the domain.
  ghost predicate Behind(keys: seq<string>, domain: string, others: set<string>) {
    domain in keys && OthersAfter(keys, domain, others)
  }

  lemma {:induction false} WithoutCuts(keys: seq<string>, domain: string) returns (m: nat)
    requires domain in keys
    ensures m < |keys| && keys[m] == domain && Without(keys, domain) == keys[..m] + keys[m + 1..]
  {
    if keys[0] == domain {
      m := 0;
    } else {
      var k := WithoutCuts(keys[1..], domain);
      m := k + 1;
      assert keys[..m] == [keys[0]] + keys[1..][..k] && keys[m + 1..] == keys[1..][k + 1..];
    }
  }

  lemma {:induction false} DistinctSize(keys: seq<string>, others: set<string>)
    requires Distinct(keys) && forall i :: 0 <= i < |keys| ==> keys[i] in others
    ensures |keys| <= |others|
  {
    if keys != [] {
      var last := keys[|keys| - 1];
      DistinctSize(keys[..|keys| - 1], others - {last});
    }
  }

  lemma VisitKeepsRecent(p: Pool, maxDomains: nat, e: string, l: Limit, now: real, domain: string, others: set<string>)
    requires Sane(p, maxDomains) && maxDomains >= 1 && Behind(p.keys, domain, others) && |others| < maxDomains
    requires e == domain || e in others
    ensures Behind(Visit(p, maxDomains, e, l, now).keys, domain, others)
  {
    if e in p.buckets {
      MovedKeepsOrder(p.keys, e, domain, others);
    } else {
      if |p.keys| >= maxDomains && p.keys[0] == domain {
        DistinctSize(p.keys[1..] + [e], others);
      }
      AppendKeepsOrder(p.keys, if |p.keys| >= maxDomains then 1 else 0, e, domain, others);
    }
  }

  // Whatever stands after the domain is among the others.
  ghost predicate OthersAfter(keys: seq<string>, domain: string, others: set<string>) {
    forall i, j :: 0 <= i < j < |keys| && keys[i] == domain ==> keys[j] in others
  }

  lemma CutKeepsOrder(keys: seq<string>, m: nat, domain: string, others: set<string>)
    requires m < |keys| && OthersAfter(keys, domain, others)
    ensures OthersAfter(keys[..m] + keys[m + 1..], domain, others)
  {
    var cut := keys[..m] + keys[m + 1..];
    forall i, j | 0 <= i < j < |cut| && cut[i] == domain ensures cut[j] in others {
      assert cut[i] == keys[if i < m then i else i + 1];
      assert cut[j] == keys[if j < m then j else j + 1];
    }
  }

  lemma LastKeepsOrder(keys: seq<string>, e: string, domain: string, others: set<string>)
    requires OthersAfter(keys, domain, others) && (domain in keys ==> e in others)
    ensures OthersAfter(keys + [e], domain, others)
  {
    var all := keys + [e];
    forall i, j | 0 <= i < j < |all| && all[i] == domain ensures all[j] in others {
      assert all[i] == keys[i];
      if j < |keys| { assert all[j] == keys[j]; }
    }
  }

  // Moving a key to the end.
  lemma MovedKeepsOrder(keys: seq<string>, e: string, domain: string, others: set<string>)
    requires Distinct(keys) && e in keys && Behind(keys, domain, others) && (e == domain || e in others)
    ensures Behind(Without(keys, e) + [e], domain, others)
  {
    var m := WithoutCuts(keys, e);
    MovedStays(keys, e, domain);
    CutKeepsOrder(keys, m, domain, others);
    LastKeepsOrder(Without(keys, e), e, domain, others);
  }

  lemma MovedStays(keys: seq<string>, e: string, domain: string)
    requires Distinct(keys) && domain in keys
    ensures domain in Without(keys, e) + [e] && e !in Without(keys, e)
  {
    WithoutIs(keys, e);
    if domain != e {
      assert domain in Without(keys, e);
    } else {
      assert (Without(keys, e) + [e])[|Without(keys, e)|] == e;
    }
  }

  // Adding a key at the end, once the given number are dropped from the front.
  lemma AppendKeepsOrder(keys: seq<string>, shift: nat, e: string, domain: string, others: set<string>)
    requires shift <= 1 && shift <= |keys| && Behind(keys, domain, others) && e in others && (shift == 1 ==> keys[0] != domain)
    ensures Behind(keys[shift..] + [e], domain, others)
  {
    var k :| 0 <= k < |keys| && keys[k] == domain;
    assert keys[shift..][k - shift] == domain;
    assert OthersAfter(keys[shift..], domain, others) by {
      forall i, j | 0 <= i < j < |keys[shift..]| && keys[shift..][i] == domain ensures keys[shift..][j] in others {
        assert keys[i + shift] == keys[shift..][i] && keys[j + shift] == keys[shift..][j];
      }
    }
    LastKeepsOrder(keys[shift..], e, domain, others);
    assert domain in keys[shift..] + [e];
  }

  // A domain is safe from eviction while fewer than maxDomains others are visited after it.
  lemma {:induction false} RecentStays(u: Setup, p: Pool, domain: string, run: seq<Event>, others: set<string>)
    requires Sane(p, u.maxDomains) && u.maxDomains >= 1 && Behind(p.keys, domain, others) && |others| < u.maxDomains
    requires forall i :: 0 <= i < |run| && run[i].Visits? ==> run[i].domain == domain || run[i].domain in others
    ensures StaysCached(u, p, domain, run)
    decreases |run|
  {
    if run != [] {
      var e := run[0];
      StepSane(u, p, e);
      if e.Visits? {
        VisitKeepsRecent(p, u.maxDomains, e.domain, u.limitOf(e.domain), e.at, domain, others);
      }
      RecentStays(u, Step(u, p, e), domain, run[1..], others);
    }
  }

  // From a visit on, as long as fewer than maxDomains other domains are visited, the domain's callers
  // get at most capacity + rate * (t - s) tokens in any window, whatever the other domains do.
  lemma DomainBound(u: Setup, p: Pool, domain: string, at: real, run: seq<Event>, others: set<string>, s: real, t: real)
    requires Sane(p, u.maxDomains) && u.maxDomains >= 1 && Sound(u.limitOf(domain)) && s <= t
    requires domain in p.buckets ==> Holds(u.limitOf(domain), p.buckets[domain])
    requires |others| < u.maxDomains && Timely(Drawings(domain, run))
    requires forall i :: 0 <= i < |run| && run[i].Visits? ==> run[i].domain == domain || run[i].domain in others
    ensures GrantedTo(u, Step(u, p, Visits(domain, at)), domain, run, s, t) <= u.limitOf(domain).capacity + Refill(u.limitOf(domain), s, t)
  {
    var q := Step(u, p, Visits(domain, at));
    VisitMeans(p, u.maxDomains, domain, u.limitOf(domain), at);
    assert q.keys[|q.keys| - 1] == domain;
    RecentStays(u, q, domain, run, others);
    DomainsAreApart(u, q, domain, run, s, t);
    WindowBound(u.limitOf(domain), q.buckets[domain], Drawings(domain, run), s, t);
  }
}
