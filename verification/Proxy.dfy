/** The round-robin proxy pool: cooldowns, and who is served when. */
module Proxy {
  import opened Prelude

  datatype Health = Health(successes: nat, failures: nat, consecutive: nat, cooldownUntil: real, dead: bool)

  const FRESH: Health := Health(0, 0, 0, 0.0, false)

  datatype Config = Config(base: real, max: real, maxFailures: nat)

  predicate Sound(c: Config) {
    c.base > 0.0 && c.max >= c.base && c.maxFailures >= 1
  }

  datatype Pool = Pool(cursor: nat, health: map<string, Health>)

  ghost predicate Sane(names: seq<string>, p: Pool) {
    && (forall i, j :: 0 <= i < j < |names| ==> names[i] != names[j])
    && (forall name :: name in names <==> name in p.health)
    && (p.cursor < |names| || p.cursor == 0)
  }

  predicate Cooled(h: Health, now: real) {
    now >= h.cooldownUntil
  }

  function Revived(h: Health, now: real): Health {
    if h.dead && Cooled(h, now) then h.(dead := false, consecutive := 0) else h
  }

  function Power(n: nat): nat {
    if n == 0 then 1 else 2 * Power(n - 1)
  }

  function Delay(c: Config, consecutive: nat): real
    requires consecutive >= 1
  {
    var grown := c.base * Power(consecutive - 1) as real;
    if c.max <= grown then c.max else grown
  }

  // The cooldown starts at the base, doubles with every further throttled failure and stops at the cap.
  lemma DelayDoubles(c: Config, consecutive: nat)
    requires Sound(c) && consecutive >= 1
    ensures Delay(c, 1) == c.base && c.base <= Delay(c, consecutive) <= c.max
    ensures Delay(c, consecutive + 1) == if 2.0 * Delay(c, consecutive) <= c.max then 2.0 * Delay(c, consecutive) else c.max
  {
    var p := Power(consecutive - 1);
    PowerPositive(consecutive - 1);
    assert Power(consecutive) == 2 * p && Power(0) == 1;
    var grown := c.base * p as real;
    assert (2 * p) as real == 2.0 * p as real;
    AtLeastItself(c.base, p as real);
    assert c.base * Power(consecutive) as real == 2.0 * grown by { Doubled(c.base, p as real); }
    assert Delay(c, consecutive) == if c.max <= grown then c.max else grown;
  }

  lemma Doubled(base: real, x: real)
    ensures base * (2.0 * x) == 2.0 * (base * x)
  {
  }

  lemma AtLeastItself(base: real, x: real)
    requires base > 0.0 && x >= 1.0
    ensures base * x >= base
  {
    assert base * (x - 1.0) >= 0.0;
    assert base * (x - 1.0) == base * x - base;
  }

  lemma {:induction false} PowerPositive(n: nat)
    ensures Power(n) >= 1
  {
    if n > 0 { PowerPositive(n - 1); }
  }

  function Succeeded(h: Health): Health {
    h.(successes := h.successes + 1, consecutive := 0, cooldownUntil := 0.0, dead := false)
  }

  function Failed(c: Config, h: Health, status: Option<int>, now: real): Health {
    var counted := h.(failures := h.failures + 1, consecutive := h.consecutive + 1);
    if status in {Some(403), Some(429), Some(503)} then
      counted.(cooldownUntil := now + Delay(c, counted.consecutive), dead := counted.consecutive >= c.maxFailures)
    else counted
  }

  // Position `offset` places after the cursor.
  function At(cursor: nat, offset: nat, total: nat): (index: nat)
    requires cursor < total && offset < total
    ensures index < total
    ensures index == if cursor + offset < total then cursor + offset else cursor + offset - total
  {
    if cursor + offset < total then cursor + offset else cursor + offset - total
  }

  lemma AtIsModulo(cursor: nat, offset: nat, total: nat)
    requires cursor < total && offset < total
    ensures At(cursor, offset, total) == (cursor + offset) % total
  {
    ModuloOnce(cursor + offset, total);
  }

  lemma ModuloOnce(x: nat, total: nat)
    requires total > 0 && x < 2 * total
    ensures x % total == if x < total then x else x - total
  {
    var q := x / total;
    assert x == total * q + x % total;
    ProductGrows(total, q);
    assert q == 0 || q == 1;
  }

  lemma ProductGrows(total: nat, q: nat)
    ensures q >= 2 ==> total * q >= total * 2
  {
    if q >= 2 { assert total * (q - 2) >= 0; }
  }

  // What one acquisition does: nobody is served and nothing changes, or the first cooled endpoint from
  // the cursor on is served, revived if it was dead, and the cursor moves just past it.
  predicate Serves(names: seq<string>, p: Pool, now: real, p': Pool, served: Option<string>)
    requires Sane(names, p)
  {
    match served
    case None => p' == p && forall i :: 0 <= i < |names| ==> !Cooled(p.health[names[i]], now)
    case Some(name) => exists k :: 0 <= k < |names| && ServesAt(names, p, now, p', name, k)
  }

  predicate ServesAt(names: seq<string>, p: Pool, now: real, p': Pool, name: string, k: nat)
    requires Sane(names, p) && k < |names|
  {
    var total := |names|;
    && names[At(p.cursor, k, total)] == name && Cooled(p.health[name], now)
    && (forall j :: 0 <= j < k ==> !Cooled(p.health[names[At(p.cursor, j, total)]], now))
    && p' == Pool(if At(p.cursor, k, total) + 1 == total then 0 else At(p.cursor, k, total) + 1,
                  p.health[name := Revived(p.health[name], now)])
  }

  class ProxyManager {
    const config: Config
    const names: seq<string>
    var health: map<string, Health>
    var cursor: nat

    function View(): Pool
      reads this
    {
      Pool(cursor, health)
    }

    ghost predicate Valid()
      reads this
    {
      Sound(config) && Sane(names, View())
    }

    constructor (config: Config, names: seq<string>)
      requires Sound(config) && forall i, j :: 0 <= i < j < |names| ==> names[i] != names[j]
      ensures Valid() && this.config == config && this.names == names
      ensures cursor == 0 && forall name :: name in health ==> health[name] == FRESH
    {
      this.config, this.names := config, names;
      health, cursor := map name | name in names :: FRESH, 0;
    }

    method Index(offset: nat) returns (index: nat)
      requires cursor < |names| && offset < |names|
      ensures index == At(cursor, offset, |names|)
    {
      AtIsModulo(cursor, offset, |names|);
      index := (cursor + offset) % |names|;
    }

    method MoveCursor(index: nat)
      requires index < |names|
      modifies this`cursor
      ensures cursor == if index + 1 == |names| then 0 else index + 1
    {
      ModuloOnce(index + 1, |names|);
      cursor := (index + 1) % |names|;
    }

    method Acquire(now: real) returns (served: Option<string>)
      requires Valid()
      modifies this
      ensures Valid() && Serves(names, old(View()), now, View(), served)
    {
      var total := |names|;
      served := None;
      for offset := 0 to total
        invariant View() == old(View())
        invariant forall j :: 0 <= j < offset ==> !Cooled(health[names[At(cursor, j, total)]], now)
      {
        var index := Index(offset);
        var name := names[index];
        var h := health[name];
        if h.dead && now >= h.cooldownUntil {
          h := h.(dead := false, consecutive := 0);
        }
        if !h.dead && now >= h.cooldownUntil {
          assert h == Revived(health[name], now);
          health := health[name := h];
          MoveCursor(index);
          assert ServesAt(names, old(View()), now, View(), name, offset);
          return Some(name);
        }
      }
      forall i | 0 <= i < total ensures !Cooled(health[names[i]], now) {
        var j := Distance(i, cursor, total);
        assert At(cursor, j, total) == i;
      }
    }

    // An endpoint outside the pool is refused.
    method ReportSuccess(name: string) returns (known: bool)
      requires Valid()
      modifies this`health
      ensures Valid() && known == (name in old(health))
      ensures health == if known then old(health)[name := Succeeded(old(health)[name])] else old(health)
    {
      known := name in health;
      if known {
        var h := health[name];
        health := health[name := h.(successes := h.successes + 1, consecutive := 0, cooldownUntil := 0.0, dead := false)];
      }
    }

    method ReportFailure(name: string, status: Option<int>, now: real) returns (known: bool)
      requires Valid()
      modifies this`health
      ensures Valid() && known == (name in old(health))
      ensures health == if known then old(health)[name := Failed(config, old(health)[name], status, now)] else old(health)
    {
      known := name in health;
      if known {
        var h := health[name];
        h := h.(failures := h.failures + 1, consecutive := h.consecutive + 1);
        if status == Some(403) || status == Some(429) || status == Some(503) {
          h := h.(cooldownUntil := now + Delay(config, h.consecutive), dead := h.consecutive >= config.maxFailures);
        }
        health := health[name := h];
      }
    }
  }

  // ----- Every run -----

  datatype Step = Acquire(served: Option<string>) | Success(name: string) | Failure(name: string, status: Option<int>)

  ghost predicate Moves(c: Config, names: seq<string>, p: Pool, step: Step, now: real, p': Pool)
    requires Sane(names, p)
  {
    match step
    case Acquire(served) => Serves(names, p, now, p', served)
    case Success(name) => name in p.health && p' == p.(health := p.health[name := Succeeded(p.health[name])])
    case Failure(name, status) => name in p.health && p' == p.(health := p.health[name := Failed(c, p.health[name], status, now)])
  }

  lemma MovesSane(c: Config, names: seq<string>, p: Pool, step: Step, now: real, p': Pool)
    requires Sane(names, p) && Moves(c, names, p, step, now, p')
    ensures Sane(names, p')
  {
  }

  // States and steps alternate; every step has its clock reading.
  datatype Run = Stop | Go(step: Step, at: real, pool: Pool, rest: Run)

  ghost predicate RunFrom(c: Config, names: seq<string>, p: Pool, run: Run)
    requires Sane(names, p)
    decreases run
  {
    match run
    case Stop => true
    case Go(step, at, p', rest) => Moves(c, names, p, step, at, p') && (MovesSane(c, names, p, step, at, p'); RunFrom(c, names, p', rest))
  }

  function Acquisitions(run: Run): nat {
    match run
    case Stop => 0
    case Go(step, _, _, rest) => (if step.Acquire? then 1 else 0) + Acquisitions(rest)
  }

  // The endpoint's cooldown is over at every acquisition.
  predicate Ready(p: Pool, name: string, run: Run)
    decreases run
  {
    match run
    case Stop => true
    case Go(step, at, p', rest) => (step.Acquire? ==> name in p.health && Cooled(p.health[name], at)) && Ready(p', name, rest)
  }

  predicate Served(name: string, run: Run) {
    match run
    case Stop => false
    case Go(step, _, _, rest) => step == Acquire(Some(name)) || Served(name, rest)
  }

  // How many places after the cursor an endpoint stands.
  function Distance(index: nat, cursor: nat, total: nat): (d: nat)
    requires index < total && cursor < total
    ensures d < total && At(cursor, d, total) == index
  {
    if index >= cursor then index - cursor else index + total - cursor
  }

  // An endpoint passed over although ready comes strictly nearer the cursor.
  lemma Nearer(names: seq<string>, p: Pool, now: real, p': Pool, served: Option<string>, index: nat)
    requires Sane(names, p) && index < |names| && Cooled(p.health[names[index]], now)
    requires Serves(names, p, now, p', served) && served != Some(names[index])
    ensures served.Some? && p'.cursor < |names|
    ensures Distance(index, p'.cursor, |names|) < Distance(index, p.cursor, |names|)
  {
    var total := |names|;
    var d := Distance(index, p.cursor, total);
    var k :| 0 <= k < total && ServesAt(names, p, now, p', served.value, k);
    assert k <= d;
    assert k != d;
  }

  // Every wait is shorter than the distance, whatever is reported about the others meanwhile.
  lemma {:induction false} WaitIsBounded(c: Config, names: seq<string>, p: Pool, run: Run, index: nat)
    requires Sane(names, p) && RunFrom(c, names, p, run) && index < |names|
    requires Ready(p, names[index], run) && !Served(names[index], run)
    ensures Acquisitions(run) <= Distance(index, p.cursor, |names|)
    decreases run
  {
    match run {
      case Stop =>
      case Go(step, at, p', rest) =>
        MovesSane(c, names, p, step, at, p');
        if step.Acquire? {
          Nearer(names, p, at, p', step.served, index);
        }
        WaitIsBounded(c, names, p', rest, index);
    }
  }

  // In a pool of n, an endpoint ready at each of n acquisitions is served by one of them.
  lemma EveryoneIsServed(c: Config, names: seq<string>, p: Pool, run: Run, index: nat)
    requires Sane(names, p) && RunFrom(c, names, p, run) && index < |names|
    requires Ready(p, names[index], run) && Acquisitions(run) >= |names|
    ensures Served(names[index], run)
  {
    if !Served(names[index], run) {
      WaitIsBounded(c, names, p, run, index);
    }
  }

  // ----- What a report leaves -----

  // A failure is counted; one that says the endpoint is throttled also cools it down, from now, for the
  // delay its streak has earned, and gives it up once the streak is long enough.
  lemma FailureRecords(c: Config, h: Health, status: Option<int>, now: real)
    ensures var after := Failed(c, h, status, now);
      && after.failures == h.failures + 1 && after.consecutive == h.consecutive + 1 && after.successes == h.successes
      && if status.Some? && (status.value == 403 || status.value == 429 || status.value == 503) then
           after.cooldownUntil == now + Delay(c, h.consecutive + 1) && (after.dead <==> h.consecutive + 1 >= c.maxFailures)
         else after.cooldownUntil == h.cooldownUntil && after.dead == h.dead
  {
  }

  // A success is counted and wipes out streak, cooldown and verdict.
  lemma SuccessRecords(h: Health)
    ensures Succeeded(h) == Health(h.successes + 1, h.failures, 0, 0.0, false)
  {
  }

  // The endpoint served is ready; one that had been given up starts a new streak, and no other changes.
  lemma ServiceRecords(names: seq<string>, p: Pool, now: real, p': Pool, name: string)
    requires Sane(names, p) && Serves(names, p, now, p', Some(name))
    ensures name in p.health && now >= p.health[name].cooldownUntil
    ensures p'.health == p.health[name := if p.health[name].dead then p.health[name].(dead := false, consecutive := 0) else p.health[name]]
    ensures p'.cursor < |names| && names[if p'.cursor == 0 then |names| - 1 else p'.cursor - 1] == name
  {
  }

  function Throttled(c: Config, h: Health, times: seq<real>): Health {
    if times == [] then h else Failed(c, Throttled(c, h, times[..|times| - 1]), Some(429), times[|times| - 1])
  }

  // n throttled answers in a row cool an endpoint down from the last one on, for the nth delay.
  lemma {:induction false} StreakCools(c: Config, h: Health, times: seq<real>)
    requires h.consecutive == 0 && times != []
    ensures var after := Throttled(c, h, times);
      && after.consecutive == |times| && (after.dead <==> |times| >= c.maxFailures)
      && after.cooldownUntil == times[|times| - 1] + Delay(c, |times|)
  {
    var init := times[..|times| - 1];
    if init != [] { StreakCools(c, h, init); }
    FailureRecords(c, Throttled(c, h, init), Some(429), times[|times| - 1]);
  }

  // ----- Recovery -----

  // No cooldown ends later than the longest one from now.
  ghost predicate Bounded(c: Config, p: Pool, now: real) {
    forall name :: name in p.health ==> p.health[name].cooldownUntil <= now + c.max
  }

  ghost predicate Clocked(run: Run, since: real, until: real)
    decreases run
  {
    match run
    case Stop => since <= until
    case Go(_, at, _, rest) => since <= at && Clocked(rest, at, until)
  }

  function Final(p: Pool, run: Run): Pool
    decreases run
  {
    match run
    case Stop => p
    case Go(_, _, p', rest) => Final(p', rest)
  }

  lemma {:induction false} StaysBounded(c: Config, names: seq<string>, p: Pool, run: Run, since: real, until: real)
    requires Sound(c) && Sane(names, p) && RunFrom(c, names, p, run) && Clocked(run, since, until) && Bounded(c, p, since) && since >= 0.0
    ensures Bounded(c, Final(p, run), until) && Sane(names, Final(p, run))
    decreases run
  {
    match run {
      case Stop =>
      case Go(step, at, p', rest) =>
        MovesSane(c, names, p, step, at, p');
        StaysBounded(c, names, p', rest, at, until);
    }
  }

  // Left alone for the longest cooldown, a nonempty pool serves somebody, whatever happened before.
  lemma PoolRecovers(c: Config, names: seq<string>, start: Pool, run: Run, until: real, now: real, p': Pool, served: Option<string>)
    requires Sound(c) && names != [] && Sane(names, start) && RunFrom(c, names, start, run) && Clocked(run, 0.0, until)
    requires forall name :: name in start.health ==> start.health[name] == FRESH
    requires Sane(names, Final(start, run)) && now >= until + c.max
    requires Serves(names, Final(start, run), now, p', served)
    ensures served.Some?
  {
    StaysBounded(c, names, start, run, 0.0, until);
    var final := Final(start, run);
    assert names[0] in final.health;
    assert final.health[names[0]].cooldownUntil <= until + c.max;
  }
}
