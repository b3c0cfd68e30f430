/** Token buckets over real time: the arithmetic both limiters share, and the shared Redis counter. */
module TokenBucket {
  import opened Prelude

  datatype Limit = Limit(rate: real, capacity: real)
  datatype Bucket = Bucket(tokens: real, at: real)

  predicate Sound(l: Limit) {
    l.rate > 0.0 && l.capacity >= 1.0
  }

  function Min(x: real, y: real): real {
    if x <= y then x else y
  }

  function Elapsed(since: real, now: real): real {
    if now > since then now - since else 0.0
  }

  // The tokens a bucket holds at an instant.
  function Level(l: Limit, b: Bucket, now: real): real {
    Min(l.capacity, b.tokens + Elapsed(b.at, now) * l.rate)
  }

  predicate Admits(l: Limit, b: Bucket, cost: real, now: real) {
    Level(l, b, now) >= cost
  }

  function Drawn(l: Limit, b: Bucket, cost: real, now: real): Bucket {
    Bucket(Level(l, b, now) - (if Admits(l, b, cost, now) then cost else 0.0), now)
  }

  predicate Holds(l: Limit, b: Bucket) {
    0.0 <= b.tokens <= l.capacity
  }

  lemma TimesMonotone(rate: real, x: real, y: real)
    requires rate >= 0.0 && x <= y
    ensures x * rate <= y * rate
  {
  }

  // What flows in between two instants.
  function Refill(l: Limit, x: real, y: real): real {
    (y - x) * l.rate
  }

  lemma RefillPositive(l: Limit, x: real, y: real)
    requires Sound(l) && x <= y
    ensures Refill(l, x, y) >= 0.0
  {
  }

  lemma RefillAdds(l: Limit, x: real, y: real, z: real)
    ensures Refill(l, x, y) + Refill(l, y, z) == Refill(l, x, z)
  {
    assert ((y - x) + (z - y)) * l.rate == (y - x) * l.rate + (z - y) * l.rate;
  }

  lemma LevelBounds(l: Limit, b: Bucket, now: real)
    requires Sound(l) && Holds(l, b)
    ensures b.tokens <= Level(l, b, now) <= l.capacity
    ensures b.at <= now ==> Level(l, b, now) == Min(l.capacity, b.tokens + Refill(l, b.at, now))
  {
    TimesMonotone(l.rate, 0.0, Elapsed(b.at, now));
  }

  lemma DrawnHolds(l: Limit, b: Bucket, cost: real, now: real)
    requires Sound(l) && Holds(l, b) && cost >= 0.0
    ensures Holds(l, Drawn(l, b, cost, now))
  {
    LevelBounds(l, b, now);
  }

  // ----- Any run of requests -----

  datatype Request = Request(at: real, cost: real)

  ghost predicate Timely(run: seq<Request>) {
    && (forall i :: 0 <= i < |run| ==> run[i].cost > 0.0)
    && (forall i, j :: 0 <= i < j < |run| ==> run[i].at <= run[j].at)
  }

  // The tokens granted from instant s to instant t, both included.
  function Granted(l: Limit, b: Bucket, run: seq<Request>, s: real, t: real): real
    decreases |run|
  {
    if run == [] then 0.0
    else
      var r := run[0];
      (if Admits(l, b, r.cost, r.at) && s <= r.at <= t then r.cost else 0.0)
      + Granted(l, Drawn(l, b, r.cost, r.at), run[1..], s, t)
  }

  lemma {:induction false} NothingLater(l: Limit, b: Bucket, run: seq<Request>, s: real, t: real)
    requires Timely(run) && (run == [] || t < run[0].at)
    ensures Granted(l, b, run, s, t) == 0.0
    decreases |run|
  {
    if run != [] {
      NothingLater(l, Drawn(l, b, run[0].cost, run[0].at), run[1..], s, t);
    }
  }

  lemma Refills(l: Limit, b: Bucket, now: real, t: real)
    requires Sound(l) && Holds(l, b) && b.at <= now <= t
    ensures Level(l, b, now) + Refill(l, now, t) <= b.tokens + Refill(l, b.at, t)
  {
    LevelBounds(l, b, now);
    RefillAdds(l, b.at, now, t);
  }

  // A grant is paid for from the level.
  lemma Paid(l: Limit, b: Bucket, run: seq<Request>, s: real, t: real)
    requires run != [] && s <= run[0].at <= t
    ensures var r := run[0];
      var next := Drawn(l, b, r.cost, r.at);
      Granted(l, b, run, s, t) + next.tokens == Level(l, b, r.at) + Granted(l, next, run[1..], s, t)
  {
  }

  predicate Affordable(l: Limit, b: Bucket, run: seq<Request>, s: real, t: real)
    requires run != []
  {
    Granted(l, b, run, s, t) <= Level(l, b, run[0].at) + Refill(l, run[0].at, t)
  }

  lemma RestAffordable(l: Limit, b: Bucket, rest: seq<Request>, s: real, t: real)
    requires Sound(l) && Holds(l, b) && Timely(rest) && b.at <= t
    requires rest != [] && rest[0].at <= t ==> b.at <= rest[0].at && Affordable(l, b, rest, s, t)
    ensures Granted(l, b, rest, s, t) <= b.tokens + Refill(l, b.at, t)
  {
    if rest != [] && rest[0].at <= t {
      Refills(l, b, rest[0].at, t);
    } else {
      RefillPositive(l, b.at, t);
      NothingLater(l, b, rest, s, t);
    }
  }

  // Inside a window, grants are paid for by the level at the first request and by the refill since.
  lemma {:induction false} InsideWindow(l: Limit, b: Bucket, run: seq<Request>, s: real, t: real)
    requires Sound(l) && Holds(l, b) && Timely(run) && run != [] && s <= run[0].at <= t
    ensures Affordable(l, b, run, s, t)
    decreases |run|
  {
    var r, rest := run[0], run[1..];
    var next := Drawn(l, b, r.cost, r.at);
    Paid(l, b, run, s, t);
    DrawnHolds(l, b, r.cost, r.at);
    if rest != [] && rest[0].at <= t {
      InsideWindow(l, next, rest, s, t);
    }
    RestAffordable(l, next, rest, s, t);
  }

  // Over any closed window a bucket grants at most its capacity plus the refill of the window.
  lemma {:induction false} WindowBound(l: Limit, b: Bucket, run: seq<Request>, s: real, t: real)
    requires Sound(l) && Holds(l, b) && Timely(run) && s <= t
    ensures Granted(l, b, run, s, t) <= l.capacity + Refill(l, s, t)
    decreases |run|
  {
    RefillPositive(l, s, t);
    if run == [] || t < run[0].at {
      NothingLater(l, b, run, s, t);
    } else if s <= run[0].at {
      InsideWindow(l, b, run, s, t);
      LevelBounds(l, b, run[0].at);
      RefillPositive(l, s, run[0].at);
      RefillAdds(l, s, run[0].at, t);
    } else {
      DrawnHolds(l, b, run[0].cost, run[0].at);
      WindowBound(l, Drawn(l, b, run[0].cost, run[0].at), run[1..], s, t);
    }
  }

  // ----- Waiting -----

  // A refused request leaves the level at every later instant as it was.
  lemma RefusalIsFree(l: Limit, b: Bucket, cost: real, now: real, later: real)
    requires Sound(l) && Holds(l, b) && b.at <= now <= later && !Admits(l, b, cost, now) && cost <= l.capacity
    ensures Level(l, Drawn(l, b, cost, now), later) == Level(l, b, later)
  {
    RefillAdds(l, b.at, now, later);
  }

  // After a refusal, waiting is rewarded exactly when it lasts (cost - tokens) / rate.
  lemma WaitIsExact(l: Limit, b: Bucket, cost: real, wait: real)
    requires Sound(l) && Holds(l, b) && b.tokens < cost <= l.capacity && wait >= 0.0
    ensures Admits(l, b, cost, b.at + wait) <==> wait >= (cost - b.tokens) / l.rate
  {
    var need := (cost - b.tokens) / l.rate;
    assert need * l.rate == cost - b.tokens;
    assert Elapsed(b.at, b.at + wait) == wait;
    if wait >= need {
      TimesMonotone(l.rate, need, wait);
    } else {
      TimesStrict(l.rate, wait, need);
    }
  }

  lemma TimesStrict(rate: real, x: real, y: real)
    requires rate > 0.0 && x < y
    ensures x * rate < y * rate
  {
    assert (y - x) * rate > 0.0;
  }

  // ----- The shared counter in Redis -----

  // Least whole number not below x.
  function Ceiling(x: real): (n: int)
    ensures n as real - 1.0 < x <= n as real
  {
    -(-x).Floor
  }

  function Read(l: Limit, hash: Option<Bucket>, now: real): Bucket {
    hash.GetOr(Bucket(l.capacity, now))
  }

  function TimeToLive(l: Limit): int
    requires Sound(l)
  {
    var whole := Ceiling(l.capacity / l.rate);
    if whole > 1 then whole else 1
  }

  class SharedCounter {
    const limit: Limit
    var hash: Option<Bucket>
    // Redis may drop the hash once this instant is reached.
    var expiry: real

    constructor (limit: Limit)
      requires Sound(limit)
      ensures this.limit == limit && hash == None
    {
      this.limit := limit;
      hash, expiry := None, 0.0;
    }

    // One execution of the script.
    method Decide(now: real) returns (allowed: bool, retry: int)
      requires Sound(limit)
      modifies this
      ensures var b := Read(limit, old(hash), now);
        && hash == Some(Drawn(limit, b, 1.0, now))
        && allowed == Admits(limit, b, 1.0, now)
        && retry == if allowed then 0 else Ceiling((1.0 - Level(limit, b, now)) / limit.rate)
      ensures expiry == now + TimeToLive(limit) as real
    {
      var tokens, at := limit.capacity, now;
      if hash.Some? {
        tokens, at := hash.value.tokens, hash.value.at;
      }
      tokens := Min(limit.capacity, tokens + Elapsed(at, now) * limit.rate);
      assert tokens == Level(limit, Read(limit, hash, now), now);
      allowed, retry := false, 0;
      if tokens >= 1.0 {
        tokens := tokens - 1.0;
        allowed := true;
      } else {
        retry := Ceiling((1.0 - tokens) / limit.rate);
      }
      hash := Some(Bucket(tokens, now));
      expiry := now + TimeToLive(limit) as real;
    }

    method Drop(now: real)
      requires hash.Some? && expiry <= now
      modifies this`hash
      ensures hash == None
    {
      hash := None;
    }
  }

  // Losing the hash changes the next decision and state exactly when the bucket had not refilled by then.
  lemma DropShowsUnlessFull(l: Limit, b: Bucket, now: real)
    requires Sound(l) && Holds(l, b) && b.at <= now
    ensures (Drawn(l, Read(l, None, now), 1.0, now) == Drawn(l, b, 1.0, now) && Admits(l, Read(l, None, now), 1.0, now) == Admits(l, b, 1.0, now)
             <==> Refilled(l, b, now))
  {
    LevelBounds(l, b, now);
    assert Level(l, Read(l, None, now), now) == l.capacity;
  }

  lemma FullByExpiry(l: Limit, b: Bucket, now: real)
    requires Sound(l) && Holds(l, b) && b.at + TimeToLive(l) as real <= now
    ensures Refilled(l, b, now)
  {
    var full := l.capacity / l.rate;
    assert full * l.rate == l.capacity;
    assert full <= now - b.at;
    TimesMonotone(l.rate, full, now - b.at);
    assert (now - b.at) * l.rate >= l.capacity;
  }

  predicate Refilled(l: Limit, b: Bucket, now: real) {
    b.tokens + (now - b.at) * l.rate >= l.capacity
  }

  // Whatever a hash holds, its bucket is full again once it is this old.
  ghost predicate LongEnough(l: Limit, life: nat) {
    forall b, now :: Holds(l, b) && b.at + life as real <= now ==> Refilled(l, b, now)
  }

  // With a second less there is a bucket, an empty one, that is not full yet.
  lemma ShorterIsNotEnough(l: Limit, life: nat)
    requires Sound(l) && 1 <= life < TimeToLive(l)
    ensures !Refilled(l, Bucket(0.0, 0.0), life as real)
  {
    var full := l.capacity / l.rate;
    assert full * l.rate == l.capacity;
    assert life as real < full by { assert life as int <= Ceiling(full) - 1; }
    TimesStrict(l.rate, life as real, full);
    assert (life as real - 0.0) * l.rate == life as real * l.rate;
  }

  // The key's lifetime is the least whole number of seconds, at least one, that hides its expiry.
  lemma LifeIsLeast(l: Limit, life: nat)
    requires Sound(l) && life >= 1
    ensures LongEnough(l, life) <==> life >= TimeToLive(l)
  {
    if life >= TimeToLive(l) {
      forall b, now | Holds(l, b) && b.at + life as real <= now ensures Refilled(l, b, now) { FullByExpiry(l, b, now); }
    } else {
      ShorterIsNotEnough(l, life);
      assert Holds(l, Bucket(0.0, 0.0));
      assert LongEnough(l, life) ==> Refilled(l, Bucket(0.0, 0.0), life as real);
    }
  }

  // A request, and whether Redis had dropped the hash before it.
  datatype Arrival = Arrival(at: real, dropped: bool)
  datatype Reply = Reply(allowed: bool, retry: int)

  function ReplyOf(l: Limit, b: Bucket, now: real): Reply
    requires Sound(l)
  {
    if Admits(l, b, 1.0, now) then Reply(true, 0) else Reply(false, Ceiling((1.0 - Level(l, b, now)) / l.rate))
  }

  // Redis drops the hash no earlier than its time to live allows.
  ghost predicate Lawful(l: Limit, hash: Option<Bucket>, run: seq<Arrival>)
    requires Sound(l)
    decreases |run|
  {
    run == []
    || (var a := run[0];
        && (hash.Some? ==> hash.value.at <= a.at)
        && (hash.Some? && a.dropped ==> hash.value.at + TimeToLive(l) as real <= a.at)
        && Lawful(l, Some(Drawn(l, Read(l, if a.dropped then None else hash, a.at), 1.0, a.at)), run[1..]))
  }

  function Replies(l: Limit, hash: Option<Bucket>, run: seq<Arrival>): (replies: seq<Reply>)
    requires Sound(l)
    ensures |replies| == |run|
    decreases |run|
  {
    if run == [] then []
    else
      var a := run[0];
      var b := Read(l, if a.dropped then None else hash, a.at);
      [ReplyOf(l, b, a.at)] + Replies(l, Some(Drawn(l, b, 1.0, a.at)), run[1..])
  }

  function Kept(run: seq<Arrival>): seq<Arrival> {
    seq(|run|, i requires 0 <= i < |run| => run[i].(dropped := false))
  }

  function Requests(run: seq<Arrival>): seq<Request> {
    seq(|run|, i requires 0 <= i < |run| => Request(run[i].at, 1.0))
  }

  predicate HashHolds(l: Limit, hash: Option<Bucket>) {
    hash.Some? ==> Holds(l, hash.value)
  }

  // A lawful drop leaves the level at the next request what it was.
  lemma DroppedAlike(l: Limit, hash: Option<Bucket>, a: Arrival)
    requires Sound(l) && HashHolds(l, hash) && Lawful(l, hash, [a])
    ensures Level(l, Read(l, if a.dropped then None else hash, a.at), a.at) == Level(l, Read(l, hash, a.at), a.at)
  {
    if a.dropped && hash.Some? {
      FullByExpiry(l, hash.value, a.at);
      LevelBounds(l, hash.value, a.at);
    }
  }

  // No caller can tell whether the hash was ever dropped.
  lemma {:induction false} ExpiryIsInvisible(l: Limit, hash: Option<Bucket>, run: seq<Arrival>)
    requires Sound(l) && HashHolds(l, hash) && Lawful(l, hash, run)
    ensures Replies(l, hash, run) == Replies(l, hash, Kept(run))
    decreases |run|
  {
    if run != [] {
      var a := run[0];
      var b := Read(l, if a.dropped then None else hash, a.at);
      DroppedAlike(l, hash, a);
      DrawnHolds(l, b, 1.0, a.at);
      ExpiryIsInvisible(l, Some(Drawn(l, b, 1.0, a.at)), run[1..]);
      assert Kept(run)[1..] == Kept(run[1..]);
    }
  }

  // Requests let through from instant s to instant t.
  function Admitted(run: seq<Arrival>, replies: seq<Reply>, s: real, t: real): nat
    requires |run| == |replies|
    decreases |run|
  {
    if run == [] then 0
    else (if replies[0].allowed && s <= run[0].at <= t then 1 else 0) + Admitted(run[1..], replies[1..], s, t)
  }

  lemma {:induction false} CountIsGrant(l: Limit, b: Bucket, run: seq<Arrival>, s: real, t: real)
    requires Sound(l)
    ensures Admitted(run, Replies(l, Some(b), Kept(run)), s, t) as real == Granted(l, b, Requests(run), s, t)
    decreases |run|
  {
    if run != [] {
      var next := Drawn(l, b, 1.0, run[0].at);
      assert Kept(run)[1..] == Kept(run[1..]) && Requests(run)[1..] == Requests(run[1..]);
      CountIsGrant(l, next, run[1..], s, t);
    }
  }

  ghost predicate Ordered(run: seq<Arrival>) {
    forall i, j :: 0 <= i < j < |run| ==> run[i].at <= run[j].at
  }

  // Whatever Redis drops, the callers let through in [s, t] number at most burst + rate * (t - s).
  lemma AdmissionBound(l: Limit, run: seq<Arrival>, s: real, t: real)
    requires Sound(l) && Ordered(run) && Lawful(l, None, run) && s <= t
    ensures Admitted(run, Replies(l, None, run), s, t) as real <= l.capacity + Refill(l, s, t)
  {
    ExpiryIsInvisible(l, None, run);
    if run == [] {
      RefillPositive(l, s, t);
    } else {
      var full := Bucket(l.capacity, run[0].at);
      assert Replies(l, None, Kept(run)) == Replies(l, Some(full), Kept(run));
      CountIsGrant(l, full, run, s, t);
      WindowBound(l, full, Requests(run), s, t);
    }
  }

  // Nobody is let through in a run of refusals.
  predicate AllRefused(l: Limit, b: Bucket, times: seq<real>)
    decreases |times|
  {
    times == [] || (b.at <= times[0] && !Admits(l, b, 1.0, times[0]) && AllRefused(l, Drawn(l, b, 1.0, times[0]), times[1..]))
  }

  function After(l: Limit, b: Bucket, times: seq<real>): Bucket
    decreases |times|
  {
    if times == [] then b else After(l, Drawn(l, b, 1.0, times[0]), times[1..])
  }

  lemma {:induction false} RefusalsAreFree(l: Limit, b: Bucket, times: seq<real>, later: real)
    requires Sound(l) && Holds(l, b) && AllRefused(l, b, times) && b.at <= later
    requires forall i :: 0 <= i < |times| ==> times[i] <= later
    ensures Level(l, After(l, b, times), later) == Level(l, b, later)
    decreases |times|
  {
    if times != [] {
      RefusalIsFree(l, b, 1.0, times[0], later);
      DrawnHolds(l, b, 1.0, times[0]);
      RefusalsAreFree(l, Drawn(l, b, 1.0, times[0]), times[1..], later);
    }
  }

  // The returned delay is the least whole number of seconds after which a caller is let through,
  // however many others are refused meanwhile, provided nobody is let through.
  lemma RetryIsExact(l: Limit, b: Bucket, now: real, rivals: seq<real>, wait: nat)
    requires Sound(l) && Holds(l, b) && b.at <= now && !Admits(l, b, 1.0, now)
    requires AllRefused(l, Drawn(l, b, 1.0, now), rivals)
    requires forall i :: 0 <= i < |rivals| ==> rivals[i] <= now + wait as real
    ensures Admits(l, After(l, Drawn(l, b, 1.0, now), rivals), 1.0, now + wait as real) <==> wait >= ReplyOf(l, b, now).retry
  {
    var next := Drawn(l, b, 1.0, now);
    DrawnHolds(l, b, 1.0, now);
    WaitIsExact(l, next, 1.0, wait as real);
    RefusalsAreFree(l, next, rivals, now + wait as real);
  }
}
