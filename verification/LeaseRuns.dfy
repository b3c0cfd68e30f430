/** What each lease script answers and writes, entry by entry, and what becomes of a lease over a run. */
module LeaseRuns {
  import opened Leases

  predicate Touches(address: string, key: Key) {
    key == Address(address) || key == Global
  }

  // The entries of a key, and what is left of them at an instant.
  predicate Has(s: Store, key: Key, token: string, expiry: real) {
    token in Entries(s, key) && Entries(s, key)[token] == expiry
  }

  predicate SameKey(s: Store, s': Store, key: Key) {
    Entries(s', key) == Entries(s, key)
    && (key in s.deadlines <==> key in s'.deadlines) && (key in s.deadlines ==> s'.deadlines[key] == s.deadlines[key])
  }

  // ----- One script -----

  // A request is granted exactly when no enforced limit is reached by unexpired leases.
  lemma GrantedIffUnlimited(s: Store, address: string, token: string, now: real, terms: Terms)
    ensures var perAddress := set t | t in Entries(s, Address(address)) && Entries(s, Address(address))[t] > now;
      var total := set t | t in Entries(s, Global) && Entries(s, Global)[t] > now;
      Acquired(s, address, token, now, terms).1
      <==> (terms.perAddress == 0 || |perAddress| < terms.perAddress) && (terms.total == 0 || |total| < terms.total)
  {
    PurgeIs(s, address, now);
    var swept := PurgeAll(s, Keys(address), now);
    forall key | key in Keys(address)
      ensures |Entries(swept, key)| == |set t | t in Entries(s, key) && Entries(s, key)[t] > now|
    {
      assert Entries(swept, key).Keys == set t | t in Entries(s, key) && Entries(s, key)[t] > now;
    }
    assert Keys(address)[0] == Address(address) && Keys(address)[1] == Global;
  }

  // A grant writes the token into its address's set and the global one until a lease from now and lets
  // both keys live two leases; what had run out is gone, and no other key is touched.
  lemma GrantRecords(s: Store, address: string, token: string, now: real, terms: Terms, key: Key)
    requires Acquired(s, address, token, now, terms).1
    ensures var s' := Acquired(s, address, token, now, terms).0;
      if Touches(address, key) then
        && Has(s', key, token, now + terms.ttl as real)
        && (forall t, e: real :: t != token ==> (Has(s', key, t, e) <==> Has(s, key, t, e) && e > now))
        && key in s'.deadlines && s'.deadlines[key] == now + (2 * terms.ttl) as real
      else SameKey(s, s', key)
  {
    var swept := PurgeAll(s, Keys(address), now);
    PurgedHas(s, address, now, key);
    PutHas(swept, address, token, now, terms.ttl, key);
  }

  lemma PurgedHas(s: Store, address: string, now: real, key: Key)
    ensures var s' := PurgeAll(s, Keys(address), now);
      && s'.deadlines == s.deadlines && (!Touches(address, key) ==> SameKey(s, s', key))
      && forall t, e: real :: Has(s', key, t, e) <==> Has(s, key, t, e) && (Touches(address, key) ==> e > now)
  {
    PurgeIs(s, address, now);
  }

  lemma PutHas(s: Store, address: string, token: string, now: real, ttl: nat, key: Key)
    ensures var s' := PutAll(s, Keys(address), token, now, ttl);
      if Touches(address, key) then
        && Has(s', key, token, now + ttl as real)
        && (forall t, e: real :: t != token ==> (Has(s', key, t, e) <==> Has(s, key, t, e)))
        && key in s'.deadlines && s'.deadlines[key] == now + (2 * ttl) as real
      else SameKey(s, s', key)
  {
    PutIs(s, address, token, now, ttl);
  }

  // A refusal only sweeps: the token enters no set, and no key's deadline moves.
  lemma RefusalOnlySweeps(s: Store, address: string, token: string, now: real, terms: Terms, key: Key)
    requires !Acquired(s, address, token, now, terms).1
    ensures var s' := Acquired(s, address, token, now, terms).0;
      && s'.deadlines == s.deadlines
      && forall t, e: real :: Has(s', key, t, e) <==> Has(s, key, t, e) && (Touches(address, key) ==> e > now)
  {
    PurgedHas(s, address, now, key);
  }

  // A renewal is granted exactly to a token unexpired in both sets, and gives it a lease from now in both.
  lemma RenewalRecords(s: Store, address: string, token: string, now: real, ttl: nat, key: Key)
    ensures Renewed(s, address, token, now, ttl).1
            <==> (exists e: real :: Has(s, Address(address), token, e) && e > now) && exists e: real :: Has(s, Global, token, e) && e > now
    ensures var (s', renewed) := Renewed(s, address, token, now, ttl);
      if renewed && Touches(address, key) then
        && Has(s', key, token, now + ttl as real)
        && (forall t, e: real :: t != token ==> (Has(s', key, t, e) <==> Has(s, key, t, e)))
        && key in s'.deadlines && s'.deadlines[key] == now + (2 * ttl) as real
      else SameKey(s, s', key)
  {
    PutHas(s, address, token, now, ttl, key);
    assert Keys(address)[0] == Address(address) && Keys(address)[1] == Global;
    forall k | Live(s, k, token, now) ensures Has(s, k, token, Entries(s, k)[token]) {}
  }

  // A release takes the token out of both sets and leaves everything else.
  lemma ReleaseRemoves(s: Store, address: string, token: string, key: Key)
    ensures var s' := RemoveAll(s, Keys(address), token);
      && s'.deadlines == s.deadlines
      && forall t, e: real :: Has(s', key, t, e) <==> Has(s, key, t, e) && !(t == token && Touches(address, key))
  {
    RemoveIs(s, address, token);
  }

  // ----- Every run -----

  predicate Spares(steps: seq<(Step, real)>, token: string) {
    forall i :: 0 <= i < |steps| ==> steps[i].0 != Release(token)
  }

  predicate Lasts(s: Store, key: Key, token: string, until: real) {
    token in Entries(s, key) && Entries(s, key)[token] >= until
  }

  // The step grants `token` a lease counted under `key`.
  predicate Grants(w: World, step: Step, at: real, terms: Terms, key: Key, token: string) {
    step.Acquire? && step.token == token && Touches(step.address, key)
    && Acquired(w.store, step.address, token, at, terms).1
  }

  // Some step of the run grants `token` a lease under `key` after `since`, and none after it releases the token.
  ghost predicate Granted(w: World, steps: seq<(Step, real)>, terms: Terms, key: Key, token: string, since: real)
    decreases steps
  {
    steps != [] && Enabled(w, steps[0].0, steps[0].1)
    && ((steps[0].1 > since && Grants(w, steps[0].0, steps[0].1, terms, key, token) && Spares(steps[1..], token))
        || Granted(Next(w, steps[0].0, steps[0].1, terms), steps[1..], terms, key, token, since))
  }

  // Entering another token, or this one again for no shorter, keeps an entry's expiry.
  lemma PutLasts(s: Store, address: string, other: string, now: real, ttl: nat, key: Key, token: string, until: real)
    requires Lasts(s, key, token, until) && (other == token ==> now + ttl as real >= until)
    ensures Lasts(PutAll(s, Keys(address), other, now, ttl), key, token, until)
  {
    PutIs(s, address, other, now, ttl);
  }

  lemma AcquireLasts(s: Store, address: string, other: string, now: real, terms: Terms, key: Key, token: string, until: real)
    requires Lasts(s, key, token, until) && other != token && now < until
    ensures Lasts(Acquired(s, address, other, now, terms).0, key, token, until)
  {
    var swept := PurgeAll(s, Keys(address), now);
    assert Lasts(swept, key, token, until) by { PurgeIs(s, address, now); }
    PutLasts(swept, address, other, now, terms.ttl, key, token, until);
  }

  lemma RemoveLasts(s: Store, address: string, other: string, key: Key, token: string, until: real)
    requires Lasts(s, key, token, until) && other != token
    ensures Lasts(RemoveAll(s, Keys(address), other), key, token, until)
  {
    RemoveIs(s, address, other);
  }

  lemma StepLasts(w: World, terms: Terms, now: real, step: Step, token: string, key: Key, until: real)
    requires Safe(w, terms, now) && Enforced(terms) && Enabled(w, step, now) && step != Release(token)
    requires Lasts(w.store, key, token, until) && now < until
    ensures Lasts(Next(w, step, now, terms).store, key, token, until)
  {
    OwnedIfEntered(w, key, token, now);
    match step {
      case Acquire(address, t) => AcquireLasts(w.store, address, t, now, terms, key, token, until);
      case Renew(t) => PutLasts(w.store, w.owners[t], t, now, terms.ttl, key, token, until);
      case Release(t) => RemoveLasts(w.store, w.owners[t], t, key, token, until);
      case Drop(k) =>
        assert Entries(w.store, key)[token] > now;
        assert forall t :: t in Entries(w.store, k) ==> Entries(w.store, k)[t] <= now;
    }
  }

  lemma {:induction false} RunForward(w: World, since: real, steps: seq<(Step, real)>, terms: Terms, w': World, now: real)
    requires RunFrom(w, since, steps, terms, w', now)
    ensures since <= now
    decreases steps
  {
    if steps != [] { RunForward(Next(w, steps[0].0, steps[0].1, terms), steps[0].1, steps[1..], terms, w', now); }
  }

  // However the run goes on, an unreleased lease keeps its entry, and its expiry is never brought forward.
  lemma {:induction false} LeaseLasts(w: World, since: real, steps: seq<(Step, real)>, terms: Terms, w': World, now: real,
                                      key: Key, token: string, until: real)
    requires Safe(w, terms, since) && Enforced(terms) && RunFrom(w, since, steps, terms, w', now)
    requires Lasts(w.store, key, token, until) && Spares(steps, token) && now < until
    ensures Lasts(w'.store, key, token, until)
    decreases steps
  {
    if steps != [] {
      var (step, at) := steps[0];
      TimePasses(w, terms, since, at);
      StepSafe(w, step, terms, since, at);
      RunForward(Next(w, step, at, terms), at, steps[1..], terms, w', now);
      StepLasts(w, terms, at, step, token, key, until);
      LeaseLasts(Next(w, step, at, terms), at, steps[1..], terms, w', now, key, token, until);
    }
  }

  // A lease granted less than a lease ago and not released is live.
  lemma {:induction false} GrantedIsLive(w: World, since: real, steps: seq<(Step, real)>, terms: Terms, w': World, now: real,
                                         key: Key, token: string)
    requires Safe(w, terms, since) && Enforced(terms) && RunFrom(w, since, steps, terms, w', now)
    requires Granted(w, steps, terms, key, token, now - terms.ttl as real)
    ensures token in Entries(w'.store, key) && Entries(w'.store, key)[token] > now
    decreases steps
  {
    var (step, at) := steps[0];
    var w1 := Next(w, step, at, terms);
    StepSafe(w, step, terms, since, at);
    if Granted(w1, steps[1..], terms, key, token, now - terms.ttl as real) {
      GrantedIsLive(w1, at, steps[1..], terms, w', now, key, token);
    } else {
      GrantRecords(w.store, step.address, token, at, terms, key);
      LeaseLasts(w1, at, steps[1..], terms, w', now, key, token, at + terms.ttl as real);
    }
  }

  // Once as many leases as an address may hold were granted to it within one lease's time and none of
  // them released, its next request is refused; likewise for all addresses together.
  lemma FullIsRefused(start: real, steps: seq<(Step, real)>, terms: Terms, w: World, now: real,
                      granted: set<string>, address: string, token: string)
    requires Enforced(terms) && RunFrom(NONE, start, steps, terms, w, now)
    requires (|granted| >= terms.perAddress
              && forall t :: t in granted ==> Granted(NONE, steps, terms, Address(address), t, now - terms.ttl as real))
             || (|granted| >= terms.total
                 && forall t :: t in granted ==> Granted(NONE, steps, terms, Global, t, now - terms.ttl as real))
    ensures !Acquired(w.store, address, token, now, terms).1
  {
    NothingSafe(terms, start);
    GrantedIffRoom(w.store, terms, now, address, token);
    if |granted| >= terms.perAddress && forall t :: t in granted ==> Granted(NONE, steps, terms, Address(address), t, now - terms.ttl as real) {
      HeldTogether(start, steps, terms, w, now, Address(address), granted);
    } else {
      HeldTogether(start, steps, terms, w, now, Global, granted);
    }
  }

  lemma HeldTogether(start: real, steps: seq<(Step, real)>, terms: Terms, w: World, now: real, key: Key, granted: set<string>)
    requires Enforced(terms) && RunFrom(NONE, start, steps, terms, w, now)
    requires forall t :: t in granted ==> Granted(NONE, steps, terms, key, t, now - terms.ttl as real)
    ensures |granted| <= |Lively(w.store, key, now)|
  {
    NothingSafe(terms, start);
    forall t | t in granted ensures t in Lively(w.store, key, now) {
      GrantedIsLive(NONE, start, steps, terms, w, now, key, t);
    }
    SubmapSize(map t | t in granted :: 0.0, Lively(w.store, key, now));
    assert (map t | t in granted :: 0.0).Keys == granted;
    assert |map t | t in granted :: 0.0| == |(map t | t in granted :: 0.0).Keys|;
  }

  lemma NothingSafe(terms: Terms, start: real)
    requires Enforced(terms)
    ensures Safe(NONE, terms, start)
  {
    assert forall key :: Lively(NONE.store, key, start) == map[];
  }

  // Conversely, whatever is entered under a key was granted under it by some step and not released since.
  lemma {:induction false} EnteredIfGranted(w: World, since: real, steps: seq<(Step, real)>, terms: Terms, w': World, now: real,
                                            key: Key, token: string)
    requires Safe(w, terms, since) && Enforced(terms) && RunFrom(w, since, steps, terms, w', now)
    requires token in Entries(w'.store, key)
    ensures (token in Entries(w.store, key) && Spares(steps, token)) || Granted(w, steps, terms, key, token, since - 1.0)
    decreases steps
  {
    if steps != [] {
      var (step, at) := steps[0];
      var w1 := Next(w, step, at, terms);
      StepSafe(w, step, terms, since, at);
      EnteredIfGranted(w1, at, steps[1..], terms, w', now, key, token);
      if Granted(w1, steps[1..], terms, key, token, at - 1.0) {
        GrantedSooner(w1, steps[1..], terms, key, token, at - 1.0, since - 1.0);
      } else {
        EnteredByStep(w, terms, since, step, at, key, token);
      }
    }
  }

  lemma {:induction false} GrantedSooner(w: World, steps: seq<(Step, real)>, terms: Terms, key: Key, token: string, late: real, early: real)
    requires Granted(w, steps, terms, key, token, late) && early <= late
    ensures Granted(w, steps, terms, key, token, early)
    decreases steps
  {
    var w1 := Next(w, steps[0].0, steps[0].1, terms);
    if Granted(w1, steps[1..], terms, key, token, late) { GrantedSooner(w1, steps[1..], terms, key, token, late, early); }
  }

  lemma EnteredByStep(w: World, terms: Terms, since: real, step: Step, at: real, key: Key, token: string)
    requires Safe(w, terms, since) && since <= at && Enabled(w, step, at)
    requires token in Entries(Next(w, step, at, terms).store, key)
    ensures (token in Entries(w.store, key) && step != Release(token)) || Grants(w, step, at, terms, key, token)
  {
    match step {
      case Acquire(address, t) => EnteredByAcquire(w.store, address, t, at, terms, key, token);
      case Renew(t) => EnteredByRenewal(w.store, w.owners[t], t, at, terms.ttl, key, token);
      case Release(t) =>
        RemoveIs(w.store, w.owners[t], t);
        if t == token { NowhereOnceReleased(w, terms, since, token, key); }
      case Drop(k) =>
    }
  }

  lemma EnteredByAcquire(s: Store, address: string, t: string, at: real, terms: Terms, key: Key, token: string)
    requires token in Entries(Acquired(s, address, t, at, terms).0, key)
    ensures token in Entries(s, key) || (t == token && Touches(address, key) && Acquired(s, address, t, at, terms).1)
  {
    var s' := Acquired(s, address, t, at, terms).0;
    var e := Entries(s', key)[token];
    assert Has(s', key, token, e);
    if Acquired(s, address, t, at, terms).1 {
      GrantRecords(s, address, t, at, terms, key);
    } else {
      RefusalOnlySweeps(s, address, t, at, terms, key);
    }
  }

  lemma EnteredByRenewal(s: Store, address: string, t: string, at: real, ttl: nat, key: Key, token: string)
    requires token in Entries(Renewed(s, address, t, at, ttl).0, key)
    ensures token in Entries(s, key)
  {
    PutIs(s, address, t, at, ttl);
    assert Keys(address)[0] == Address(address) && Keys(address)[1] == Global;
  }

  lemma NowhereOnceReleased(w: World, terms: Terms, since: real, token: string, key: Key)
    requires Safe(w, terms, since) && token in w.owners
    ensures token !in Entries(RemoveAll(w.store, Keys(w.owners[token]), token), key)
  {
    RemoveIs(w.store, w.owners[token], token);
    if key.Address? { assert token in Entries(w.store, Address(key.address)) ==> w.owners[token] == key.address; }
  }

  // A lease is held under a key only if a request made under that key was granted, and not released since.
  lemma HeldWasGranted(start: real, steps: seq<(Step, real)>, terms: Terms, w: World, now: real, key: Key, token: string)
    requires Enforced(terms) && RunFrom(NONE, start, steps, terms, w, now)
    requires token in Lively(w.store, key, now)
    ensures Granted(NONE, steps, terms, key, token, start - 1.0)
  {
    NothingSafe(terms, start);
    EnteredIfGranted(NONE, start, steps, terms, w, now, key, token);
  }

  // A released token is entered under no key, whatever the run was.
  lemma ReleasedNowhere(w: World, terms: Terms, now: real, token: string, key: Key)
    requires Reachable(w, terms, now) && Enforced(terms) && token in w.owners
    ensures token !in Entries(Next(w, Release(token), now, terms).store, key)
  {
    ReachableSafe(w, terms, now);
    NowhereOnceReleased(w, terms, now, token, key);
  }
}
