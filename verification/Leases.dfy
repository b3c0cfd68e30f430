/** Stream leases in Redis: every lease is an entry in its address's sorted set and in the global one. */
module Leases {
  import opened Prelude

  datatype Key = Address(address: string) | Global

  // One sorted set per key, and the instant from which Redis may drop the whole key.
  datatype Store = Store(sets: map<Key, map<string, real>>, deadlines: map<Key, real>)

  // A whole number of seconds, and the limits; a limit of zero is not enforced.
  datatype Terms = Terms(ttl: nat, perAddress: nat, total: nat)

  function Keys(address: string): seq<Key> {
    [Address(address), Global]
  }

  function Entries(s: Store, key: Key): map<string, real> {
    if key in s.sets then s.sets[key] else map[]
  }

  function Unexpired(entries: map<string, real>, now: real): map<string, real> {
    map token | token in entries && entries[token] > now :: entries[token]
  }

  function PurgeKey(s: Store, key: Key, now: real): Store {
    s.(sets := s.sets[key := Unexpired(Entries(s, key), now)])
  }

  function PutKey(s: Store, key: Key, token: string, now: real, ttl: nat): Store {
    Store(s.sets[key := Entries(s, key)[token := now + ttl as real]], s.deadlines[key := now + (2 * ttl) as real])
  }

  function RemoveKey(s: Store, key: Key, token: string): Store {
    s.(sets := s.sets[key := Entries(s, key) - {token}])
  }

  function PurgeAll(s: Store, keys: seq<Key>, now: real): Store
    decreases |keys|
  {
    if keys == [] then s else PurgeAll(PurgeKey(s, keys[0], now), keys[1..], now)
  }

  function PutAll(s: Store, keys: seq<Key>, token: string, now: real, ttl: nat): Store
    decreases |keys|
  {
    if keys == [] then s else PutAll(PutKey(s, keys[0], token, now, ttl), keys[1..], token, now, ttl)
  }

  function RemoveAll(s: Store, keys: seq<Key>, token: string): Store
    decreases |keys|
  {
    if keys == [] then s else RemoveAll(RemoveKey(s, keys[0], token), keys[1..], token)
  }

  predicate Live(s: Store, key: Key, token: string, now: real) {
    token in Entries(s, key) && Entries(s, key)[token] > now
  }

  predicate LiveIn(s: Store, keys: seq<Key>, token: string, now: real) {
    forall i :: 0 <= i < |keys| ==> Live(s, keys[i], token, now)
  }

  predicate Full(s: Store, address: string, terms: Terms) {
    (terms.perAddress > 0 && |Entries(s, Address(address))| >= terms.perAddress)
    || (terms.total > 0 && |Entries(s, Global)| >= terms.total)
  }

  function Acquired(s: Store, address: string, token: string, now: real, terms: Terms): (Store, bool) {
    var swept := PurgeAll(s, Keys(address), now);
    if Full(swept, address, terms) then (swept, false) else (PutAll(swept, Keys(address), token, now, terms.ttl), true)
  }

  function Renewed(s: Store, address: string, token: string, now: real, ttl: nat): (Store, bool) {
    if LiveIn(s, Keys(address), token, now) then (PutAll(s, Keys(address), token, now, ttl), true) else (s, false)
  }

  class LeaseStore {
    var sets: map<Key, map<string, real>>
    var deadlines: map<Key, real>

    function View(): Store
      reads this
    {
      Store(sets, deadlines)
    }

    constructor ()
      ensures View() == Store(map[], map[])
    {
      sets, deadlines := map[], map[];
    }

    method Acquire(address: string, token: string, now: real, terms: Terms) returns (granted: bool)
      modifies this
      ensures (View(), granted) == Acquired(old(View()), address, token, now, terms)
    {
      var keys := Keys(address);
      for i := 0 to |keys|
        invariant PurgeAll(View(), keys[i..], now) == PurgeAll(old(View()), keys, now)
      {
        assert keys[i..][0] == keys[i] && keys[i..][1..] == keys[i + 1..];
        sets := sets[keys[i] := Unexpired(Entries(View(), keys[i]), now)];
      }
      if (terms.perAddress > 0 && |Entries(View(), keys[0])| >= terms.perAddress)
         || (terms.total > 0 && |Entries(View(), keys[1])| >= terms.total) {
        return false;
      }
      Put(keys, token, now, terms.ttl);
      granted := true;
    }

    // Writes the entry and pushes back the key's own expiry, key by key.
    method Put(keys: seq<Key>, token: string, now: real, ttl: nat)
      modifies this
      ensures View() == PutAll(old(View()), keys, token, now, ttl)
    {
      for i := 0 to |keys|
        invariant PutAll(View(), keys[i..], token, now, ttl) == PutAll(old(View()), keys, token, now, ttl)
      {
        assert keys[i..][0] == keys[i] && keys[i..][1..] == keys[i + 1..];
        sets := sets[keys[i] := Entries(View(), keys[i])[token := now + ttl as real]];
        deadlines := deadlines[keys[i] := now + (2 * ttl) as real];
      }
      assert keys[|keys|..] == [];
    }

    method Renew(address: string, token: string, now: real, ttl: nat) returns (renewed: bool)
      modifies this
      ensures (View(), renewed) == Renewed(old(View()), address, token, now, ttl)
    {
      var keys := Keys(address);
      for i := 0 to |keys|
        invariant View() == old(View())
        invariant forall k :: 0 <= k < i ==> Live(View(), keys[k], token, now)
      {
        var entries := Entries(View(), keys[i]);
        if token !in entries || entries[token] <= now {
          assert !Live(View(), keys[i], token, now);
          return false;
        }
      }
      Put(keys, token, now, ttl);
      renewed := true;
    }

    method Release(address: string, token: string)
      modifies this`sets
      ensures View() == RemoveAll(old(View()), Keys(address), token)
    {
      var keys := Keys(address);
      for i := 0 to |keys|
        invariant RemoveAll(View(), keys[i..], token) == RemoveAll(old(View()), keys, token)
      {
        assert keys[i..][0] == keys[i] && keys[i..][1..] == keys[i + 1..];
        sets := sets[keys[i] := Entries(View(), keys[i]) - {token}];
      }
    }
  }

  // ----- Every run -----

  // `owners` remembers the address every token was created for.
  datatype World = World(store: Store, owners: map<string, string>)

  datatype Step =
    | Acquire(address: string, token: string)
    | Renew(token: string)
    | Release(token: string)
    | Drop(key: Key)

  // Tokens are never reused, a lease is renewed and released under its own address, and Redis drops
  // a key no earlier than its deadline.
  predicate Enabled(w: World, step: Step, now: real) {
    match step
    case Acquire(_, token) => token !in w.owners
    case Renew(token) => token in w.owners
    case Release(token) => token in w.owners
    case Drop(key) => key in w.store.deadlines && w.store.deadlines[key] <= now
  }

  function Next(w: World, step: Step, now: real, terms: Terms): World
    requires Enabled(w, step, now)
  {
    match step
    case Acquire(address, token) => World(Acquired(w.store, address, token, now, terms).0, w.owners[token := address])
    case Renew(token) => w.(store := Renewed(w.store, w.owners[token], token, now, terms.ttl).0)
    case Release(token) => w.(store := RemoveAll(w.store, Keys(w.owners[token]), token))
    case Drop(key) => w.(store := w.store.(sets := w.store.sets - {key}))
  }

  predicate Enforced(terms: Terms) {
    terms.ttl >= 1 && terms.perAddress >= 1 && terms.total >= 1
  }

  // The live tokens of a key, with their expiries.
  function Lively(s: Store, key: Key, now: real): map<string, real> {
    Unexpired(Entries(s, key), now)
  }

  // A token is live globally exactly when it is live at its owner's address, with the same expiry,
  // and it is entered at no other address.
  ghost predicate Matched(w: World, now: real) {
    Owned(w) && forall token {:trigger w.owners[token]} :: token in w.owners ==> Mirrored(w.store, w.owners[token], token, now)
  }

  ghost predicate Owned(w: World) {
    && (forall token, address {:trigger token in Entries(w.store, Address(address))} ::
          token in Entries(w.store, Address(address)) ==> token in w.owners && w.owners[token] == address)
    && (forall token {:trigger token in Entries(w.store, Global)} :: token in Entries(w.store, Global) ==> token in w.owners)
  }

  predicate Mirrored(s: Store, address: string, token: string, now: real) {
    && (Live(s, Global, token, now) <==> Live(s, Address(address), token, now))
    && (Live(s, Global, token, now) ==> Entries(s, Global)[token] == Entries(s, Address(address))[token])
  }

  function Cap(key: Key, terms: Terms): nat {
    if key.Global? then terms.total else terms.perAddress
  }

  predicate Fits(s: Store, key: Key, terms: Terms, now: real) {
    |Lively(s, key, now)| <= Cap(key, terms)
  }

  ghost predicate Limited(s: Store, terms: Terms, now: real) {
    forall key :: Fits(s, key, terms, now)
  }

  // Every entry has run out a full lease before its key may be dropped, and none outlasts a lease.
  ghost predicate Outlived(s: Store, ttl: nat, now: real) {
    forall key, token {:trigger token in Entries(s, key)} :: token in Entries(s, key) ==>
      key in s.deadlines && Entries(s, key)[token] + ttl as real <= s.deadlines[key] && Entries(s, key)[token] <= now + ttl as real
  }

  ghost predicate Safe(w: World, terms: Terms, now: real) {
    Matched(w, now) && Limited(w.store, terms, now) && Outlived(w.store, terms.ttl, now)
  }

  // ----- What each script does, key by key -----

  lemma PurgeIs(s: Store, address: string, now: real)
    ensures var s' := PurgeAll(s, Keys(address), now);
      && s'.deadlines == s.deadlines
      && forall key :: Entries(s', key) == (if key in Keys(address) then Unexpired(Entries(s, key), now) else Entries(s, key))
  {
    var mid := PurgeKey(s, Address(address), now);
    assert Keys(address)[1..] == [Global];
    assert PurgeAll(mid, [Global], now) == PurgeKey(mid, Global, now);
  }

  lemma PutIs(s: Store, address: string, token: string, now: real, ttl: nat)
    ensures var s' := PutAll(s, Keys(address), token, now, ttl);
      && (forall key :: Entries(s', key) == (if key in Keys(address) then Entries(s, key)[token := now + ttl as real] else Entries(s, key)))
      && s'.deadlines == s.deadlines[Address(address) := now + (2 * ttl) as real][Global := now + (2 * ttl) as real]
  {
    var mid := PutKey(s, Address(address), token, now, ttl);
    assert Keys(address)[1..] == [Global];
    assert PutAll(mid, [Global], token, now, ttl) == PutKey(mid, Global, token, now, ttl);
  }

  lemma RemoveIs(s: Store, address: string, token: string)
    ensures var s' := RemoveAll(s, Keys(address), token);
      && s'.deadlines == s.deadlines
      && forall key :: Entries(s', key) == (if key in Keys(address) then Entries(s, key) - {token} else Entries(s, key))
  {
    var mid := RemoveKey(s, Address(address), token);
    assert Keys(address)[1..] == [Global];
    assert RemoveAll(mid, [Global], token) == RemoveKey(mid, Global, token);
  }

  lemma {:induction false} SubmapSize(a: map<string, real>, b: map<string, real>)
    requires a.Keys <= b.Keys
    ensures |a| <= |b|
  {
    SubsetSize(a.Keys, b.Keys);
  }

  // ----- Preservation -----

  lemma FewerFits(s: Store, now: real, s': Store, now': real, key: Key, terms: Terms)
    requires Fits(s, key, terms, now) && Lively(s', key, now').Keys <= Lively(s, key, now).Keys
    ensures Fits(s', key, terms, now')
  {
    SubmapSize(Lively(s', key, now'), Lively(s, key, now));
  }

  lemma TimePasses(w: World, terms: Terms, since: real, now: real)
    requires Safe(w, terms, since) && since <= now
    ensures Safe(w, terms, now)
  {
    assert Limited(w.store, terms, now) by {
      forall key ensures Fits(w.store, key, terms, now) {
        assert Fits(w.store, key, terms, since);
        FewerFits(w.store, since, w.store, now, key, terms);
      }
    }
    assert Matched(w, now) by {
      forall token | token in w.owners ensures Mirrored(w.store, w.owners[token], token, now) {
        assert Mirrored(w.store, w.owners[token], token, since);
      }
    }
  }

  // Sweeping, and dropping a key in time, remove nothing live: not now and not later.
  lemma SweptLively(s: Store, address: string, now: real, later: real)
    requires now <= later
    ensures forall key :: Lively(PurgeAll(s, Keys(address), now), key, later) == Lively(s, key, later)
  {
    PurgeIs(s, address, now);
  }

  lemma DropHarmless(w: World, key: Key, now: real, terms: Terms, later: real)
    requires Outlived(w.store, terms.ttl, now) && Enabled(w, Drop(key), now) && now <= later
    ensures forall k :: Lively(Next(w, Drop(key), now, terms).store, k, later) == Lively(w.store, k, later)
  {
    assert forall token :: token in Entries(w.store, key) ==> Entries(w.store, key)[token] <= now;
    assert Lively(w.store, key, later) == map[];
  }

  // Removing entries that are not live keeps everything.
  lemma LessButAsLive(w: World, s': Store, terms: Terms, now: real)
    requires Safe(w, terms, now) && s'.deadlines == w.store.deadlines
    requires forall key :: Lively(s', key, now) == Lively(w.store, key, now)
    requires forall key, token {:trigger token in Entries(s', key)} :: token in Entries(s', key) ==>
      token in Entries(w.store, key) && Entries(s', key)[token] == Entries(w.store, key)[token]
    ensures Safe(w.(store := s'), terms, now)
  {
    assert Limited(s', terms, now) by {
      forall key ensures Fits(s', key, terms, now) { assert Fits(w.store, key, terms, now); }
    }
    forall token | token in w.owners ensures Mirrored(s', w.owners[token], token, now) {
      assert Mirrored(w.store, w.owners[token], token, now);
      LiveIsLively(w.store, Global, token, now);
      LiveIsLively(s', Global, token, now);
      LiveIsLively(w.store, Address(w.owners[token]), token, now);
      LiveIsLively(s', Address(w.owners[token]), token, now);
    }
  }

  lemma LiveIsLively(s: Store, key: Key, token: string, now: real)
    ensures Live(s, key, token, now) <==> token in Lively(s, key, now)
    ensures Live(s, key, token, now) ==> Lively(s, key, now)[token] == Entries(s, key)[token]
  {
  }

  lemma SweptSafe(w: World, address: string, terms: Terms, now: real)
    requires Safe(w, terms, now)
    ensures Safe(w.(store := PurgeAll(w.store, Keys(address), now)), terms, now)
  {
    PurgeIs(w.store, address, now);
    SweptLively(w.store, address, now, now);
    LessButAsLive(w, PurgeAll(w.store, Keys(address), now), terms, now);
  }

  // Both sets receive the same entry, for a token new or already the address's own.
  lemma PutSafe(w: World, address: string, token: string, terms: Terms, now: real)
    requires Safe(w, terms, now) && Enforced(terms)
    requires token in w.owners ==> w.owners[token] == address
    requires RoomFor(w.store, Address(address), token, terms, now) && RoomFor(w.store, Global, token, terms, now)
    ensures Safe(World(PutAll(w.store, Keys(address), token, now, terms.ttl), w.owners[token := address]), terms, now)
  {
    PutMatched(w, address, token, terms, now);
    PutLimited(w.store, address, token, terms, now);
    PutOutlived(w.store, address, token, terms.ttl, now);
  }

  predicate RoomFor(s: Store, key: Key, token: string, terms: Terms, now: real) {
    |Lively(s, key, now)[token := 0.0]| <= Cap(key, terms)
  }

  lemma PutLimited(s: Store, address: string, token: string, terms: Terms, now: real)
    requires Limited(s, terms, now)
    requires RoomFor(s, Address(address), token, terms, now) && RoomFor(s, Global, token, terms, now)
    ensures Limited(PutAll(s, Keys(address), token, now, terms.ttl), terms, now)
  {
    var s' := PutAll(s, Keys(address), token, now, terms.ttl);
    PutIs(s, address, token, now, terms.ttl);
    forall key ensures Fits(s', key, terms, now) {
      assert Fits(s, key, terms, now);
      if key in Keys(address) {
        SubmapSize(Lively(s', key, now), Lively(s, key, now)[token := 0.0]);
      }
    }
  }

  lemma PutOutlived(s: Store, address: string, token: string, ttl: nat, now: real)
    requires Outlived(s, ttl, now)
    ensures Outlived(PutAll(s, Keys(address), token, now, ttl), ttl, now)
  {
    PutIs(s, address, token, now, ttl);
  }

  lemma PutMatched(w: World, address: string, token: string, terms: Terms, now: real)
    requires Matched(w, now) && terms.ttl >= 1 && (token in w.owners ==> w.owners[token] == address)
    ensures Matched(World(PutAll(w.store, Keys(address), token, now, terms.ttl), w.owners[token := address]), now)
  {
    var w' := World(PutAll(w.store, Keys(address), token, now, terms.ttl), w.owners[token := address]);
    forall t | t in w'.owners ensures Mirrored(w'.store, w'.owners[t], t, now) {
      if t != token {
        assert Mirrored(w.store, w.owners[t], t, now);
      }
      assert t == token ==> w'.owners[t] == address;
      PutMirrored(w.store, address, token, terms.ttl, now, w'.owners[t], t);
    }
    PutOwned(w, address, token, terms.ttl, now);
  }

  lemma PutOwned(w: World, address: string, token: string, ttl: nat, now: real)
    requires Owned(w) && (token in w.owners ==> w.owners[token] == address)
    ensures Owned(World(PutAll(w.store, Keys(address), token, now, ttl), w.owners[token := address]))
  {
    PutIs(w.store, address, token, now, ttl);
  }

  lemma PutMirrored(s: Store, address: string, token: string, ttl: nat, now: real, owner: string, t: string)
    requires ttl >= 1 && (if t == token then owner == address else Mirrored(s, owner, t, now))
    ensures Mirrored(PutAll(s, Keys(address), token, now, ttl), owner, t, now)
  {
    PutIs(s, address, token, now, ttl);
  }

  // A token refused leaves no trace but its owner.
  lemma NewOwner(w: World, address: string, token: string, now: real)
    requires Matched(w, now) && token !in w.owners
    ensures Matched(w.(owners := w.owners[token := address]), now)
  {
    var owners := w.owners[token := address];
    forall t {:trigger owners[t]} | t in owners ensures Mirrored(w.store, owners[t], t, now) {
      if t != token { assert Mirrored(w.store, w.owners[t], t, now); }
    }
  }

  lemma AcquireSafe(w: World, address: string, token: string, terms: Terms, now: real)
    requires Safe(w, terms, now) && Enforced(terms) && token !in w.owners
    ensures Safe(Next(w, Acquire(address, token), now, terms), terms, now)
  {
    SweptSafe(w, address, terms, now);
    var swept := w.(store := PurgeAll(w.store, Keys(address), now));
    if Full(swept.store, address, terms) {
      NewOwner(swept, address, token, now);
    } else {
      SweptHasRoom(w.store, address, token, terms, now);
      PutSafe(swept, address, token, terms, now);
    }
  }

  // After sweeping, the entries counted against the limits are the live ones.
  lemma SweptHasRoom(s: Store, address: string, token: string, terms: Terms, now: real)
    requires Enforced(terms) && !Full(PurgeAll(s, Keys(address), now), address, terms)
    ensures RoomFor(PurgeAll(s, Keys(address), now), Address(address), token, terms, now)
    ensures RoomFor(PurgeAll(s, Keys(address), now), Global, token, terms, now)
  {
    var swept := PurgeAll(s, Keys(address), now);
    PurgeIs(s, address, now);
    assert Lively(swept, Global, now) == Entries(swept, Global);
    assert Lively(swept, Address(address), now) == Entries(swept, Address(address));
  }

  lemma RenewSafe(w: World, token: string, terms: Terms, now: real)
    requires Safe(w, terms, now) && Enforced(terms) && token in w.owners
    ensures Safe(Next(w, Renew(token), now, terms), terms, now)
  {
    var address := w.owners[token];
    assert w.owners[token := address] == w.owners;
    if LiveIn(w.store, Keys(address), token, now) {
      assert Live(w.store, Keys(address)[0], token, now) && Live(w.store, Keys(address)[1], token, now);
      assert Fits(w.store, Global, terms, now) && Fits(w.store, Address(address), terms, now);
      SubmapSize(Lively(w.store, Global, now)[token := 0.0], Lively(w.store, Global, now));
      SubmapSize(Lively(w.store, Address(address), now)[token := 0.0], Lively(w.store, Address(address), now));
      PutSafe(w, address, token, terms, now);
    }
  }

  lemma ReleaseSafe(w: World, token: string, terms: Terms, now: real)
    requires Safe(w, terms, now) && token in w.owners
    ensures Safe(Next(w, Release(token), now, terms), terms, now)
  {
    ReleaseLimited(w.store, w.owners[token], token, terms, now);
    ReleaseMatched(w, token, now);
    ReleaseOutlived(w.store, w.owners[token], token, terms.ttl, now);
  }

  lemma ReleaseLimited(s: Store, address: string, token: string, terms: Terms, now: real)
    requires Limited(s, terms, now)
    ensures Limited(RemoveAll(s, Keys(address), token), terms, now)
  {
    var s' := RemoveAll(s, Keys(address), token);
    RemoveIs(s, address, token);
    forall key ensures Fits(s', key, terms, now) {
      assert Fits(s, key, terms, now);
      FewerFits(s, now, s', now, key, terms);
    }
  }

  lemma ReleaseOutlived(s: Store, address: string, token: string, ttl: nat, now: real)
    requires Outlived(s, ttl, now)
    ensures Outlived(RemoveAll(s, Keys(address), token), ttl, now)
  {
    RemoveIs(s, address, token);
  }

  lemma ReleaseMatched(w: World, token: string, now: real)
    requires Matched(w, now) && token in w.owners
    ensures Matched(w.(store := RemoveAll(w.store, Keys(w.owners[token]), token)), now)
  {
    var s' := RemoveAll(w.store, Keys(w.owners[token]), token);
    forall t | t in w.owners ensures Mirrored(s', w.owners[t], t, now) {
      assert Mirrored(w.store, w.owners[t], t, now);
      RemoveMirrored(w.store, w.owners[token], token, w.owners[t], t, now);
    }
    RemoveOwned(w, w.owners[token], token);
  }

  lemma RemoveMirrored(s: Store, address: string, token: string, owner: string, t: string, now: real)
    requires Mirrored(s, owner, t, now) && (t == token ==> owner == address)
    ensures Mirrored(RemoveAll(s, Keys(address), token), owner, t, now)
  {
    RemoveIs(s, address, token);
  }

  lemma RemoveOwned(w: World, address: string, token: string)
    requires Owned(w)
    ensures Owned(w.(store := RemoveAll(w.store, Keys(address), token)))
  {
    RemoveIs(w.store, address, token);
  }

  lemma DropSafe(w: World, key: Key, terms: Terms, now: real)
    requires Safe(w, terms, now) && Enabled(w, Drop(key), now)
    ensures Safe(Next(w, Drop(key), now, terms), terms, now)
  {
    DropHarmless(w, key, now, terms, now);
    LessButAsLive(w, Next(w, Drop(key), now, terms).store, terms, now);
  }

  lemma StepSafe(w: World, step: Step, terms: Terms, since: real, now: real)
    requires Safe(w, terms, since) && since <= now && Enforced(terms) && Enabled(w, step, now)
    ensures Safe(Next(w, step, now, terms), terms, now)
  {
    TimePasses(w, terms, since, now);
    match step {
      case Acquire(address, token) => AcquireSafe(w, address, token, terms, now);
      case Renew(token) => RenewSafe(w, token, terms, now);
      case Release(token) => ReleaseSafe(w, token, terms, now);
      case Drop(key) => DropSafe(w, key, terms, now);
    }
  }

  ghost predicate RunFrom(w: World, since: real, steps: seq<(Step, real)>, terms: Terms, w': World, now: real)
    decreases steps
  {
    if steps == [] then w' == w && since <= now
    else
      var (step, at) := steps[0];
      since <= at && Enabled(w, step, at) && RunFrom(Next(w, step, at, terms), at, steps[1..], terms, w', now)
  }

  lemma {:induction false} RunSafe(w: World, since: real, steps: seq<(Step, real)>, terms: Terms, w': World, now: real)
    requires Safe(w, terms, since) && Enforced(terms) && RunFrom(w, since, steps, terms, w', now)
    ensures Safe(w', terms, now)
    decreases steps
  {
    if steps == [] {
      TimePasses(w, terms, since, now);
    } else {
      var (step, at) := steps[0];
      StepSafe(w, step, terms, since, at);
      RunSafe(Next(w, step, at, terms), at, steps[1..], terms, w', now);
    }
  }

  const NONE: World := World(Store(map[], map[]), map[])

  ghost predicate Reachable(w: World, terms: Terms, now: real) {
    exists start: real, steps :: RunFrom(NONE, start, steps, terms, w, now)
  }

  lemma ReachableSafe(w: World, terms: Terms, now: real)
    requires Reachable(w, terms, now) && Enforced(terms)
    ensures Safe(w, terms, now)
  {
    var start: real, steps :| RunFrom(NONE, start, steps, terms, w, now);
    assert forall key :: Lively(NONE.store, key, start) == map[];
    RunSafe(NONE, start, steps, terms, w, now);
  }

  // ----- What holds at every instant of every run -----

  lemma LeasesWithinLimits(w: World, terms: Terms, now: real, address: string)
    requires Reachable(w, terms, now) && Enforced(terms)
    ensures |Lively(w.store, Address(address), now)| <= terms.perAddress && |Lively(w.store, Global, now)| <= terms.total
  {
    ReachableSafe(w, terms, now);
    assert Fits(w.store, Address(address), terms, now) && Fits(w.store, Global, terms, now);
  }

  // The live global set is the disjoint union of the addresses' live sets, with equal expiries.
  lemma GlobalIsUnion(w: World, terms: Terms, now: real, address: string, token: string)
    requires Reachable(w, terms, now) && Enforced(terms)
    ensures (token in Lively(w.store, Address(address), now)
             <==> token in Lively(w.store, Global, now) && token in w.owners && w.owners[token] == address)
    ensures token in Lively(w.store, Address(address), now) && token in Lively(w.store, Global, now) ==>
      Lively(w.store, Address(address), now)[token] == Lively(w.store, Global, now)[token]
    ensures token in Lively(w.store, Global, now) ==> token in w.owners
  {
    ReachableSafe(w, terms, now);
    MatchedMeans(w, now, address, token);
  }

  lemma MatchedMeans(w: World, now: real, address: string, token: string)
    requires Matched(w, now)
    ensures (token in Lively(w.store, Address(address), now)
             <==> token in Lively(w.store, Global, now) && token in w.owners && w.owners[token] == address)
    ensures token in Lively(w.store, Address(address), now) && token in Lively(w.store, Global, now) ==>
      Lively(w.store, Address(address), now)[token] == Lively(w.store, Global, now)[token]
    ensures token in Lively(w.store, Global, now) ==> token in w.owners
  {
    assert token in w.owners ==> Mirrored(w.store, w.owners[token], token, now);
    LiveIsLively(w.store, Global, token, now);
    LiveIsLively(w.store, Address(address), token, now);
  }

  // A lease is granted exactly when both limits leave room.
  lemma GrantedIffRoom(s: Store, terms: Terms, now: real, address: string, token: string)
    requires Enforced(terms)
    ensures (Acquired(s, address, token, now, terms).1
             <==> |Lively(s, Address(address), now)| < terms.perAddress && |Lively(s, Global, now)| < terms.total)
  {
    PurgeIs(s, address, now);
  }

  // A lease is renewed exactly while it is live, whichever of its two sets is asked.
  lemma RenewedIffLive(w: World, terms: Terms, now: real, token: string)
    requires Reachable(w, terms, now) && Enforced(terms) && token in w.owners
    ensures Renewed(w.store, w.owners[token], token, now, terms.ttl).1 <==> token in Lively(w.store, Global, now)
  {
    ReachableSafe(w, terms, now);
    MatchedMeans(w, now, w.owners[token], token);
    var keys := Keys(w.owners[token]);
    assert keys[0] == Address(w.owners[token]) && keys[1] == Global;
    LiveIsLively(w.store, keys[0], token, now);
    LiveIsLively(w.store, keys[1], token, now);
  }

  // Redis dropping a key is invisible: no live entry of any key is lost, now or later.
  lemma KeyExpiryIsInvisible(w: World, terms: Terms, now: real, key: Key, later: real)
    requires Reachable(w, terms, now) && Enforced(terms) && Enabled(w, Drop(key), now) && now <= later
    ensures forall k :: Lively(Next(w, Drop(key), now, terms).store, k, later) == Lively(w.store, k, later)
  {
    ReachableSafe(w, terms, now);
    DropHarmless(w, key, now, terms, later);
  }

  // Nothing but its own renewal or release touches a live lease before it runs out.
  lemma LeaseStands(w: World, terms: Terms, now: real, step: Step, token: string, key: Key)
    requires Reachable(w, terms, now) && Enforced(terms) && Enabled(w, step, now)
    requires token in Lively(w.store, key, now)
    requires step != Renew(token) && step != Release(token)
    ensures token in Lively(Next(w, step, now, terms).store, key, now)
    ensures Lively(Next(w, step, now, terms).store, key, now)[token] == Lively(w.store, key, now)[token]
  {
    ReachableSafe(w, terms, now);
    match step {
      case Acquire(address, t) =>
        OwnedIfEntered(w, key, token, now);
        SweptLively(w.store, address, now, now);
        OthersPut(PurgeAll(w.store, Keys(address), now), address, t, terms.ttl, now, key, token);
      case Renew(t) => OthersPut(w.store, w.owners[t], t, terms.ttl, now, key, token);
      case Release(t) => OthersGone(w.store, w.owners[t], t, now, key, token);
      case Drop(k) => DropHarmless(w, k, now, terms, now);
    }
  }

  lemma OthersGone(s: Store, address: string, other: string, now: real, key: Key, token: string)
    requires other != token && token in Lively(s, key, now)
    ensures token in Lively(RemoveAll(s, Keys(address), other), key, now)
    ensures Lively(RemoveAll(s, Keys(address), other), key, now)[token] == Lively(s, key, now)[token]
  {
    RemoveIs(s, address, other);
  }

  lemma OthersPut(s: Store, address: string, other: string, ttl: nat, now: real, key: Key, token: string)
    requires other != token && token in Lively(s, key, now)
    ensures token in Lively(PutAll(s, Keys(address), other, now, ttl), key, now)
    ensures Lively(PutAll(s, Keys(address), other, now, ttl), key, now)[token] == Lively(s, key, now)[token]
  {
    PutIs(s, address, other, now, ttl);
  }

  lemma OwnedIfEntered(w: World, key: Key, token: string, now: real)
    requires Matched(w, now) && token in Entries(w.store, key)
    ensures token in w.owners
  {
    if key.Address? {
      assert token in Entries(w.store, Address(key.address));
    }
  }
}
