/** Every run of the delivery queue: workers claim and crash, providers answer, recaps are rewritten
    and subscribers change their minds, under a clock that never goes back. */
module DeliveryRuns {
  import opened Prelude
  import opened Delivery

  datatype Step =
    | Claim(order: seq<string>, world: World)
    | Report(id: string, status: Status, dueAt: int, leaseUntil: Option<int>, error: Option<string>)
    | Rewrite(id: string, occurrences: seq<nat>)
    | Add(id: string, item: Item)
    | Prefer(user: string, verified: bool, suppressed: bool, alerts: bool, recap: bool, health: Health)
    | Connect(user: string, provider: Provider, version: nat)
    | Join(user: string, subscriber: User)
    | Block(account: string, until: int)

  predicate Untouched(item: Item) {
    item.firstAttempt.None? && item.payload.None? && item.account.None? && item.version.None?
  }

  // A recap is rewritten only while pending and never attempted; a connection version is new; and no
  // subscriber is named like the shared account.
  ghost predicate Enabled(s: State, step: Step, now: int) {
    match step
    case Claim(order, _) => WellFormed(s) && Candidates(s, order, now)
    case Report(id, _, _, _, _) => id in s.items
    case Rewrite(id, _) => id in s.items && s.items[id].status == Pending && s.items[id].firstAttempt.None?
    case Add(id, item) => id !in s.items && item.user in s.users && Untouched(item)
    case Prefer(user, _, _, _, _, _) => user in s.users
    case Connect(user, _, version) =>
      user in s.users && forall id :: id in s.items && s.items[id].user == user ==> s.items[id].version != Some(version)
    case Join(user, _) => user !in s.users && user != "shared"
    case Block(_, _) => true
  }

  ghost function Next(s: State, step: Step, now: int): State
    requires Enabled(s, step, now)
  {
    match step
    case Claim(order, world) => ClaimFrom(s, order, now, world).0
    case Report(id, status, dueAt, leaseUntil, error) =>
      WithItem(s, id, s.items[id].(status := status, dueAt := dueAt, leaseUntil := leaseUntil, error := error))
    case Rewrite(id, occurrences) => WithItem(s, id, s.items[id].(occurrences := occurrences, payload := None, dueAt := now))
    case Add(id, item) => WithItem(s, id, item)
    case Prefer(user, verified, suppressed, alerts, recap, health) =>
      s.(users := s.users[user := s.users[user].(verified := verified, suppressed := suppressed, alerts := alerts, recap := recap, health := health)])
    case Connect(user, provider, version) => s.(users := s.users[user := s.users[user].(provider := provider, version := version)])
    case Join(user, subscriber) => s.(users := s.users[user := subscriber])
    case Block(account, until) => s.(blocked := s.blocked[account := until])
  }

  // ----- What a claim is -----

  lemma PutAsideTrans(a: State, b: State, c: State)
    requires OnlyPutAside(a, b) && OnlyPutAside(b, c)
    ensures OnlyPutAside(a, c)
  {
  }

  // Some candidates are put aside, and then either one is claimed or none is left.
  lemma {:induction false} ClaimFromMeans(s: State, order: seq<string>, now: int, w: World) returns (mid: State)
    requires WellFormed(s) && forall i :: 0 <= i < |order| ==> order[i] in s.items
    ensures OnlyPutAside(s, mid) && WellFormed(mid)
    ensures var (s', ticket) := ClaimFrom(s, order, now, w);
      if ticket.None? then s' == mid
      else ticket.value.id in mid.items && Consider(mid, ticket.value.id, now, w) == Claimed(s', ticket.value)
    decreases |order|
  {
    mid := s;
    if order != [] {
      PassedKeeps(s, order[0], now, w);
      var v := Consider(s, order[0], now, w);
      if v.Passed? {
        mid := ClaimFromMeans(v.state, order[1..], now, w);
        PutAsideTrans(s, v.state, mid);
        PassedOn(s, order, now, w, v.state);
      } else {
        GrantIsForIt(s, order[0], now, w);
      }
    }
  }

  lemma PassedOn(s: State, order: seq<string>, now: int, w: World, next: State)
    requires WellFormed(s) && order != [] && (forall i :: 0 <= i < |order| ==> order[i] in s.items)
    requires WellFormed(next) && (forall i :: 0 <= i < |order| ==> order[i] in next.items) && Consider(s, order[0], now, w) == Passed(next)
    ensures ClaimFrom(s, order, now, w) == ClaimFrom(next, order[1..], now, w)
  {
  }

  lemma GrantIsForIt(s: State, id: string, now: int, w: World)
    requires WellFormed(s) && id in s.items && Consider(s, id, now, w).Claimed?
    ensures Consider(s, id, now, w).ticket.id == id
  {
  }

  // What is certain once a candidate has been claimed.
  predicate Granted(s: State, id: string, now: int, s': State, ticket: Ticket)
    requires id in s.items && s.items[id].user in s.users
  {
    var before, u := s.items[id], s.users[s.items[id].user];
    && ticket.id == id && id in s'.items && s'.users == s.users && s'.items == s.items[id := s'.items[id]]
    && s'.items[id].user == before.user && s'.items[id].kind == before.kind
    && s'.items[id].firstAttempt == Some(before.firstAttempt.GetOr(now))
    && s'.items[id].payload == Some(ticket.payload) && (before.payload.Some? ==> before.payload == Some(ticket.payload))
    && s'.items[id].account == Some(AccountOf(before.user, u))
    && s'.items[id].version == Some(u.version) && (before.version.Some? ==> before.version == Some(u.version))
    && (before.firstAttempt.Some? ==> now - before.firstAttempt.value < RETRY_WINDOW)
    && (before.firstAttempt.None? ==> Budget(s, AccountOf(before.user, u), before.kind, now))
  }

  lemma GrantMeans(s: State, id: string, now: int, w: World)
    requires WellFormed(s) && id in s.items && Consider(s, id, now, w).Claimed?
    ensures Granted(s, id, now, Consider(s, id, now, w).state, Consider(s, id, now, w).ticket)
  {
    assert Consider(s, id, now, w) == Admission(s, id, now, w);
  }

  // ----- Rolling quotas -----

  // The first attempts charged to an account between two instants, both included.
  function Within(items: map<string, Item>, account: string, lo: int, hi: int): set<string> {
    set id | id in items && items[id].account == Some(account)
             && items[id].firstAttempt.Some? && lo <= items[id].firstAttempt.value <= hi
  }

  predicate Fits(items: map<string, Item>, account: string, lo: int) {
    |Within(items, account, lo, lo + DAY)| <= DAILY && |Within(items, account, lo, lo + MONTH)| <= MONTHLY
  }

  ghost predicate QuotaOk(items: map<string, Item>) {
    forall account, lo :: Fits(items, account, lo)
  }

  // Admitting one more keeps a window of any width under its limit.
  lemma AdmissionFits(items: map<string, Item>, id: string, item: Item, now: int, width: int, limit: nat, account: string, lo: int)
    requires id in items && items[id].account.None? && item.account.Some? && item.firstAttempt == Some(now)
    requires |Charged(items, item.account.value, now - width)| < limit
    requires |Within(items, account, lo, lo + width)| <= limit
    ensures |Within(items[id := item], account, lo, lo + width)| <= limit
  {
    var before, after := Within(items, account, lo, lo + width), Within(items[id := item], account, lo, lo + width);
    if item.account == Some(account) && lo <= now <= lo + width {
      assert after == before + {id};
      SubsetSize(before, Charged(items, account, now - width));
    } else {
      assert after == before;
    }
  }

  // ----- The invariant -----

  // An attempted item has a payload, an account and a version; one still tied to the current connection
  // was charged to its account.
  predicate ItemOk(item: Item, users: map<string, User>, now: int) {
    && item.user in users
    && (item.firstAttempt.Some? ==> item.payload.Some? && item.account.Some? && item.version.Some? && item.firstAttempt.value <= now)
    && (item.firstAttempt.None? ==> item.account.None? && item.version.None?)
    && (item.version == Some(users[item.user].version) ==> item.account == Some(AccountOf(item.user, users[item.user])))
  }

  ghost predicate ItemsOk(s: State, now: int) {
    "shared" !in s.users && forall id :: id in s.items ==> ItemOk(s.items[id], s.users, now)
  }

  ghost predicate Good(s: State, now: int) {
    ItemsOk(s, now) && QuotaOk(s.items)
  }

  // What an attempt fixes for good.
  predicate SameAttempt(a: Item, b: Item) {
    a.user == b.user && a.kind == b.kind && a.firstAttempt == b.firstAttempt && a.payload == b.payload && a.account == b.account && a.version == b.version
  }

  predicate AttemptsStand(s: State, s': State) {
    forall id :: id in s.items && s.items[id].firstAttempt.Some? ==> id in s'.items && SameAttempt(s.items[id], s'.items[id])
  }

  // Same charges, same windows.
  lemma SameCharges(items: map<string, Item>, items': map<string, Item>)
    requires QuotaOk(items)
    requires forall id :: id in items' && items'[id].firstAttempt.Some? ==>
      id in items && items[id].firstAttempt == items'[id].firstAttempt && items[id].account == items'[id].account
    ensures QuotaOk(items')
  {
    forall account, lo ensures Fits(items', account, lo) {
      assert Fits(items, account, lo);
      SubsetSize(Within(items', account, lo, lo + DAY), Within(items, account, lo, lo + DAY));
      SubsetSize(Within(items', account, lo, lo + MONTH), Within(items, account, lo, lo + MONTH));
    }
  }

  lemma SameItemOk(item: Item, users: map<string, User>, item': Item, users': map<string, User>, now: int)
    requires ItemOk(item, users, now) && SameIdentity(item, item')
    requires item.user in users' && SameConnection(users[item.user], users'[item.user])
    ensures ItemOk(item', users', now)
  {
  }

  lemma PutAsideItems(s: State, s': State, now: int)
    requires ItemsOk(s, now) && OnlyPutAside(s, s')
    ensures ItemsOk(s', now) && AttemptsStand(s, s')
  {
    forall id | id in s'.items ensures ItemOk(s'.items[id], s'.users, now) {
      assert ItemOk(s.items[id], s.users, now);
      SameItemOk(s.items[id], s.users, s'.items[id], s'.users, now);
    }
  }

  lemma PutAsideGood(s: State, s': State, now: int)
    requires Good(s, now) && OnlyPutAside(s, s')
    ensures Good(s', now) && AttemptsStand(s, s')
  {
    PutAsideItems(s, s', now);
    SameCharges(s.items, s'.items);
  }

  lemma FirstAttemptQuota(items: map<string, Item>, id: string, item: Item, now: int)
    requires QuotaOk(items) && id in items && items[id].account.None? && item.account.Some? && item.firstAttempt == Some(now)
    requires |Charged(items, item.account.value, now - DAY)| < DAILY && |Charged(items, item.account.value, now - MONTH)| < MONTHLY
    ensures QuotaOk(items[id := item])
  {
    var items' := items[id := item];
    forall account, lo ensures Fits(items', account, lo) {
      assert Fits(items, account, lo);
      AdmissionFits(items, id, item, now, DAY, DAILY, account, lo);
      AdmissionFits(items, id, item, now, MONTH, MONTHLY, account, lo);
    }
  }

  lemma GrantQuota(s: State, id: string, now: int, s': State, ticket: Ticket)
    requires Good(s, now) && id in s.items && ItemOk(s.items[id], s.users, now) && Granted(s, id, now, s', ticket)
    ensures QuotaOk(s'.items)
  {
    if s.items[id].firstAttempt.Some? {
      SameCharges(s.items, s'.items);
    } else {
      FirstAttemptQuota(s.items, id, s'.items[id], now);
    }
  }

  lemma GrantGood(s: State, id: string, now: int, s': State, ticket: Ticket)
    requires Good(s, now) && id in s.items && s.items[id].user in s.users && Granted(s, id, now, s', ticket)
    ensures Good(s', now) && AttemptsStand(s, s')
  {
    assert ItemOk(s.items[id], s.users, now);
    GrantQuota(s, id, now, s', ticket);
    GrantItems(s, id, now, s', ticket);
  }

  lemma GrantItems(s: State, id: string, now: int, s': State, ticket: Ticket)
    requires ItemsOk(s, now) && id in s.items && ItemOk(s.items[id], s.users, now) && Granted(s, id, now, s', ticket)
    ensures ItemsOk(s', now) && AttemptsStand(s, s')
  {
    assert ItemOk(s'.items[id], s'.users, now);
  }

  // Any step but a claim leaves the charges alone.
  lemma OtherQuota(s: State, step: Step, now: int)
    requires QuotaOk(s.items) && Enabled(s, step, now) && !step.Claim?
    ensures QuotaOk(Next(s, step, now).items)
  {
    SameCharges(s.items, Next(s, step, now).items);
  }

  lemma OtherGood(s: State, step: Step, now: int)
    requires ItemsOk(s, now) && Enabled(s, step, now) && !step.Claim?
    ensures ItemsOk(Next(s, step, now), now) && AttemptsStand(s, Next(s, step, now))
  {
    if step.Connect? || step.Prefer? || step.Join? {
      UserStepGood(s, step, now);
    } else if step.Report? || step.Rewrite? || step.Add? {
      ItemStepGood(s, step, now);
    }
  }

  // Reports, rewrites and additions touch one item, and no attempt in it.
  lemma ItemStepGood(s: State, step: Step, now: int)
    requires ItemsOk(s, now) && Enabled(s, step, now) && (step.Report? || step.Rewrite? || step.Add?)
    ensures ItemsOk(Next(s, step, now), now) && AttemptsStand(s, Next(s, step, now))
  {
    assert step.id in s.items ==> ItemOk(s.items[step.id], s.users, now);
    WithItemGood(s, step.id, Next(s, step, now).items[step.id], now);
  }

  lemma WithItemGood(s: State, id: string, item: Item, now: int)
    requires ItemsOk(s, now) && ItemOk(item, s.users, now)
    requires id in s.items && s.items[id].firstAttempt.Some? ==> SameAttempt(s.items[id], item)
    ensures ItemsOk(WithItem(s, id, item), now) && AttemptsStand(s, WithItem(s, id, item))
  {
  }

  // New users, preferences and connections leave the items alone; a connection version is never reused.
  lemma UserStepGood(s: State, step: Step, now: int)
    requires ItemsOk(s, now) && Enabled(s, step, now) && (step.Connect? || step.Prefer? || step.Join?)
    ensures ItemsOk(Next(s, step, now), now) && AttemptsStand(s, Next(s, step, now))
  {
    var s' := Next(s, step, now);
    forall id | id in s'.items ensures ItemOk(s'.items[id], s'.users, now) {
      assert ItemOk(s.items[id], s.users, now);
    }
  }

  lemma ClaimGood(s: State, order: seq<string>, w: World, now: int)
    requires Good(s, now) && Candidates(s, order, now)
    ensures Good(ClaimFrom(s, order, now, w).0, now) && AttemptsStand(s, ClaimFrom(s, order, now, w).0)
  {
    var mid := ClaimFromMeans(s, order, now, w);
    PutAsideGood(s, mid, now);
    var (after, ticket) := ClaimFrom(s, order, now, w);
    if ticket.Some? {
      GrantMeans(mid, ticket.value.id, now, w);
      GrantGood(mid, ticket.value.id, now, after, ticket.value);
      AttemptsTrans(s, mid, after);
    }
  }

  lemma AttemptsTrans(a: State, b: State, c: State)
    requires AttemptsStand(a, b) && AttemptsStand(b, c)
    ensures AttemptsStand(a, c)
  {
  }

  lemma StepGood(s: State, step: Step, since: int, now: int)
    requires Good(s, since) && since <= now && Enabled(s, step, now)
    ensures Good(Next(s, step, now), now) && AttemptsStand(s, Next(s, step, now))
  {
    if step.Claim? {
      ClaimGood(s, step.order, step.world, now);
    } else {
      OtherQuota(s, step, now);
      OtherGood(s, step, now);
    }
  }

  // ----- Runs -----

  ghost predicate RunFrom(s: State, since: int, steps: seq<(Step, int)>, s': State, now: int)
    decreases steps
  {
    if steps == [] then s' == s && since <= now
    else
      var (step, at) := steps[0];
      since <= at && Enabled(s, step, at) && RunFrom(Next(s, step, at), at, steps[1..], s', now)
  }

  lemma {:induction false} RunGood(s: State, since: int, steps: seq<(Step, int)>, s': State, now: int)
    requires Good(s, since) && RunFrom(s, since, steps, s', now)
    ensures Good(s', now) && AttemptsStand(s, s')
    decreases steps
  {
    if steps != [] {
      var (step, at) := steps[0];
      StepGood(s, step, since, at);
      RunGood(Next(s, step, at), at, steps[1..], s', now);
    }
  }

  ghost predicate Reachable(s: State, now: int) {
    exists start: int, steps :: RunFrom(State(map[], map[], map[]), start, steps, s, now)
  }

  lemma ReachableGood(s: State, now: int)
    requires Reachable(s, now)
    ensures Good(s, now)
  {
    var start: int, steps :| RunFrom(State(map[], map[], map[]), start, steps, s, now);
    var none: map<string, Item> := map[];
    forall account, lo ensures Fits(none, account, lo) {
      assert Within(none, account, lo, lo + DAY) == {} && Within(none, account, lo, lo + MONTH) == {};
    }
    assert Good(State(map[], map[], map[]), start);
    RunGood(State(map[], map[], map[]), start, steps, s, now);
  }

  // In every reachable state no closed day holds more than 90 first attempts of one account, and no
  // 31 days more than 2900.
  lemma QuotasHold(s: State, now: int, account: string, lo: int)
    requires Reachable(s, now)
    ensures |Within(s.items, account, lo, lo + DAY)| <= DAILY
    ensures |Within(s.items, account, lo, lo + MONTH)| <= MONTHLY
  {
    ReachableGood(s, now);
    assert Fits(s.items, account, lo);
  }

  // Two claims of one delivery, whatever happens between them, send the same payload under the same
  // account and connection, the second less than 23 hours after the first attempt.
  lemma RetriesAreIdentical(s: State, now: int, order: seq<string>, w: World, steps: seq<(Step, int)>,
                            t: State, later: int, order': seq<string>, w': World)
    requires Reachable(s, now) && Enabled(s, Claim(order, w), now)
    requires RunFrom(Next(s, Claim(order, w), now), now, steps, t, later) && Enabled(t, Claim(order', w'), later)
    requires ClaimFrom(s, order, now, w).1.Some? && ClaimFrom(t, order', later, w').1.Some?
    requires ClaimFrom(s, order, now, w).1.value.id == ClaimFrom(t, order', later, w').1.value.id
    ensures var id := ClaimFrom(s, order, now, w).1.value.id;
      var first, second := ClaimFrom(s, order, now, w), ClaimFrom(t, order', later, w');
      && first.1.value.payload == second.1.value.payload
      && id in first.0.items && id in second.0.items && SameAttempt(first.0.items[id], second.0.items[id])
      && first.0.items[id].firstAttempt.Some? && later - first.0.items[id].firstAttempt.value < RETRY_WINDOW
  {
    ReachableGood(s, now);
    var (s1, t1) := ClaimFrom(s, order, now, w);
    var (s2, t2) := ClaimFrom(t, order', later, w');
    var id := t1.value.id;
    var mid := ClaimFromMeans(s, order, now, w);
    GrantMeans(mid, id, now, w);
    StepGood(s, Claim(order, w), now, now);
    RunGood(s1, now, steps, t, later);
    var mid' := ClaimFromMeans(t, order', later, w');
    PutAsideGood(t, mid', later);
    GrantMeans(mid', id, later, w');
    GrantGood(mid', id, later, s2, t2.value);
    assert SameAttempt(s1.items[id], t.items[id]);
    assert SameAttempt(t.items[id], mid'.items[id]);
  }

  lemma GrantLeavesRoom(s: State, id: string, now: int, s': State, ticket: Ticket)
    requires ItemsOk(s, now) && id in s.items && Granted(s, id, now, s', ticket)
    requires s.items[id].firstAttempt.None? && !s.items[id].kind.Recap?
    ensures Room(s', s'.items[id].account.value, now)
  {
    assert ItemOk(s.items[id], s.users, now);
    OneMoreCharge(s.items, id, s'.items[id], now, now - DAY);
    OneMoreCharge(s.items, id, s'.items[id], now, now - MONTH);
  }

  lemma OneMoreCharge(items: map<string, Item>, id: string, item: Item, now: int, since: int)
    requires id in items && items[id].firstAttempt.None? && item.account.Some? && item.firstAttempt == Some(now) && since <= now
    ensures |Charged(items[id := item], item.account.value, since)| == |Charged(items, item.account.value, since)| + 1
  {
    assert Charged(items[id := item], item.account.value, since) == Charged(items, item.account.value, since) + {id};
  }

  // The day can still hold one recap for every recap subscriber of the account, the month thirty-one.
  predicate Room(s: State, account: string, now: int) {
    var recaps := |RecapSubscribers(s.users, account)|;
    |Charged(s.items, account, now - DAY)| + recaps <= DAILY && |Charged(s.items, account, now - MONTH)| + 31 * recaps <= MONTHLY
  }

  // The first attempt of anything but a recap leaves room for the recaps of its account.
  lemma RecapsKeepRoom(s: State, now: int, order: seq<string>, w: World)
    requires Reachable(s, now) && Enabled(s, Claim(order, w), now) && ClaimFrom(s, order, now, w).1.Some?
    ensures var (s', ticket) := ClaimFrom(s, order, now, w);
      var id := ticket.value.id;
      && id in s.items && id in s'.items && s'.items[id].account.Some?
      && (s.items[id].firstAttempt.None? && !s.items[id].kind.Recap? ==> Room(s', s'.items[id].account.value, now))
  {
    ReachableGood(s, now);
    var (s', ticket) := ClaimFrom(s, order, now, w);
    var id := ticket.value.id;
    var mid := ClaimFromMeans(s, order, now, w);
    PutAsideGood(s, mid, now);
    GrantMeans(mid, id, now, w);
    assert SameIdentity(s.items[id], mid.items[id]);
    if s.items[id].firstAttempt.None? && !s.items[id].kind.Recap? {
      GrantLeavesRoom(mid, id, now, s', ticket.value);
    }
  }

  // ----- What the reserve is for -----

  // First attempts an account was charged for between two states of a run.
  function NewCharges(s: State, t: State, account: string): set<string> {
    set id | id in t.items && t.items[id].account == Some(account) && t.items[id].firstAttempt.Some?
             && !(id in s.items && s.items[id].firstAttempt.Some?)
  }

  // At no point of the run has the account a recap subscriber outside the given ones.
  ghost predicate NotGrown(s: State, steps: seq<(Step, int)>, account: string, recaps: set<string>)
    decreases steps
  {
    RecapSubscribers(s.users, account) <= recaps
    && (steps == [] || (Enabled(s, steps[0].0, steps[0].1) && NotGrown(Next(s, steps[0].0, steps[0].1), steps[1..], account, recaps)))
  }

  lemma GrantWanted(s: State, id: string, now: int, w: World)
    requires WellFormed(s) && id in s.items && Consider(s, id, now, w).Claimed?
    ensures !Unwanted(s.users[s.items[id].user], s.items[id])
  {
  }

  // A recap is first attempted only for a recap subscriber of the account it is charged to.
  lemma NewChargeIsMember(s: State, step: Step, now: int, account: string, id: string)
    requires Good(s, now) && Enabled(s, step, now)
    requires id in NewCharges(s, Next(s, step, now), account) && Next(s, step, now).items[id].kind.Recap?
    ensures Next(s, step, now).items[id].user in RecapSubscribers(Next(s, step, now).users, account)
  {
    if step.Claim? {
      var mid := ClaimFromMeans(s, step.order, now, step.world);
      PutAsideGood(s, mid, now);
      assert id in s.items ==> SameIdentity(s.items[id], mid.items[id]);
      var (s', ticket) := ClaimFrom(s, step.order, now, step.world);
      if ticket.Some? {
        GrantedIsMember(mid, ticket.value.id, now, step.world, account, id);
      }
    } else {
      OtherCharges(s, step, now, account, id);
    }
  }

  lemma OtherCharges(s: State, step: Step, now: int, account: string, id: string)
    requires ItemsOk(s, now) && Enabled(s, step, now) && !step.Claim?
    ensures id !in NewCharges(s, Next(s, step, now), account)
  {
  }

  lemma GrantedIsMember(s: State, granted: string, now: int, w: World, account: string, id: string)
    requires ItemsOk(s, now) && WellFormed(s) && granted in s.items && Consider(s, granted, now, w).Claimed?
    requires id in NewCharges(s, Consider(s, granted, now, w).state, account) && Consider(s, granted, now, w).state.items[id].kind.Recap?
    ensures Consider(s, granted, now, w).state.items[id].user in RecapSubscribers(Consider(s, granted, now, w).state.users, account)
  {
    GrantMeans(s, granted, now, w);
    GrantWanted(s, granted, now, w);
    assert id == granted;
  }

  lemma {:induction false} NewChargesAreMembers(s: State, since: int, steps: seq<(Step, int)>, t: State, now: int, account: string, recaps: set<string>)
    requires Good(s, since) && RunFrom(s, since, steps, t, now) && NotGrown(s, steps, account, recaps)
    requires forall id :: id in NewCharges(s, t, account) ==> t.items[id].kind.Recap?
    ensures forall id :: id in NewCharges(s, t, account) ==> t.items[id].user in recaps
    decreases steps
  {
    if steps != [] {
      var (step, at) := steps[0];
      var next := Next(s, step, at);
      assert Good(s, at);
      StepGood(s, step, since, at);
      RunGood(next, at, steps[1..], t, now);
      forall id | id in NewCharges(next, t, account) ensures id in NewCharges(s, t, account) {
        if id in s.items && s.items[id].firstAttempt.Some? { AttemptedEarlier(s, next, id); }
      }
      NewChargesAreMembers(next, at, steps[1..], t, now, account, recaps);
      forall id | id in NewCharges(s, t, account) ensures t.items[id].user in recaps {
        if id !in NewCharges(next, t, account) {
          assert SameAttempt(next.items[id], t.items[id]);
          NewChargeIsMember(s, step, at, account, id);
          GrownAtStart(next, steps[1..], account, recaps);
        }
      }
    }
  }

  lemma GrownAtStart(s: State, steps: seq<(Step, int)>, account: string, recaps: set<string>)
    requires NotGrown(s, steps, account, recaps)
    ensures RecapSubscribers(s.users, account) <= recaps
  {
  }

  lemma AttemptedEarlier(s: State, next: State, id: string)
    requires AttemptsStand(s, next) && id in s.items && s.items[id].firstAttempt.Some?
    ensures id in next.items && next.items[id].firstAttempt.Some?
  {
  }

  lemma {:induction false} OneEach(items: map<string, Item>, ids: set<string>, users: set<string>)
    requires forall id :: id in ids ==> id in items && items[id].user in users
    requires forall a, b :: a in ids && b in ids && a != b ==> items[a].user != items[b].user
    ensures |ids| <= |users|
  {
    if ids != {} {
      var id :| id in ids;
      OneEach(items, ids - {id}, users - {items[id].user});
    }
  }

  // Charges of a later window: those of the earlier one still in it, and the new ones.
  lemma LaterCharges(s: State, t: State, account: string, since: int, later: int)
    requires AttemptsStand(s, t) && since <= later
    ensures |Charged(t.items, account, later)| <= |Charged(s.items, account, since)| + |NewCharges(s, t, account)|
  {
    var old', new' := Charged(s.items, account, since), NewCharges(s, t, account);
    forall id | id in Charged(t.items, account, later) ensures id in old' + new' {
      if id in s.items && s.items[id].firstAttempt.Some? { assert SameAttempt(s.items[id], t.items[id]); }
    }
    SubsetSize(Charged(t.items, account, later), old' + new');
    assert |old' + new'| == |old'| + |new' - old'|;
    SubsetSize(new' - old', new');
  }

  // The conditions under which the reserve is still there for one subscriber's recap.
  ghost predicate Reserved(s: State, steps: seq<(Step, int)>, t: State, account: string, user: string) {
    var recaps, new' := RecapSubscribers(s.users, account), NewCharges(s, t, account);
    && user in recaps && NotGrown(s, steps, account, recaps)
    && (forall id :: id in new' ==> t.items[id].kind.Recap? && t.items[id].user != user)
    && (forall a, b :: a in new' && b in new' && a != b ==> t.items[a].user != t.items[b].user)
  }

  lemma NewChargesFit(s: State, since: int, steps: seq<(Step, int)>, t: State, now: int, account: string, user: string)
    requires Good(s, since) && RunFrom(s, since, steps, t, now) && Reserved(s, steps, t, account, user)
    ensures |NewCharges(s, t, account)| < |RecapSubscribers(s.users, account)|
  {
    var recaps := RecapSubscribers(s.users, account);
    NewChargesAreMembers(s, since, steps, t, now, account, recaps);
    OneEach(t.items, NewCharges(s, t, account), recaps - {user});
  }

  lemma RoomLasts(s: State, since: int, steps: seq<(Step, int)>, t: State, now: int, account: string, user: string)
    requires Good(s, since) && since <= now && RunFrom(s, since, steps, t, now) && Reserved(s, steps, t, account, user)
    requires Room(s, account, since)
    ensures Budget(t, account, Recap, now) <==> !(account in t.blocked && t.blocked[account] > now)
  {
    CountsStayLow(s, since, steps, t, now, account, user);
  }

  lemma CountsStayLow(s: State, since: int, steps: seq<(Step, int)>, t: State, now: int, account: string, user: string)
    requires Good(s, since) && since <= now && RunFrom(s, since, steps, t, now) && Reserved(s, steps, t, account, user)
    requires Room(s, account, since)
    ensures |Charged(t.items, account, now - DAY)| < DAILY && |Charged(t.items, account, now - MONTH)| < MONTHLY
  {
    RunGood(s, since, steps, t, now);
    NewChargesFit(s, since, steps, t, now, account, user);
    LaterCharges(s, t, account, since - DAY, now - DAY);
    LaterCharges(s, t, account, since - MONTH, now - MONTH);
  }

  lemma {:induction false} RunTakesTime(s: State, since: int, steps: seq<(Step, int)>, t: State, now: int)
    requires RunFrom(s, since, steps, t, now)
    ensures since <= now
    decreases steps
  {
    if steps != [] { RunTakesTime(Next(s, steps[0].0, steps[0].1), steps[0].1, steps[1..], t, now); }
  }

  // After the last first attempt of anything but a recap, while no recap subscriber joins the account
  // and each has at most one recap attempted, a subscriber still without one is refused by no count:
  // only a provider's pause can hold that recap back.
  lemma RecapsAreNotStarved(s: State, now: int, order: seq<string>, w: World, steps: seq<(Step, int)>, t: State, later: int, user: string)
    requires Reachable(s, now) && Enabled(s, Claim(order, w), now) && ClaimFrom(s, order, now, w).1.Some?
    requires RunFrom(ClaimFrom(s, order, now, w).0, now, steps, t, later)
    ensures var (s', ticket) := ClaimFrom(s, order, now, w);
      var id := ticket.value.id;
      && id in s.items && id in s'.items && s'.items[id].account.Some?
      && var account := s'.items[id].account.value;
         (s.items[id].firstAttempt.None? && !s.items[id].kind.Recap? && Reserved(s', steps, t, account, user)
          ==> (Budget(t, account, Recap, later) <==> !(account in t.blocked && t.blocked[account] > later)))
  {
    RecapsKeepRoom(s, now, order, w);
    ReachableGood(s, now);
    ClaimGood(s, order, w, now);
    var (s', ticket) := ClaimFrom(s, order, now, w);
    RunTakesTime(s', now, steps, t, later);
    var id := ticket.value.id;
    var account := s'.items[id].account.value;
    if s.items[id].firstAttempt.None? && !s.items[id].kind.Recap? && Reserved(s', steps, t, account, user) {
      RoomLasts(s', now, steps, t, later, account, user);
    }
  }
}
