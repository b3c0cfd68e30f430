/** Leased email delivery: which queued item a worker claims, under rolling account quotas. */
module Delivery {
  import opened Prelude

  datatype Provider = Shared | Byok
  datatype Health = Ready | NeedsTest | SenderError | ConfigurationError
  datatype User = User(
    provider: Provider, version: nat, verified: bool, suppressed: bool, alerts: bool, recap: bool, health: Health)

  datatype Kind = Alert | Recap | Test
  datatype Status = Pending | Sending | Accepted | Failed | Cancelled | Expired | Reconcile | RecapOnly | Delivered | Bounced | Complained

  datatype Item = Item(
    user: string, kind: Kind, occurrences: seq<nat>, createdAt: int, dueAt: int, status: Status,
    leaseUntil: Option<int>, firstAttempt: Option<int>, attempts: nat, payload: Option<string>,
    account: Option<string>, version: Option<nat>, error: Option<string>)

  // `blocked` holds the accounts a provider has paused, and until when.
  datatype State = State(users: map<string, User>, items: map<string, Item>, blocked: map<string, int>)

  // What the outside world answers while one claim runs: the recipient check may fail to answer,
  // a key or a payload may be unavailable, an occurrence may have closed.
  datatype World = World(
    recipient: string -> Option<bool>, keyOf: string -> Option<string>,
    render: string -> Option<string>, open: nat -> bool)

  datatype Ticket = Ticket(id: string, key: string, payload: string)

  const DAILY: int := 90
  const MONTHLY: int := 2900
  const MONTH: int := 2_678_400_000_000 // 31 days
  const RETRY_WINDOW: int := 82_800_000_000 // 23 hours

  function AccountOf(id: string, u: User): string {
    if u.provider.Shared? then "shared" else id
  }

  // The subscribers whose recaps draw on an account.
  function RecapSubscribers(users: map<string, User>, account: string): set<string> {
    set id | id in users && (if account == "shared" then users[id].provider.Shared? else id == account)
             && users[id].recap && users[id].verified && !users[id].suppressed
  }

  function Charged(items: map<string, Item>, account: string, since: int): set<string> {
    set id | id in items && items[id].account == Some(account)
             && items[id].firstAttempt.Some? && items[id].firstAttempt.value >= since
  }

  predicate Budget(s: State, account: string, kind: Kind, now: int) {
    var recaps := if kind.Recap? then 0 else |RecapSubscribers(s.users, account)|;
    !(account in s.blocked && s.blocked[account] > now)
    && |Charged(s.items, account, now - DAY)| < DAILY - recaps
    && |Charged(s.items, account, now - MONTH)| < MONTHLY - 31 * recaps
  }

  predicate WellFormed(s: State) {
    forall id :: id in s.items ==> s.items[id].user in s.users
  }

  datatype Verdict = Passed(state: State) | Claimed(state: State, ticket: Ticket)

  function WithItem(s: State, id: string, item: Item): State {
    s.(items := s.items[id := item])
  }

  predicate Unwanted(u: User, item: Item) {
    u.suppressed || !u.verified || (item.kind.Alert? && !u.alerts) || (item.kind.Recap? && !u.recap)
  }

  // One candidate's turn.
  function Consider(s: State, id: string, now: int, w: World): Verdict
    requires WellFormed(s) && id in s.items
  {
    var item := s.items[id];
    var u := s.users[item.user];
    var attempted := item.firstAttempt.Some?;
    if Unwanted(u, item) then Passed(WithItem(s, id, item.(status := Cancelled)))
    else if item.version.Some? && item.version.value != u.version then
      Passed(WithItem(s, id, item.(status := if attempted then Reconcile else Cancelled)))
    else if u.health in {SenderError, NeedsTest} && !item.kind.Test? then Passed(s)
    else if attempted && now - item.firstAttempt.value >= RETRY_WINDOW then
      Passed(WithItem(s, id, item.(status := Reconcile, error := Some("idempotency_window_expired"))))
    else if item.kind.Alert? && !attempted && (item.occurrences == [] || !w.open(item.occurrences[0])) then
      Passed(WithItem(s, id, item.(status := Cancelled)))
    else if item.kind.Alert? && !attempted && now - item.createdAt >= DAY then
      Passed(WithItem(s, id, item.(status := Expired)))
    else Admission(s, id, now, w)
  }

  // Quota for a first attempt, the recipient, the credentials and the payload.
  function Admission(s: State, id: string, now: int, w: World): Verdict
    requires WellFormed(s) && id in s.items
  {
    var item := s.items[id];
    var u := s.users[item.user];
    var account := AccountOf(item.user, u);
    if item.firstAttempt.None? && !Budget(s, account, item.kind, now) then
      Passed(WithItem(s, id, item.(error := Some("quota_paused"), dueAt := now + 5 * MINUTE)))
    else if w.recipient(item.user).None? then
      Passed(WithItem(s, id, item.(error := Some("recipient_verification_unavailable"), dueAt := now + 5 * MINUTE)))
    else if !w.recipient(item.user).value then
      Passed(WithItem(s.(users := s.users[item.user := u.(verified := false)]), id, item.(status := Cancelled)))
    else if w.keyOf(item.user).None? || (item.payload.None? && w.render(id).None?) then
      Passed(s.(users := s.users[item.user := u.(health := ConfigurationError)]))
    else
      var body := if item.payload.Some? then item.payload.value else w.render(id).value;
      Claimed(
        WithItem(s, id, item.(payload := Some(body), account := Some(account), version := Some(u.version),
                              firstAttempt := Some(item.firstAttempt.GetOr(now)), attempts := item.attempts + 1,
                              status := Sending, leaseUntil := Some(now + 2 * MINUTE))),
        Ticket(id, w.keyOf(item.user).value, body))
  }

  // Being passed over changes nothing a recipient or a quota depends on.
  predicate SameIdentity(a: Item, b: Item) {
    a.user == b.user && a.kind == b.kind && a.occurrences == b.occurrences && a.createdAt == b.createdAt
    && a.firstAttempt == b.firstAttempt && a.payload == b.payload && a.account == b.account && a.version == b.version
  }

  predicate SameConnection(a: User, b: User) {
    a.provider == b.provider && a.version == b.version
  }

  predicate OnlyPutAside(s: State, s': State) {
    && s'.items.Keys == s.items.Keys && s'.users.Keys == s.users.Keys
    && (forall id :: id in s.items ==> SameIdentity(s.items[id], s'.items[id]))
    && (forall id :: id in s.users ==> SameConnection(s.users[id], s'.users[id]))
  }

  // A turn rewrites at most the candidate and its subscriber.
  predicate TurnShaped(s: State, id: string, v: Verdict)
    requires id in s.items && s.items[id].user in s.users
  {
    var user := s.items[id].user;
    && id in v.state.items && user in v.state.users
    && v.state.items == s.items[id := v.state.items[id]]
    && v.state.users == s.users[user := v.state.users[user]]
    && v.state.items[id].user == user
    && SameConnection(s.users[user], v.state.users[user])
    && (v.Passed? ==> SameIdentity(s.items[id], v.state.items[id]))
  }

  lemma ShapedItem(s: State, id: string, item: Item)
    requires id in s.items && s.items[id].user in s.users && SameIdentity(s.items[id], item)
    ensures TurnShaped(s, id, Passed(WithItem(s, id, item)))
  {
    var user := s.items[id].user;
    assert s.users[user := s.users[user]] == s.users;
  }

  lemma ShapedUser(s: State, id: string, u: User)
    requires id in s.items && s.items[id].user in s.users && SameConnection(s.users[s.items[id].user], u)
    ensures TurnShaped(s, id, Passed(s.(users := s.users[s.items[id].user := u])))
  {
    assert s.items[id := s.items[id]] == s.items;
  }

  lemma ShapedBoth(s: State, id: string, item: Item, u: User)
    requires id in s.items && s.items[id].user in s.users && SameIdentity(s.items[id], item) && SameConnection(s.users[s.items[id].user], u)
    ensures TurnShaped(s, id, Passed(WithItem(s.(users := s.users[s.items[id].user := u]), id, item)))
  {
  }

  lemma ShapedClaim(s: State, id: string, item: Item, ticket: Ticket)
    requires id in s.items && s.items[id].user in s.users && item.user == s.items[id].user
    ensures TurnShaped(s, id, Claimed(WithItem(s, id, item), ticket))
  {
    var user := s.items[id].user;
    assert s.users[user := s.users[user]] == s.users;
  }

  lemma AdmissionShape(s: State, id: string, now: int, w: World)
    requires WellFormed(s) && id in s.items
    ensures TurnShaped(s, id, Admission(s, id, now, w))
  {
    var item, v := s.items[id], Admission(s, id, now, w);
    var u := s.users[item.user];
    if v.Claimed? {
      ShapedClaim(s, id, v.state.items[id], v.ticket);
    } else {
      ShapedItem(s, id, item.(error := Some("quota_paused"), dueAt := now + 5 * MINUTE));
      ShapedItem(s, id, item.(error := Some("recipient_verification_unavailable"), dueAt := now + 5 * MINUTE));
      ShapedBoth(s, id, item.(status := Cancelled), u.(verified := false));
      ShapedUser(s, id, u.(health := ConfigurationError));
    }
  }

  lemma TurnShape(s: State, id: string, now: int, w: World)
    requires WellFormed(s) && id in s.items
    ensures TurnShaped(s, id, Consider(s, id, now, w))
  {
    var item := s.items[id];
    AdmissionShape(s, id, now, w);
    ShapedItem(s, id, item.(status := Cancelled));
    ShapedItem(s, id, item.(status := Reconcile));
    ShapedItem(s, id, item.(status := Expired));
    ShapedItem(s, id, item.(status := Reconcile, error := Some("idempotency_window_expired")));
    ShapedUser(s, id, s.users[item.user]);
    assert s.users[item.user := s.users[item.user]] == s.users;
  }

  lemma PassedKeeps(s: State, id: string, now: int, w: World)
    requires WellFormed(s) && id in s.items
    ensures Consider(s, id, now, w).Passed? ==> OnlyPutAside(s, Consider(s, id, now, w).state)
    ensures WellFormed(Consider(s, id, now, w).state) && Consider(s, id, now, w).state.items.Keys == s.items.Keys
  {
    TurnShape(s, id, now, w);
  }

  predicate Eligible(item: Item, now: int) {
    item.status in {Pending, Sending} && item.dueAt <= now
    && (item.leaseUntil.None? || item.leaseUntil.value <= now)
  }

  predicate Candidates(s: State, order: seq<string>, now: int) {
    && (forall i :: 0 <= i < |order| ==> order[i] in s.items && Eligible(s.items[order[i]], now))
    && (forall i, j :: 0 <= i < j < |order| ==> order[i] != order[j])
  }

  // Candidates take turns until one is claimed.
  function ClaimFrom(s: State, order: seq<string>, now: int, w: World): (State, Option<Ticket>)
    requires WellFormed(s) && forall i :: 0 <= i < |order| ==> order[i] in s.items
    decreases |order|
  {
    if order == [] then (s, None)
    else
      match Consider(s, order[0], now, w)
      case Claimed(s', ticket) => (s', Some(ticket))
      case Passed(s') => PassedKeeps(s, order[0], now, w); ClaimFrom(s', order[1..], now, w)
  }

  class NotificationWorker {
    var users: map<string, User>
    var items: map<string, Item>
    var blocked: map<string, int>

    function View(): State
      reads this
    {
      State(users, items, blocked)
    }

    constructor ()
      ensures View() == State(map[], map[], map[])
    {
      users, items, blocked := map[], map[], map[];
    }

    method SetItem(id: string, item: Item)
      modifies this`items
      ensures View() == WithItem(old(View()), id, item)
    {
      items := items[id := item];
    }

    // One candidate's turn: a ticket, or the item is put aside.
    method TakeTurn(id: string, now: int, w: World) returns (ticket: Option<Ticket>)
      requires WellFormed(View()) && id in items
      modifies this
      ensures old(Consider(View(), id, now, w)) == if ticket.None? then Passed(View()) else Claimed(View(), ticket.value)
    {
      var item := items[id];
      var u := users[item.user];
      var attempted := item.firstAttempt.Some?;
      ticket := None;
      if Unwanted(u, item) {
        SetItem(id, item.(status := Cancelled));
        return;
      }
      if item.version.Some? && item.version.value != u.version {
        SetItem(id, item.(status := if attempted then Reconcile else Cancelled));
        return;
      }
      if u.health in {SenderError, NeedsTest} && !item.kind.Test? { return; }
      if attempted && now - item.firstAttempt.value >= RETRY_WINDOW {
        SetItem(id, item.(status := Reconcile, error := Some("idempotency_window_expired")));
        return;
      }
      if item.kind.Alert? && !attempted {
        if item.occurrences == [] || !w.open(item.occurrences[0]) {
          SetItem(id, item.(status := Cancelled));
          return;
        }
        if now - item.createdAt >= DAY {
          SetItem(id, item.(status := Expired));
          return;
        }
      }
      ticket := Admit(id, now, w);
    }

    // The second half of a turn: quota, recipient, credentials, and the claim itself.
    method Admit(id: string, now: int, w: World) returns (ticket: Option<Ticket>)
      requires WellFormed(View()) && id in items
      modifies this
      ensures old(Admission(View(), id, now, w)) == if ticket.None? then Passed(View()) else Claimed(View(), ticket.value)
    {
      var item := items[id];
      var u := users[item.user];
      var account := AccountOf(item.user, u);
      ticket := None;
      if item.firstAttempt.None? && !Budget(View(), account, item.kind, now) {
        SetItem(id, item.(error := Some("quota_paused"), dueAt := now + 5 * MINUTE));
        return;
      }
      var valid := w.recipient(item.user);
      if valid.None? {
        SetItem(id, item.(error := Some("recipient_verification_unavailable"), dueAt := now + 5 * MINUTE));
        return;
      }
      if !valid.value {
        users := users[item.user := u.(verified := false)];
        SetItem(id, item.(status := Cancelled));
        return;
      }
      var key := w.keyOf(item.user);
      var body := if item.payload.Some? then item.payload else w.render(id);
      if key.None? || body.None? {
        users := users[item.user := u.(health := ConfigurationError)];
        return;
      }
      SetItem(id, item.(payload := body, account := Some(account), version := Some(u.version),
                        firstAttempt := Some(item.firstAttempt.GetOr(now)), attempts := item.attempts + 1,
                        status := Sending, leaseUntil := Some(now + 2 * MINUTE)));
      return Some(Ticket(id, key.value, body.value));
    }

    // Works through the candidates in the order given and claims the first one that passes.
    method Claim(order: seq<string>, now: int, w: World) returns (ticket: Option<Ticket>)
      requires WellFormed(View()) && Candidates(View(), order, now)
      modifies this
      ensures (View(), ticket) == old(ClaimFrom(View(), order, now, w))
    {
      ghost var start := View();
      ticket := None;
      for i := 0 to |order|
        invariant WellFormed(View()) && forall k :: 0 <= k < |order| ==> order[k] in items
        invariant ClaimFrom(View(), order[i..], now, w) == ClaimFrom(start, order, now, w)
        invariant ticket.None?
      {
        ghost var before := View();
        assert order[i..][0] == order[i] && order[i..][1..] == order[i + 1..];
        PassedKeeps(before, order[i], now, w);
        ticket := TakeTurn(order[i], now, w);
        if ticket.Some? { return; }
      }
      assert order[|order|..] == [];
    }
  }
}
