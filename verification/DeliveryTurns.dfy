/** One candidate's turn in full: when it is claimed, what the claim writes, and what every refusal leaves
    behind; and how candidates take their turns. */
module DeliveryTurns {
  import opened Prelude
  import opened Delivery

  // ----- What each check asks -----

  predicate Wanted(u: User, item: Item) {
    u.verified && !u.suppressed && (item.kind.Alert? ==> u.alerts) && (item.kind.Recap? ==> u.recap)
  }

  predicate SameConnectionStill(u: User, item: Item) {
    item.version.None? || item.version == Some(u.version)
  }

  predicate SenderReady(u: User, item: Item) {
    item.kind.Test? || u.health.Ready? || u.health.ConfigurationError?
  }

  predicate RetryInTime(item: Item, now: int) {
    item.firstAttempt.Some? ==> now < item.firstAttempt.value + 23 * HOUR
  }

  predicate AlertOpen(item: Item, w: World) {
    item.kind.Alert? && item.firstAttempt.None? ==> item.occurrences != [] && w.open(item.occurrences[0])
  }

  predicate AlertYoung(item: Item, now: int) {
    item.kind.Alert? && item.firstAttempt.None? ==> now < item.createdAt + 24 * HOUR
  }

  // A first attempt needs an unpaused account with room in both rolling windows, the share reserved
  // for recaps aside unless it is a recap itself.
  predicate Funded(s: State, u: User, item: Item, now: int) {
    item.firstAttempt.None? ==>
      var account := if u.provider.Shared? then "shared" else item.user;
      var reserve := if item.kind.Recap? then 0 else |ReservedFor(s.users, account)|;
      && (account in s.blocked ==> s.blocked[account] <= now)
      && |ChargedSince(s.items, account, now - 24 * HOUR)| + reserve < 90
      && |ChargedSince(s.items, account, now - 31 * 24 * HOUR)| + 31 * reserve < 2900
  }

  function ReservedFor(users: map<string, User>, account: string): set<string> {
    set id | id in users && users[id].recap && users[id].verified && !users[id].suppressed
             && (account == "shared" ==> users[id].provider.Shared?) && (account != "shared" ==> id == account)
  }

  function ChargedSince(items: map<string, Item>, account: string, since: int): set<string> {
    set id | id in items && items[id].firstAttempt.Some? && items[id].firstAttempt.value >= since && items[id].account == Some(account)
  }

  predicate Sendable(item: Item, id: string, w: World) {
    w.keyOf(item.user).Some? && (item.payload.Some? || w.render(id).Some?)
  }

  // Every check made before the quota.
  predicate Standing(u: User, item: Item, now: int, w: World) {
    Wanted(u, item) && SameConnectionStill(u, item) && SenderReady(u, item) && RetryInTime(item, now) && AlertOpen(item, w) && AlertYoung(item, now)
  }

  lemma FundedIsBudget(s: State, u: User, item: Item, now: int)
    ensures Funded(s, u, item, now) <==> item.firstAttempt.None? ==> Budget(s, AccountOf(item.user, u), item.kind, now)
  {
    var account := AccountOf(item.user, u);
    assert ReservedFor(s.users, account) == RecapSubscribers(s.users, account);
    assert ChargedSince(s.items, account, now - 24 * HOUR) == Charged(s.items, account, now - DAY);
    assert ChargedSince(s.items, account, now - 31 * 24 * HOUR) == Charged(s.items, account, now - MONTH);
  }

  // ----- The turn -----

  // A candidate is claimed exactly when every check holds and the recipient is confirmed.
  lemma ClaimedExactly(s: State, id: string, now: int, w: World)
    requires WellFormed(s) && id in s.items
    ensures var item := s.items[id];
      var u := s.users[item.user];
      Consider(s, id, now, w).Claimed?
      <==> Standing(u, item, now, w) && Funded(s, u, item, now) && w.recipient(item.user) == Some(true) && Sendable(item, id, w)
  {
    FundedIsBudget(s, s.users[s.items[id].user], s.items[id], now);
  }

  // A claim leases the item for two minutes, counts the attempt, and fixes for good what is sent, from
  // which account, over which connection and since when.
  lemma ClaimWrites(s: State, id: string, now: int, w: World)
    requires WellFormed(s) && id in s.items && Consider(s, id, now, w).Claimed?
    ensures var Claimed(s', ticket) := Consider(s, id, now, w);
      var item := s.items[id];
      var u := s.users[item.user];
      && Some(ticket.payload) == (if item.payload.Some? then item.payload else w.render(id))
      && ticket.id == id && Some(ticket.key) == w.keyOf(item.user)
      && s' == s.(items := s.items[id := item.(
           status := Sending, leaseUntil := Some(now + 120 * SECOND), attempts := item.attempts + 1,
           firstAttempt := if item.firstAttempt.Some? then item.firstAttempt else Some(now),
           payload := Some(ticket.payload), version := Some(u.version),
           account := Some(if u.provider.Shared? then "shared" else item.user))])
  {
  }

  // What the checks before the quota leave: the first one that fails decides.
  lemma EarlyRefusals(s: State, id: string, now: int, w: World)
    requires WellFormed(s) && id in s.items
    ensures var item := s.items[id];
      var u := s.users[item.user];
      var v := Consider(s, id, now, w);
      && (!Wanted(u, item) ==> v == Passed(s.(items := s.items[id := item.(status := Cancelled)])))
      && (Wanted(u, item) && !SameConnectionStill(u, item) ==>
            v == Passed(s.(items := s.items[id := item.(status := if item.firstAttempt.None? then Cancelled else Reconcile)])))
      && (Wanted(u, item) && SameConnectionStill(u, item) && !SenderReady(u, item) ==> v == Passed(s))
      && (Wanted(u, item) && SameConnectionStill(u, item) && SenderReady(u, item) && !RetryInTime(item, now) ==>
            v == Passed(s.(items := s.items[id := item.(status := Reconcile, error := Some("idempotency_window_expired"))])))
      && (Wanted(u, item) && SameConnectionStill(u, item) && SenderReady(u, item) && !AlertOpen(item, w) ==>
            v == Passed(s.(items := s.items[id := item.(status := Cancelled)])))
      && (Wanted(u, item) && SameConnectionStill(u, item) && SenderReady(u, item) && AlertOpen(item, w) && !AlertYoung(item, now) ==>
            v == Passed(s.(items := s.items[id := item.(status := Expired)])))
  {
  }

  // What the later checks leave. A recipient that cannot be confirmed postpones the item; one that
  // fails stops the subscriber and the item; missing credentials or content stop the subscriber only.
  lemma LateRefusals(s: State, id: string, now: int, w: World)
    requires WellFormed(s) && id in s.items && Standing(s.users[s.items[id].user], s.items[id], now, w)
    ensures var item := s.items[id];
      var u := s.users[item.user];
      var v := Consider(s, id, now, w);
      && (!Funded(s, u, item, now) ==>
            v == Passed(s.(items := s.items[id := item.(error := Some("quota_paused"), dueAt := now + 300 * SECOND)])))
      && (Funded(s, u, item, now) && w.recipient(item.user) == None ==>
            v == Passed(s.(items := s.items[id := item.(error := Some("recipient_verification_unavailable"), dueAt := now + 300 * SECOND)])))
      && (Funded(s, u, item, now) && w.recipient(item.user) == Some(false) ==>
            v == Passed(s.(items := s.items[id := item.(status := Cancelled)], users := s.users[item.user := u.(verified := false)])))
      && (Funded(s, u, item, now) && w.recipient(item.user) == Some(true) && !Sendable(item, id, w) ==>
            v == Passed(s.(users := s.users[item.user := u.(health := ConfigurationError)])))
  {
    FundedIsBudget(s, s.users[s.items[id].user], s.items[id], now);
    assert Consider(s, id, now, w) == Admission(s, id, now, w);
  }

  // When an item may be considered again: not before its due time, nor while a worker holds it, and only
  // while it is pending or being sent.
  predicate Considerable(item: Item, at: int) {
    (item.status == Pending || item.status == Sending) && at >= item.dueAt && (item.leaseUntil.Some? ==> at >= item.leaseUntil.value)
  }

  lemma ConsiderableIs(item: Item, at: int)
    ensures Eligible(item, at) <==> Considerable(item, at)
  {
  }

  predicate Postponed(s: State, u: User, item: Item, now: int, w: World) {
    Standing(u, item, now, w) && (!Funded(s, u, item, now) || w.recipient(item.user) == None)
  }

  // The subscriber cannot send: the sender is not ready, or key or content is missing.
  predicate CannotSend(s: State, u: User, item: Item, id: string, now: int, w: World) {
    (Wanted(u, item) && SameConnectionStill(u, item) && !SenderReady(u, item))
    || (Standing(u, item, now, w) && Funded(s, u, item, now) && w.recipient(item.user) == Some(true) && !Sendable(item, id, w))
  }

  // After its turn a candidate rests: two minutes when claimed, five when postponed, for good when
  // settled, and not at all when its subscriber cannot send.
  lemma TurnRests(s: State, id: string, now: int, w: World, at: int)
    requires WellFormed(s) && id in s.items && Considerable(s.items[id], now) && now <= at
    ensures var item := s.items[id];
      var u := s.users[item.user];
      var v := Consider(s, id, now, w);
      id in v.state.items
      && (Considerable(v.state.items[id], at)
          <==> (if v.Claimed? then at >= now + 2 * MINUTE
                else if Postponed(s, u, item, now, w) then at >= now + 5 * MINUTE
                else CannotSend(s, u, item, id, now, w)))
  {
    if Consider(s, id, now, w).Claimed? {
      ClaimWrites(s, id, now, w);
    } else if Standing(s.users[s.items[id].user], s.items[id], now, w) {
      LateRests(s, id, now, w, at);
    } else {
      EarlyRests(s, id, now, w, at);
    }
  }

  lemma LateRests(s: State, id: string, now: int, w: World, at: int)
    requires WellFormed(s) && id in s.items && Considerable(s.items[id], now) && now <= at
    requires Standing(s.users[s.items[id].user], s.items[id], now, w) && Consider(s, id, now, w).Passed?
    ensures var item := s.items[id];
      var u := s.users[item.user];
      var v := Consider(s, id, now, w);
      id in v.state.items
      && (Considerable(v.state.items[id], at)
          <==> if Postponed(s, u, item, now, w) then at >= now + 5 * MINUTE else CannotSend(s, u, item, id, now, w))
  {
    ClaimedExactly(s, id, now, w);
    LateRefusals(s, id, now, w);
  }

  lemma EarlyRests(s: State, id: string, now: int, w: World, at: int)
    requires WellFormed(s) && id in s.items && Considerable(s.items[id], now) && now <= at
    requires !Standing(s.users[s.items[id].user], s.items[id], now, w)
    ensures var item := s.items[id];
      var u := s.users[item.user];
      var v := Consider(s, id, now, w);
      id in v.state.items
      && (Considerable(v.state.items[id], at) <==> Wanted(u, item) && SameConnectionStill(u, item) && !SenderReady(u, item))
  {
    EarlyRefusals(s, id, now, w);
  }

  // ----- The queue -----

  predicate PassedTo(s: State, id: string, now: int, w: World, s': State) {
    WellFormed(s) && id in s.items && Consider(s, id, now, w) == Passed(s')
  }

  // The candidates before `n` are put aside one after the other, in the order given.
  ghost predicate PutAsideInTurn(states: seq<State>, order: seq<string>, n: nat, now: int, w: World) {
    && |states| == n + 1 && n <= |order| && WellFormed(states[n])
    && forall i :: 0 <= i < n ==> PassedTo(states[i], order[i], now, w, states[i + 1])
  }

  lemma OneMoreTurn(s: State, states: seq<State>, order: seq<string>, n: nat, now: int, w: World)
    requires order != [] && PutAsideInTurn(states, order[1..], n, now, w) && PassedTo(s, order[0], now, w, states[0])
    ensures PutAsideInTurn([s] + states, order, n + 1, now, w)
  {
    var all := [s] + states;
    forall i | 0 <= i < n + 1 ensures PassedTo(all[i], order[i], now, w, all[i + 1]) {
      if i > 0 {
        assert PassedTo(states[i - 1], order[1..][i - 1], now, w, states[i]);
        assert order[1..][i - 1] == order[i];
      }
    }
  }

  // Candidates take turns in the order given, each finding what the ones before it left. The first one
  // that can be claimed is; when none can, every one of them has had its turn.
  lemma {:induction false} TurnsInOrder(s: State, order: seq<string>, now: int, w: World) returns (states: seq<State>, n: nat)
    requires WellFormed(s) && forall i :: 0 <= i < |order| ==> order[i] in s.items
    ensures PutAsideInTurn(states, order, n, now, w) && states[0] == s
    ensures var (s', ticket) := ClaimFrom(s, order, now, w);
      if ticket.None? then n == |order| && s' == states[n]
      else n < |order| && order[n] in states[n].items && Consider(states[n], order[n], now, w) == Claimed(s', ticket.value)
    decreases |order|
  {
    states, n := [s], 0;
    if order != [] {
      PassedKeeps(s, order[0], now, w);
      var v := Consider(s, order[0], now, w);
      if v.Passed? {
        var rest, m := TurnsInOrder(v.state, order[1..], now, w);
        OneMoreTurn(s, rest, order, m, now, w);
        states, n := [s] + rest, m + 1;
      }
    }
  }

  // Nobody is mailed whose address is not confirmed by this very claim, and nobody unwanted at its start.
  lemma {:induction false} OnlyConfirmedAreMailed(s: State, order: seq<string>, now: int, w: World)
    requires WellFormed(s) && forall i :: 0 <= i < |order| ==> order[i] in s.items
    ensures var (s', ticket) := ClaimFrom(s, order, now, w);
      ticket.Some? ==>
        && ticket.value.id in order && ticket.value.id in s.items
        && var item := s.items[ticket.value.id];
        && w.recipient(item.user) == Some(true) && Wanted(s.users[item.user], item)
        && ticket.value.id in s'.items && s'.items[ticket.value.id].status == Sending
    decreases |order|
  {
    if order != [] {
      TurnShape(s, order[0], now, w);
      PassedKeeps(s, order[0], now, w);
      var v := Consider(s, order[0], now, w);
      if v.Passed? {
        OnlyConfirmedAreMailed(v.state, order[1..], now, w);
        var ticket := ClaimFrom(v.state, order[1..], now, w).1;
        if ticket.Some? { WantedBefore(s, order[0], now, w, ticket.value.id); }
      } else {
        ClaimedExactly(s, order[0], now, w);
        ClaimWrites(s, order[0], now, w);
      }
    }
  }

  // A subscriber passed over is unchanged, found unverified, or found without credentials.
  predicate NoMoreWanted(u: User, u': User) {
    u' == u || u' == u.(verified := false) || u' == u.(health := ConfigurationError)
  }

  lemma PassedUser(s: State, id: string, now: int, w: World)
    requires WellFormed(s) && id in s.items && Consider(s, id, now, w).Passed?
    ensures var user := s.items[id].user;
      user in Consider(s, id, now, w).state.users && NoMoreWanted(s.users[user], Consider(s, id, now, w).state.users[user])
  {
    AdmittedUser(s, id, now, w);
    assert Consider(s, id, now, w) == Admission(s, id, now, w) || Consider(s, id, now, w).state.users == s.users;
  }

  lemma AdmittedUser(s: State, id: string, now: int, w: World)
    requires WellFormed(s) && id in s.items
    ensures var user := s.items[id].user;
      user in Admission(s, id, now, w).state.users && NoMoreWanted(s.users[user], Admission(s, id, now, w).state.users[user])
  {
  }

  // Being put aside never makes anybody wanted.
  lemma WantedBefore(s: State, id: string, now: int, w: World, other: string)
    requires WellFormed(s) && id in s.items && other in s.items && Consider(s, id, now, w).Passed?
    requires WellFormed(Consider(s, id, now, w).state) && other in Consider(s, id, now, w).state.items
    ensures var s' := Consider(s, id, now, w).state;
      && s'.items[other].user == s.items[other].user && s'.items[other].kind == s.items[other].kind
      && (Wanted(s'.users[s'.items[other].user], s'.items[other]) ==> Wanted(s.users[s.items[other].user], s.items[other]))
  {
    TurnShape(s, id, now, w);
    PassedUser(s, id, now, w);
    ShapeKeepsUnwanted(s, id, Consider(s, id, now, w), other);
  }

  lemma ShapeKeepsUnwanted(s: State, id: string, v: Verdict, other: string)
    requires WellFormed(s) && id in s.items && other in s.items && other in v.state.items && v.Passed? && TurnShaped(s, id, v)
    requires NoMoreWanted(s.users[s.items[id].user], v.state.users[s.items[id].user]) && v.state.items[other].user in v.state.users
    ensures v.state.items[other].user == s.items[other].user && v.state.items[other].kind == s.items[other].kind
    ensures Wanted(v.state.users[v.state.items[other].user], v.state.items[other]) ==> Wanted(s.users[s.items[other].user], s.items[other])
  {
  }
}
