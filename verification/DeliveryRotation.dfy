/** The order in which waiting deliveries take their turns, and why nobody is served twice before another
    who waits is served once. */
module DeliveryRotation {
  import opened Prelude
  import opened Delivery
  import opened DeliveryRuns
  import opened DeliveryTurns

  // `later` was charged after every charge of `sooner`, if there is any.
  ghost predicate ChargedLater(items: map<string, Item>, sooner: string, later: string) {
    exists id :: id in items && items[id].user == later && items[id].firstAttempt.Some?
      && forall x :: x in items && items[x].user == sooner && items[x].firstAttempt.Some? ==>
           items[x].firstAttempt.value < items[id].firstAttempt.value
  }

  // Recaps first; then the recipient charged longest ago; then the oldest delivery.
  ghost predicate Ahead(s: State, a: string, b: string)
    requires a in s.items && b in s.items
  {
    var x, y := s.items[a], s.items[b];
    if x.kind.Recap? != y.kind.Recap? then x.kind.Recap?
    else if ChargedLater(s.items, x.user, y.user) then true
    else if ChargedLater(s.items, y.user, x.user) then false
    else x.createdAt < y.createdAt || (x.createdAt == y.createdAt && Less(a, b))
  }

  ghost predicate Rotated(s: State, order: seq<string>) {
    (forall i :: 0 <= i < |order| ==> order[i] in s.items)
    && forall i, j :: 0 <= i < j < |order| ==> !Ahead(s, order[j], order[i])
  }

  // Of two deliveries one is ahead, so the rotation leaves nothing to choice.
  lemma OneIsAhead(s: State, a: string, b: string)
    requires a in s.items && b in s.items && a != b
    ensures Ahead(s, a, b) <==> !Ahead(s, b, a)
  {
    LessTotal(a, b);
    NotBothLater(s.items, s.items[a].user, s.items[b].user);
  }

  lemma NotBothLater(items: map<string, Item>, u: string, v: string)
    ensures !(ChargedLater(items, u, v) && ChargedLater(items, v, u))
  {
  }

  // The states a pass goes through differ from the first one only in what was put aside.
  lemma {:induction false} PutAsideAlong(states: seq<State>, order: seq<string>, n: nat, now: int, w: World, i: nat)
    requires PutAsideInTurn(states, order, n, now, w) && i <= n
    ensures OnlyPutAside(states[0], states[i])
  {
    if i > 0 {
      PutAsideAlong(states, order, n, now, w, i - 1);
      assert PassedTo(states[i - 1], order[i - 1], now, w, states[i]);
      PassedKeeps(states[i - 1], order[i - 1], now, w);
      PutAsideTrans(states[0], states[i - 1], states[i]);
    }
  }

  // The delivery had its turn in this pass, and was put aside.
  ghost predicate HadItsTurn(s: State, id: string, now: int, w: World) {
    exists mid, next :: OnlyPutAside(s, mid) && PassedTo(mid, id, now, w, next)
  }

  // Whatever is claimed, every delivery ahead of it had its own turn first.
  lemma NobodyIsOvertaken(s: State, order: seq<string>, now: int, w: World, id: string)
    requires WellFormed(s) && Rotated(s, order) && ClaimFrom(s, order, now, w).1.Some?
    requires id in order
    ensures var claimed := ClaimFrom(s, order, now, w).1.value.id;
      claimed in s.items && (Ahead(s, id, claimed) ==> HadItsTurn(s, id, now, w))
  {
    var states, n := TurnsInOrder(s, order, now, w);
    var claimed := ClaimFrom(s, order, now, w).1.value.id;
    GrantIsForIt(states[n], order[n], now, w);
    var k :| 0 <= k < |order| && order[k] == id;
    if Ahead(s, id, claimed) {
      LessTotal(id, claimed);
      assert k < n;
      PutAsideAlong(states, order, n, now, w, k);
      assert PassedTo(states[k], order[k], now, w, states[k + 1]);
    }
  }

  // A recipient charged at one claim and claimed again later has not overtaken anybody: every recap still
  // waiting whose recipient was not charged since the first claim had its turn before the second.
  lemma ServedBeforeTwice(s: State, now: int, order: seq<string>, w: World, steps: seq<(Step, int)>,
                          t: State, later: int, order': seq<string>, w': World, waiting: string)
    requires Good(s, now) && Enabled(s, Claim(order, w), now) && ClaimFrom(s, order, now, w).1.Some?
    requires RunFrom(ClaimFrom(s, order, now, w).0, now, steps, t, later)
    requires Enabled(t, Claim(order', w'), later) && Rotated(t, order') && ClaimFrom(t, order', later, w').1.Some?
    requires var id, id' := ClaimFrom(s, order, now, w).1.value.id, ClaimFrom(t, order', later, w').1.value.id;
      id in s.items && s.items[id].firstAttempt.None? && id' in t.items && t.items[id'].user == s.items[id].user
    requires waiting in order' && t.items[waiting].kind.Recap?
    requires forall x :: x in t.items && t.items[x].user == t.items[waiting].user && t.items[x].firstAttempt.Some? ==>
      t.items[x].firstAttempt.value < now
    ensures HadItsTurn(t, waiting, later, w')
  {
    var id, id' := ClaimFrom(s, order, now, w).1.value.id, ClaimFrom(t, order', later, w').1.value.id;
    ChargedAtClaim(s, now, order, w);
    StepGood(s, Claim(order, w), now, now);
    RunGood(ClaimFrom(s, order, now, w).0, now, steps, t, later);
    assert SameAttempt(ClaimFrom(s, order, now, w).0.items[id], t.items[id]);
    assert ChargedLater(t.items, t.items[waiting].user, t.items[id'].user);
    NobodyIsOvertaken(t, order', later, w', waiting);
  }

  // A first attempt is charged at the claim, to the recipient of the item.
  lemma ChargedAtClaim(s: State, now: int, order: seq<string>, w: World)
    requires WellFormed(s) && (forall i :: 0 <= i < |order| ==> order[i] in s.items) && ClaimFrom(s, order, now, w).1.Some?
    ensures var (s', ticket) := ClaimFrom(s, order, now, w);
      var id := ticket.value.id;
      && id in s.items && id in s'.items && s'.items[id].user == s.items[id].user
      && s'.items[id].firstAttempt == Some(s.items[id].firstAttempt.GetOr(now))
  {
    var mid := ClaimFromMeans(s, order, now, w);
    GrantMeans(mid, ClaimFrom(s, order, now, w).1.value.id, now, w);
    assert SameIdentity(s.items[ClaimFrom(s, order, now, w).1.value.id], mid.items[ClaimFrom(s, order, now, w).1.value.id]);
  }
}
