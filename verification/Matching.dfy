/** Turning discovery events into matches and instant alerts. */
module Matching {
  import opened Prelude
  import opened Tables

  datatype User = User(id: string, alerts: bool, recap: bool, optedAt: Option<int>, jobTypes: set<string>, seasons: set<string>)

  // An unprocessed event with the occurrence and the job it is about.
  datatype Event = Event(occurrence: nat, job: nat, jobType: string, season: string, reposted: bool, discoveredAt: int, open: bool)

  // Rows are numbered as they are added.
  datatype Ledger = Ledger(matches: seq<Match>, alerts: seq<(string, nat)>)

  predicate Wants(u: User, e: Event) {
    (u.alerts || u.recap) && u.optedAt.Some? && u.optedAt.value <= e.discoveredAt && e.jobType in u.jobTypes && e.season in u.seasons
  }

  predicate Matched(matches: seq<Match>, subscriber: string, occurrence: nat) {
    exists i :: 0 <= i < |matches| && matches[i].subscriber == subscriber && matches[i].occurrence == occurrence
  }

  function Offered(u: User, e: Event, l: Ledger): Ledger {
    if !Wants(u, e) || Matched(l.matches, u.id, e.occurrence) then l
    else
      Ledger(l.matches + [Match(|l.matches|, u.id, e.occurrence, e.job, e.reposted, e.discoveredAt)],
             if u.alerts && e.open then l.alerts + [(u.id, e.occurrence)] else l.alerts)
  }

  function OfferedAll(users: seq<User>, e: Event, l: Ledger): Ledger {
    if users == [] then l else Offered(users[|users| - 1], e, OfferedAll(users[..|users| - 1], e, l))
  }

  function Posted(users: seq<User>, events: seq<Event>, l: Ledger): Ledger {
    if events == [] then l else OfferedAll(users, events[|events| - 1], Posted(users, events[..|events| - 1], l))
  }

  class Matcher {
    var matches: seq<Match>
    var alerts: seq<(string, nat)>
    var processed: set<nat>

    function View(): Ledger
      reads this
    {
      Ledger(matches, alerts)
    }

    constructor ()
      ensures View() == Ledger([], []) && processed == {}
    {
      matches, alerts, processed := [], [], {};
    }

    method IsMatched(subscriber: string, occurrence: nat) returns (found: bool)
      ensures found == Matched(matches, subscriber, occurrence)
    {
      for i := 0 to |matches|
        invariant !Matched(matches[..i], subscriber, occurrence)
      {
        if matches[i].subscriber == subscriber && matches[i].occurrence == occurrence { return true; }
        assert matches[..i + 1] == matches[..i] + [matches[i]];
      }
      assert matches[..|matches|] == matches;
      found := false;
    }

    method OfferToAll(users: seq<User>, e: Event)
      modifies this`matches, this`alerts
      ensures View() == OfferedAll(users, e, old(View()))
    {
      for i := 0 to |users|
        invariant View() == OfferedAll(users[..i], e, old(View()))
      {
        var u := users[i];
        assert users[..i + 1][..i] == users[..i];
        if !Wants(u, e) { continue; }
        var found := IsMatched(u.id, e.occurrence);
        if found { continue; }
        matches := matches + [Match(|matches|, u.id, e.occurrence, e.job, e.reposted, e.discoveredAt)];
        if u.alerts && e.open {
          alerts := alerts + [(u.id, e.occurrence)];
        }
      }
      assert users[..|users|] == users;
    }

    // `users` are verified and not suppressed; `events` the oldest unprocessed ones.
    method MatchEvents(users: seq<User>, events: seq<Event>)
      modifies this
      ensures View() == Posted(users, events, old(View()))
      ensures processed == old(processed) + set i | 0 <= i < |events| :: events[i].occurrence
    {
      for i := 0 to |events|
        invariant View() == Posted(users, events[..i], old(View()))
        invariant processed == old(processed) + set k | 0 <= k < i :: events[k].occurrence
      {
        assert events[..i + 1][..i] == events[..i];
        OfferToAll(users, events[i]);
        processed := processed + {events[i].occurrence};
      }
      assert events[..|events|] == events;
    }
  }

  // ----- What a pass adds -----

  // No pair is matched twice, and no pair alerted twice or without a match.
  ghost predicate Tidy(l: Ledger) {
    && (forall i, j :: 0 <= i < j < |l.matches| ==>
          (l.matches[i].subscriber, l.matches[i].occurrence) != (l.matches[j].subscriber, l.matches[j].occurrence))
    && (forall i, j :: 0 <= i < j < |l.alerts| ==> l.alerts[i] != l.alerts[j])
    && (forall i :: 0 <= i < |l.alerts| ==> Matched(l.matches, l.alerts[i].0, l.alerts[i].1))
  }

  lemma OfferedMeans(u: User, e: Event, l: Ledger, subscriber: string, occurrence: nat)
    ensures var l' := Offered(u, e, l);
      Matched(l'.matches, subscriber, occurrence)
      <==> Matched(l.matches, subscriber, occurrence) || (Wants(u, e) && u.id == subscriber && e.occurrence == occurrence)
  {
    var l' := Offered(u, e, l);
    if l' != l {
      var last := |l.matches|;
      assert l'.matches[last] == Match(|l.matches|, u.id, e.occurrence, e.job, e.reposted, e.discoveredAt);
      if Matched(l.matches, subscriber, occurrence) {
        var i :| 0 <= i < last && l.matches[i].subscriber == subscriber && l.matches[i].occurrence == occurrence;
        assert l'.matches[i] == l.matches[i];
      }
    }
  }

  lemma OfferedTidy(u: User, e: Event, l: Ledger)
    requires Tidy(l)
    ensures Tidy(Offered(u, e, l))
  {
    var l' := Offered(u, e, l);
    forall i | 0 <= i < |l'.alerts| ensures Matched(l'.matches, l'.alerts[i].0, l'.alerts[i].1) {
      OfferedMeans(u, e, l, l'.alerts[i].0, l'.alerts[i].1);
    }
  }

  ghost predicate WantedBy(users: seq<User>, e: Event, subscriber: string) {
    exists i :: 0 <= i < |users| && users[i].id == subscriber && Wants(users[i], e)
  }

  ghost predicate WantedAmong(users: seq<User>, events: seq<Event>, subscriber: string, occurrence: nat) {
    exists k :: 0 <= k < |events| && events[k].occurrence == occurrence && WantedBy(users, events[k], subscriber)
  }

  lemma {:induction false} AllMeans(users: seq<User>, e: Event, l: Ledger, subscriber: string, occurrence: nat)
    ensures (Matched(OfferedAll(users, e, l).matches, subscriber, occurrence)
             <==> Matched(l.matches, subscriber, occurrence) || (e.occurrence == occurrence && WantedBy(users, e, subscriber)))
    ensures Tidy(l) ==> Tidy(OfferedAll(users, e, l))
  {
    if users != [] {
      var last, rest := users[|users| - 1], users[..|users| - 1];
      AllMeans(rest, e, l, subscriber, occurrence);
      OfferedMeans(last, e, OfferedAll(rest, e, l), subscriber, occurrence);
      if Tidy(l) { OfferedTidy(last, e, OfferedAll(rest, e, l)); }
      assert WantedBy(users, e, subscriber) <==> WantedBy(rest, e, subscriber) || (last.id == subscriber && Wants(last, e)) by {
        assert users == rest + [last];
        if WantedBy(rest, e, subscriber) {
          var i :| 0 <= i < |rest| && rest[i].id == subscriber && Wants(rest[i], e);
          assert users[i] == rest[i];
        }
        assert users[|rest|] == last;
      }
    }
  }

  // After a pass, a pair is matched exactly when it was before or the subscriber wants an event of the
  // occurrence; nothing is matched or alerted twice.
  lemma {:induction false} PostedMeans(users: seq<User>, events: seq<Event>, l: Ledger, subscriber: string, occurrence: nat)
    ensures (Matched(Posted(users, events, l).matches, subscriber, occurrence)
             <==> Matched(l.matches, subscriber, occurrence) || WantedAmong(users, events, subscriber, occurrence))
    ensures Tidy(l) ==> Tidy(Posted(users, events, l))
  {
    if events != [] {
      var last, rest := events[|events| - 1], events[..|events| - 1];
      PostedMeans(users, rest, l, subscriber, occurrence);
      AllMeans(users, last, Posted(users, rest, l), subscriber, occurrence);
      assert events == rest + [last] && events[|rest|] == last;
      if WantedAmong(users, rest, subscriber, occurrence) {
        var k :| 0 <= k < |rest| && rest[k].occurrence == occurrence && WantedBy(users, rest[k], subscriber);
        assert events[k] == rest[k];
      }
    }
  }

  // ----- Which alerts a pass queues -----

  lemma {:induction false} NothingNew(users: seq<User>, e: Event, l: Ledger)
    requires forall i :: 0 <= i < |users| && Wants(users[i], e) ==> Matched(l.matches, users[i].id, e.occurrence)
    ensures OfferedAll(users, e, l) == l
  {
    if users != [] {
      NothingNew(users[..|users| - 1], e, l);
    }
  }

  // Handling the same events again, as after a crash that lost the processed flags, adds nothing.
  lemma {:induction false} PostedTwice(users: seq<User>, events: seq<Event>, l: Ledger)
    requires forall k, i :: 0 <= k < |events| && 0 <= i < |users| && Wants(users[i], events[k]) ==> Matched(l.matches, users[i].id, events[k].occurrence)
    ensures Posted(users, events, l) == l
  {
    if events != [] {
      PostedTwice(users, events[..|events| - 1], l);
      NothingNew(users, events[|events| - 1], l);
    }
  }

  lemma Replay(users: seq<User>, events: seq<Event>, l: Ledger)
    ensures Posted(users, events, Posted(users, events, l)) == Posted(users, events, l)
  {
    var l' := Posted(users, events, l);
    forall k, i | 0 <= k < |events| && 0 <= i < |users| && Wants(users[i], events[k])
      ensures Matched(l'.matches, users[i].id, events[k].occurrence)
    {
      PostedMeans(users, events, l, users[i].id, events[k].occurrence);
      assert WantedBy(users, events[k], users[i].id);
    }
    PostedTwice(users, events, l');
  }

  ghost predicate AlertWantedBy(users: seq<User>, e: Event, subscriber: string) {
    exists i :: 0 <= i < |users| && users[i].id == subscriber && users[i].alerts && Wants(users[i], e)
  }

  lemma {:induction false} EventAlerts(users: seq<User>, e: Event, l: Ledger, alert: (string, nat))
    requires forall i, j :: 0 <= i < j < |users| ==> users[i].id != users[j].id
    ensures (alert in OfferedAll(users, e, l).alerts
             <==> (alert in l.alerts
                   || (alert.1 == e.occurrence && e.open && !Matched(l.matches, alert.0, alert.1) && AlertWantedBy(users, e, alert.0))))
  {
    if users != [] {
      var last, rest := users[|users| - 1], users[..|users| - 1];
      EventAlerts(rest, e, l, alert);
      AllMeans(rest, e, l, last.id, e.occurrence);
      assert !WantedBy(rest, e, last.id);
      assert AlertWantedBy(users, e, alert.0) <==> AlertWantedBy(rest, e, alert.0) || (last.id == alert.0 && last.alerts && Wants(last, e)) by {
        assert users == rest + [last];
        if AlertWantedBy(rest, e, alert.0) {
          var i :| 0 <= i < |rest| && rest[i].id == alert.0 && rest[i].alerts && Wants(rest[i], e);
          assert users[i] == rest[i];
        }
        assert users[|rest|] == last;
      }
    }
  }

  ghost predicate AlertDue(users: seq<User>, events: seq<Event>, l: Ledger, alert: (string, nat)) {
    !Matched(l.matches, alert.0, alert.1)
    && exists k :: 0 <= k < |events| && events[k].occurrence == alert.1 && events[k].open && AlertWantedBy(users, events[k], alert.0)
  }

  // A pass queues an alert exactly for a pair not matched before whose occurrence was open and whose
  // subscriber asks for alerts and wants the event. Each occurrence has one event, each user one row.
  lemma {:induction false} AlertsAreExact(users: seq<User>, events: seq<Event>, l: Ledger, alert: (string, nat))
    requires forall i, j :: 0 <= i < j < |users| ==> users[i].id != users[j].id
    requires forall i, j :: 0 <= i < j < |events| ==> events[i].occurrence != events[j].occurrence
    ensures alert in Posted(users, events, l).alerts <==> alert in l.alerts || AlertDue(users, events, l, alert)
  {
    if events != [] {
      var last, rest := events[|events| - 1], events[..|events| - 1];
      AlertsAreExact(users, rest, l, alert);
      EventAlerts(users, last, Posted(users, rest, l), alert);
      PostedMeans(users, rest, l, alert.0, alert.1);
      if last.occurrence == alert.1 {
        assert !WantedAmong(users, rest, alert.0, alert.1);
      }
      DueNext(users, events, l, alert);
    }
  }

  lemma DueNext(users: seq<User>, events: seq<Event>, l: Ledger, alert: (string, nat))
    requires events != []
    ensures var last, rest := events[|events| - 1], events[..|events| - 1];
      AlertDue(users, events, l, alert)
      <==> (AlertDue(users, rest, l, alert)
            || (!Matched(l.matches, alert.0, alert.1) && last.occurrence == alert.1 && last.open && AlertWantedBy(users, last, alert.0)))
  {
    var last, rest := events[|events| - 1], events[..|events| - 1];
    assert events == rest + [last] && events[|rest|] == last;
    if AlertDue(users, rest, l, alert) {
      var k :| 0 <= k < |rest| && rest[k].occurrence == alert.1 && rest[k].open && AlertWantedBy(users, rest[k], alert.0);
      assert events[k] == rest[k];
    }
  }
}
