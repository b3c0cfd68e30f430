/** What a matching pass adds, row by row, told from the subscribers and the events alone. */
module MatchingRecords {
  import opened Prelude
  import opened Tables
  import opened Matching

  // The subscriber takes mail of some kind, had opted in by the discovery, and chose this type and season.
  predicate Asks(u: User, e: Event) {
    && (u.alerts || u.recap)
    && u.optedAt.Some? && e.discoveredAt >= u.optedAt.value
    && e.jobType in u.jobTypes && e.season in u.seasons
  }

  ghost predicate Listed(rows: seq<Match>, subscriber: string, occurrence: nat) {
    exists m :: m in rows && m.subscriber == subscriber && m.occurrence == occurrence
  }

  lemma ListedIs(rows: seq<Match>, subscriber: string, occurrence: nat)
    ensures Listed(rows, subscriber, occurrence) <==> Matched(rows, subscriber, occurrence)
  {
    if m :| m in rows && m.subscriber == subscriber && m.occurrence == occurrence {
      var i :| 0 <= i < |rows| && rows[i] == m;
    }
  }

  lemma AsksIs(users: seq<User>, events: seq<Event>, subscriber: string, occurrence: nat)
    ensures WantedAmong(users, events, subscriber, occurrence)
            <==> exists u, e :: u in users && e in events && u.id == subscriber && e.occurrence == occurrence && Asks(u, e)
  {
    if WantedAmong(users, events, subscriber, occurrence) {
      var k :| 0 <= k < |events| && events[k].occurrence == occurrence && WantedBy(users, events[k], subscriber);
      var i :| 0 <= i < |users| && users[i].id == subscriber && Wants(users[i], events[k]);
      assert users[i] in users && events[k] in events && Asks(users[i], events[k]);
    }
    if u, e :| u in users && e in events && u.id == subscriber && e.occurrence == occurrence && Asks(u, e) {
      var i :| 0 <= i < |users| && users[i] == u;
      var k :| 0 <= k < |events| && events[k] == e;
      assert Wants(users[i], events[k]) && WantedBy(users, events[k], subscriber);
    }
  }

  // A pair is listed after a pass exactly when it was, or the subscriber asks for an event of the occurrence.
  lemma PairsExactly(users: seq<User>, events: seq<Event>, l: Ledger, subscriber: string, occurrence: nat)
    ensures Listed(Posted(users, events, l).matches, subscriber, occurrence)
            <==> (Listed(l.matches, subscriber, occurrence)
                  || exists u, e :: u in users && e in events && u.id == subscriber && e.occurrence == occurrence && Asks(u, e))
  {
    ListedIs(l.matches, subscriber, occurrence);
    ListedIs(Posted(users, events, l).matches, subscriber, occurrence);
    PostedMeans(users, events, l, subscriber, occurrence);
    AsksIs(users, events, subscriber, occurrence);
  }

  // The row repeats what the event says of the occurrence, for a subscriber who asks for it.
  predicate RowOf(m: Match, u: User, e: Event) {
    && m.subscriber == u.id && m.occurrence == e.occurrence && Asks(u, e)
    && m.job == e.job && m.reposted == e.reposted && m.discoveredAt == e.discoveredAt
  }

  ghost predicate FromPass(users: seq<User>, events: seq<Event>, m: Match) {
    exists u, e :: u in users && e in events && RowOf(m, u, e)
  }

  // Every row there was stays, and every row behind it comes from this pass and bears its own number.
  ghost predicate Grown(users: seq<User>, events: seq<Event>, l: Ledger, l': Ledger) {
    && l.matches <= l'.matches && l.alerts <= l'.alerts
    && forall i :: |l.matches| <= i < |l'.matches| ==> l'.matches[i].id == i && FromPass(users, events, l'.matches[i])
  }

  lemma {:induction false} RowsFromEvent(users: seq<User>, e: Event, l: Ledger)
    ensures Grown(users, [e], l, OfferedAll(users, e, l))
  {
    if users != [] {
      var last, rest := users[|users| - 1], users[..|users| - 1];
      RowsFromEvent(rest, e, l);
      var mid, after := OfferedAll(rest, e, l), OfferedAll(users, e, l);
      forall i | |l.matches| <= i < |after.matches| ensures after.matches[i].id == i && FromPass(users, [e], after.matches[i]) {
        if i < |mid.matches| {
          assert after.matches[i] == mid.matches[i];
          var u, f :| u in rest && f in [e] && RowOf(mid.matches[i], u, f);
          assert u in users;
        } else {
          assert last in users && e in [e] && RowOf(after.matches[i], last, e);
        }
      }
    }
  }

  // Every new row carries the job, the repost flag and the discovery instant of an event of its occurrence.
  lemma {:induction false} RowsFromEvents(users: seq<User>, events: seq<Event>, l: Ledger)
    ensures Grown(users, events, l, Posted(users, events, l))
  {
    if events != [] {
      var last, rest := events[|events| - 1], events[..|events| - 1];
      RowsFromEvents(users, rest, l);
      var mid, after := Posted(users, rest, l), Posted(users, events, l);
      RowsFromEvent(users, last, mid);
      forall i | |l.matches| <= i < |after.matches| ensures after.matches[i].id == i && FromPass(users, events, after.matches[i]) {
        if i < |mid.matches| {
          assert after.matches[i] == mid.matches[i];
          var u, e :| u in users && e in rest && RowOf(mid.matches[i], u, e);
          assert e in events;
        } else {
          var u, e :| u in users && e in [last] && RowOf(after.matches[i], u, e);
          assert e in events;
        }
      }
    }
  }

  ghost predicate AlertAsked(users: seq<User>, events: seq<Event>, alert: (string, nat)) {
    exists u, e :: u in users && e in events && (u.id, e.occurrence) == alert && e.open && u.alerts && Asks(u, e)
  }

  lemma AlertDueIs(users: seq<User>, events: seq<Event>, l: Ledger, alert: (string, nat))
    ensures AlertDue(users, events, l, alert) <==> !Matched(l.matches, alert.0, alert.1) && AlertAsked(users, events, alert)
  {
    if AlertDue(users, events, l, alert) {
      var k :| 0 <= k < |events| && events[k].occurrence == alert.1 && events[k].open && AlertWantedBy(users, events[k], alert.0);
      var i :| 0 <= i < |users| && users[i].id == alert.0 && users[i].alerts && Wants(users[i], events[k]);
      assert users[i] in users && events[k] in events && Asks(users[i], events[k]);
    }
    if u, e :| u in users && e in events && (u.id, e.occurrence) == alert && e.open && u.alerts && Asks(u, e) {
      var i :| 0 <= i < |users| && users[i] == u;
      var k :| 0 <= k < |events| && events[k] == e;
      assert Wants(users[i], events[k]) && AlertWantedBy(users, events[k], alert.0);
    }
  }

  // An alert is queued exactly for a pair not listed before, of an open occurrence, whose subscriber takes
  // alerts and asks for the event. Each occurrence has one event, each subscriber one row.
  lemma AlertsExactly(users: seq<User>, events: seq<Event>, l: Ledger, alert: (string, nat))
    requires forall i, j :: 0 <= i < j < |users| ==> users[i].id != users[j].id
    requires forall i, j :: 0 <= i < j < |events| ==> events[i].occurrence != events[j].occurrence
    ensures alert in Posted(users, events, l).alerts
            <==> alert in l.alerts || (!Listed(l.matches, alert.0, alert.1) && AlertAsked(users, events, alert))
  {
    AlertsAreExact(users, events, l, alert);
    ListedIs(l.matches, alert.0, alert.1);
    AlertDueIs(users, events, l, alert);
  }
}
