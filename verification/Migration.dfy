/** Moving notifications from jobs to job occurrences, and back. */
module Migration {
  import opened Prelude
  import opened Tables

  // ----- Tables -----

  datatype Job = Job(id: nat, applyUrl: string, postedAt: Option<int>, createdAt: int, updatedAt: int, closed: bool)
  datatype Occurrence = Occurrence(
    id: nat, job: nat, reposted: bool, observedAt: int, postedAt: Option<int>, applyUrl: string, closedAt: Option<int>)

  datatype OldEvent = OldEvent(job: nat, discoveredAt: int, processed: bool)
  datatype Event = Event(occurrence: nat, job: nat, reposted: bool, discoveredAt: int, processed: bool)

  datatype OldMatch = OldMatch(id: nat, subscriber: string, job: nat, discoveredAt: int)

  // Rows of a table in the order a query asks for.
  ghost predicate Ordering<R(!new)>(table: set<R>, rows: seq<R>, before: (R, R) -> bool) {
    && (forall r :: r in table <==> r in rows)
    && (forall i, j :: 0 <= i < j < |rows| ==> before(rows[i], rows[j]))
  }

  // No row comes before one that comes before it.
  ghost predicate Strict<R(!new)>(before: (R, R) -> bool) {
    forall a, b :: before(a, b) ==> !before(b, a)
  }

  // ----- Upgrade -----

  function FirstOccurrence(job: Job, id: nat): Occurrence {
    Occurrence(id, job.id, false, job.createdAt, job.postedAt, job.applyUrl, if job.closed then Some(job.updatedAt) else None)
  }

  ghost predicate JobKeys(jobs: seq<Job>) {
    forall i, j :: 0 <= i < j < |jobs| ==> jobs[i].id != jobs[j].id
  }

  function JobIds(jobs: seq<Job>): set<nat> {
    set i | 0 <= i < |jobs| :: jobs[i].id
  }

  ghost predicate Numbered(jobs: seq<Job>, byJob: map<nat, nat>) {
    forall i :: 0 <= i < |jobs| ==> jobs[i].id in byJob && byJob[jobs[i].id] == i + 1
  }

  // Every job gets one occurrence, numbered from 1 in the order of the jobs.
  ghost predicate Backfilled(jobs: seq<Job>, occurrences: seq<Occurrence>, byJob: map<nat, nat>) {
    && |occurrences| == |jobs|
    && (forall i :: 0 <= i < |jobs| ==> occurrences[i] == FirstOccurrence(jobs[i], i + 1))
    && Numbered(jobs, byJob) && byJob.Keys == JobIds(jobs)
  }

  lemma IdsNext(jobs: seq<Job>, n: nat)
    requires n < |jobs|
    ensures JobIds(jobs[..n + 1]) == JobIds(jobs[..n]) + {jobs[n].id}
  {
    assert jobs[..n + 1] == jobs[..n] + [jobs[n]];
    forall id | id in JobIds(jobs[..n]) ensures id in JobIds(jobs[..n + 1]) {
      var i :| 0 <= i < n && jobs[..n][i].id == id;
      assert jobs[..n + 1][i].id == id;
    }
    assert jobs[..n + 1][n].id == jobs[n].id;
  }

  lemma NumbersNext(jobs: seq<Job>, n: nat, byJob: map<nat, nat>)
    requires JobKeys(jobs) && n < |jobs| && Numbered(jobs[..n], byJob)
    ensures Numbered(jobs[..n + 1], byJob[jobs[n].id := n + 1])
  {
    var all, dictionary := jobs[..n + 1], byJob[jobs[n].id := n + 1];
    forall i | 0 <= i < |all| ensures all[i].id in dictionary && dictionary[all[i].id] == i + 1 {
      if i < n { assert jobs[..n][i] == all[i] && jobs[i].id != jobs[n].id; }
    }
  }

  lemma BackfillsNext(jobs: seq<Job>, n: nat, occurrences: seq<Occurrence>, byJob: map<nat, nat>)
    requires JobKeys(jobs) && n < |jobs| && Backfilled(jobs[..n], occurrences, byJob)
    ensures Backfilled(jobs[..n + 1], occurrences + [FirstOccurrence(jobs[n], n + 1)], byJob[jobs[n].id := n + 1])
  {
    NumbersNext(jobs, n, byJob);
    IdsNext(jobs, n);
    assert jobs[..n + 1] == jobs[..n] + [jobs[n]];
  }

  method Backfill(jobs: seq<Job>) returns (occurrences: seq<Occurrence>, byJob: map<nat, nat>)
    requires JobKeys(jobs)
    ensures Backfilled(jobs, occurrences, byJob)
  {
    occurrences, byJob := [], map[];
    var next := 1;
    for i := 0 to |jobs|
      invariant next == i + 1 && Backfilled(jobs[..i], occurrences, byJob)
    {
      var job := jobs[i];
      BackfillsNext(jobs, i, occurrences, byJob);
      occurrences := occurrences + [FirstOccurrence(job, next)];
      byJob := byJob[job.id := next];
      next := next + 1;
    }
    assert jobs[..|jobs|] == jobs;
  }

  function EventUp(e: OldEvent, byJob: map<nat, nat>): Event
    requires e.job in byJob
  {
    Event(byJob[e.job], e.job, false, e.discoveredAt, e.processed)
  }

  function MatchUp(m: OldMatch, byJob: map<nat, nat>): Match
    requires m.job in byJob
  {
    Match(m.id, m.subscriber, byJob[m.job], m.job, false, m.discoveredAt)
  }

  method MoveEvents(rows: seq<OldEvent>, byJob: map<nat, nat>) returns (events: seq<Event>)
    requires forall i :: 0 <= i < |rows| ==> rows[i].job in byJob
    ensures |events| == |rows| && forall i :: 0 <= i < |rows| ==> events[i] == EventUp(rows[i], byJob)
  {
    events := [];
    for i := 0 to |rows|
      invariant |events| == i && forall k :: 0 <= k < i ==> events[k] == EventUp(rows[k], byJob)
    {
      var job := rows[i].job;
      events := events + [Event(byJob[job], job, false, rows[i].discoveredAt, rows[i].processed)];
    }
  }

  method MoveMatches(rows: seq<OldMatch>, byJob: map<nat, nat>) returns (matches: seq<Match>)
    requires forall i :: 0 <= i < |rows| ==> rows[i].job in byJob
    ensures |matches| == |rows| && forall i :: 0 <= i < |rows| ==> matches[i] == MatchUp(rows[i], byJob)
  {
    matches := [];
    for i := 0 to |rows|
      invariant |matches| == i && forall k :: 0 <= k < i ==> matches[k] == MatchUp(rows[k], byJob)
    {
      var job := rows[i].job;
      matches := matches + [Match(rows[i].id, rows[i].subscriber, byJob[job], job, false, rows[i].discoveredAt)];
    }
  }

  // The occurrences of a delivery's jobs; an entry that names no backfilled job is skipped.
  function OccurrencesOf(ids: seq<Option<nat>>, byJob: map<nat, nat>): seq<nat> {
    if ids == [] then []
    else
      var last := ids[|ids| - 1];
      OccurrencesOf(ids[..|ids| - 1], byJob) + if last.Some? && last.value in byJob then [byJob[last.value]] else []
  }

  // Only recaps are counted, everything in them as new.
  method MoveDelivery(ids: seq<Option<nat>>, recap: bool, byJob: map<nat, nat>)
    returns (occurrenceIds: seq<nat>, total: nat, new': nat, reposted: nat)
    ensures occurrenceIds == OccurrencesOf(ids, byJob)
    ensures total == new' + reposted && total == (if recap then |occurrenceIds| else 0) && reposted == 0
  {
    occurrenceIds := [];
    for i := 0 to |ids|
      invariant occurrenceIds == OccurrencesOf(ids[..i], byJob)
    {
      assert ids[..i + 1][..i] == ids[..i];
      if ids[i].Some? && ids[i].value in byJob {
        occurrenceIds := occurrenceIds + [byJob[ids[i].value]];
      }
    }
    assert ids[..|ids|] == ids;
    total, new', reposted := 0, 0, 0;
    if recap {
      total, new' := |occurrenceIds|, |occurrenceIds|;
    }
  }

  // The data the upgrade moves, in the order of its loops.
  method Upgrade(jobs: seq<Job>, events: seq<OldEvent>, matches: seq<OldMatch>)
    returns (occurrences: seq<Occurrence>, moved: seq<Event>, matched: seq<Match>, byJob: map<nat, nat>)
    requires JobKeys(jobs)
    requires (forall i :: 0 <= i < |events| ==> events[i].job in JobIds(jobs)) && forall i :: 0 <= i < |matches| ==> matches[i].job in JobIds(jobs)
    ensures Backfilled(jobs, occurrences, byJob)
    ensures |moved| == |events| && forall i :: 0 <= i < |events| ==> events[i].job in byJob && moved[i] == EventUp(events[i], byJob)
    ensures |matched| == |matches| && forall i :: 0 <= i < |matches| ==> matches[i].job in byJob && matched[i] == MatchUp(matches[i], byJob)
  {
    occurrences, byJob := Backfill(jobs);
    moved := MoveEvents(events, byJob);
    matched := MoveMatches(matches, byJob);
  }

  // A backfilled occurrence is the job's first: it carries the job's own link and dates, and is closed
  // exactly when the job is, since the job's last update.
  lemma BackfilledIs(jobs: seq<Job>, occurrences: seq<Occurrence>, byJob: map<nat, nat>, i: nat)
    requires Backfilled(jobs, occurrences, byJob) && i < |jobs|
    ensures i < |occurrences|
    ensures var (job, o) := (jobs[i], occurrences[i]);
      && o.id == i + 1 && o.job == job.id && byJob[job.id] == o.id && !o.reposted
      && o.applyUrl == job.applyUrl && o.postedAt == job.postedAt && o.observedAt == job.createdAt
      && (o.closedAt.Some? <==> job.closed) && (o.closedAt.Some? ==> o.closedAt.value == job.updatedAt)
  {
  }

  // A moved row points at its job's own occurrence, is of the discovered kind, and is otherwise what it was.
  lemma MovedIs(jobs: seq<Job>, occurrences: seq<Occurrence>, byJob: map<nat, nat>, e: OldEvent, m: OldMatch) returns (i: nat, k: nat)
    requires Backfilled(jobs, occurrences, byJob) && e.job in byJob && m.job in byJob
    ensures i < |occurrences| && occurrences[i].job == e.job && k < |occurrences| && occurrences[k].job == m.job
    ensures var up := EventUp(e, byJob);
      up.occurrence == occurrences[i].id && up.job == e.job && !up.reposted && up.discoveredAt == e.discoveredAt && up.processed == e.processed
    ensures var up := MatchUp(m, byJob);
      up.occurrence == occurrences[k].id && up.job == m.job && !up.reposted && up.discoveredAt == m.discoveredAt
      && up.id == m.id && up.subscriber == m.subscriber
  {
    assert e.job in JobIds(jobs) && m.job in JobIds(jobs);
    i :| 0 <= i < |jobs| && jobs[i].id == e.job;
    k :| 0 <= k < |jobs| && jobs[k].id == m.job;
    assert occurrences[i] == FirstOccurrence(jobs[i], i + 1) && occurrences[k] == FirstOccurrence(jobs[k], k + 1);
  }

  ghost predicate Known(ids: seq<Option<nat>>, byJob: map<nat, nat>, i: nat) {
    i < |ids| && ids[i].Some? && ids[i].value in byJob
  }

  // A delivery's occurrences are those of its known jobs, one for each, in the same order.
  lemma {:induction false} DeliveredIs(ids: seq<Option<nat>>, byJob: map<nat, nat>) returns (from: seq<nat>)
    ensures |from| == |OccurrencesOf(ids, byJob)|
    ensures forall k :: 0 <= k < |from| ==> Known(ids, byJob, from[k]) && OccurrencesOf(ids, byJob)[k] == byJob[ids[from[k]].value]
    ensures forall k, l :: 0 <= k < l < |from| ==> from[k] < from[l]
    ensures forall i :: Known(ids, byJob, i) ==> i in from
  {
    from := [];
    if ids != [] {
      var n := |ids| - 1;
      from := DeliveredIs(ids[..n], byJob);
      forall k | 0 <= k < |from| ensures Known(ids, byJob, from[k]) && from[k] < n { assert Known(ids[..n], byJob, from[k]); }
      forall i: nat | Known(ids, byJob, i) && i < n ensures i in from { assert Known(ids[..n], byJob, i); }
      if Known(ids, byJob, n) { from := from + [n]; }
    }
  }

  // ----- Downgrade -----

  function JobOf(jobs: map<nat, nat>, occurrence: nat): Option<nat> {
    if occurrence in jobs then Some(jobs[occurrence]) else None
  }

  // The first row of every key, in order; keys seen before count as served.
  function KeepFirst<R, K(==)>(rows: seq<R>, key: R -> K, seen: set<K>): seq<R> {
    if rows == [] then []
    else if key(rows[0]) in seen then KeepFirst(rows[1..], key, seen)
    else [rows[0]] + KeepFirst(rows[1..], key, seen + {key(rows[0])})
  }

  predicate EventBefore(a: Event, b: Event) {
    a.discoveredAt < b.discoveredAt || (a.discoveredAt == b.discoveredAt && a.occurrence < b.occurrence)
  }

  predicate MatchBefore(a: Match, b: Match) {
    a.discoveredAt < b.discoveredAt || (a.discoveredAt == b.discoveredAt && a.id < b.id)
  }

  function EventDown(e: Event, jobs: map<nat, nat>): OldEvent {
    OldEvent(JobOf(jobs, e.occurrence).GetOr(0), e.discoveredAt, e.processed)
  }

  function MatchDown(m: Match, jobs: map<nat, nat>): OldMatch {
    OldMatch(m.id, m.subscriber, JobOf(jobs, m.occurrence).GetOr(0), m.discoveredAt)
  }

  function EventsDown(rows: seq<Event>, jobs: map<nat, nat>): seq<OldEvent> {
    var kept := KeepFirst(rows, (e: Event) => JobOf(jobs, e.occurrence), {});
    seq(|kept|, i requires 0 <= i < |kept| => EventDown(kept[i], jobs))
  }

  function MatchesDown(rows: seq<Match>, jobs: map<nat, nat>): seq<OldMatch> {
    var kept := KeepFirst(rows, (m: Match) => (m.subscriber, JobOf(jobs, m.occurrence)), {});
    seq(|kept|, i requires 0 <= i < |kept| => MatchDown(kept[i], jobs))
  }

  method RestoreEvents(rows: seq<Event>, jobs: map<nat, nat>) returns (restored: seq<OldEvent>)
    requires forall i :: 0 <= i < |rows| ==> rows[i].occurrence in jobs
    ensures restored == EventsDown(rows, jobs)
  {
    restored := [];
    var seenJobs: set<Option<nat>> := {};
    ghost var kept: seq<Event> := [];
    ghost var key := (e: Event) => JobOf(jobs, e.occurrence);
    for i := 0 to |rows|
      invariant KeepFirst(rows, key, {}) == kept + KeepFirst(rows[i..], key, seenJobs)
      invariant |restored| == |kept| && forall k :: 0 <= k < |kept| ==> restored[k] == EventDown(kept[k], jobs)
    {
      var row := rows[i];
      assert rows[i..][0] == row && rows[i..][1..] == rows[i + 1..];
      var job := JobOf(jobs, row.occurrence);
      if job !in seenJobs {
        KeptNext(rows[i..], key, seenJobs, kept);
        seenJobs, kept := seenJobs + {job}, kept + [row];
        restored := restored + [OldEvent(job.value, row.discoveredAt, row.processed)];
      }
    }
  }

  lemma KeptNext<R, K>(rows: seq<R>, key: R -> K, seen: set<K>, kept: seq<R>)
    requires rows != [] && key(rows[0]) !in seen
    ensures kept + KeepFirst(rows, key, seen) == kept + [rows[0]] + KeepFirst(rows[1..], key, seen + {key(rows[0])})
  {
  }

  method RestoreMatches(rows: seq<Match>, jobs: map<nat, nat>) returns (restored: seq<OldMatch>)
    requires forall i :: 0 <= i < |rows| ==> rows[i].occurrence in jobs
    ensures restored == MatchesDown(rows, jobs)
  {
    restored := [];
    var seenPairs: set<(string, Option<nat>)> := {};
    ghost var kept: seq<Match> := [];
    ghost var key := (m: Match) => (m.subscriber, JobOf(jobs, m.occurrence));
    for i := 0 to |rows|
      invariant KeepFirst(rows, key, {}) == kept + KeepFirst(rows[i..], key, seenPairs)
      invariant |restored| == |kept| && forall k :: 0 <= k < |kept| ==> restored[k] == MatchDown(kept[k], jobs)
    {
      var row := rows[i];
      assert rows[i..][0] == row && rows[i..][1..] == rows[i + 1..];
      var job := JobOf(jobs, row.occurrence);
      var pair := (row.subscriber, job);
      if pair !in seenPairs {
        KeptNext(rows[i..], key, seenPairs, kept);
        seenPairs, kept := seenPairs + {pair}, kept + [row];
        restored := restored + [OldMatch(row.id, row.subscriber, job.value, row.discoveredAt)];
      }
    }
  }

  method OccurrenceJobs(occurrences: seq<Occurrence>) returns (jobs: map<nat, nat>)
    requires forall i, j :: 0 <= i < j < |occurrences| ==> occurrences[i].id != occurrences[j].id
    ensures JobsOf(occurrences, jobs)
  {
    jobs := map[];
    for i := 0 to |occurrences|
      invariant forall k :: 0 <= k < i ==> occurrences[k].id in jobs && jobs[occurrences[k].id] == occurrences[k].job
    {
      jobs := jobs[occurrences[i].id := occurrences[i].job];
    }
  }

  // The rows are read in the order the queries ask for; every row names an occurrence of the table.
  method Downgrade(occurrences: seq<Occurrence>, events: seq<Event>, matches: seq<Match>)
    returns (restored: seq<OldEvent>, rematched: seq<OldMatch>, jobs: map<nat, nat>)
    requires forall i, j :: 0 <= i < j < |occurrences| ==> occurrences[i].id != occurrences[j].id
    requires forall i :: 0 <= i < |events| ==> exists k :: 0 <= k < |occurrences| && occurrences[k].id == events[i].occurrence
    requires forall i :: 0 <= i < |matches| ==> exists k :: 0 <= k < |occurrences| && occurrences[k].id == matches[i].occurrence
    ensures JobsOf(occurrences, jobs) && restored == EventsDown(events, jobs) && rematched == MatchesDown(matches, jobs)
  {
    jobs := OccurrenceJobs(occurrences);
    restored := RestoreEvents(events, jobs);
    rematched := RestoreMatches(matches, jobs);
  }

  ghost predicate JobsOf(occurrences: seq<Occurrence>, jobs: map<nat, nat>) {
    forall k :: 0 <= k < |occurrences| ==> occurrences[k].id in jobs && jobs[occurrences[k].id] == occurrences[k].job
  }

  // ----- Keeping the first keeps the earliest -----

  ghost predicate Earliest<R(!new), K(!new)>(rows: seq<R>, key: R -> K, before: (R, R) -> bool, r: R) {
    r in rows && forall other :: other in rows && key(other) == key(r) ==> other == r || before(r, other)
  }

  lemma {:induction false} FirstIsEarliest<R(!new), K(!new)>(rows: seq<R>, key: R -> K, before: (R, R) -> bool, seen: set<K>, r: R)
    requires Strict(before) && forall i, j :: 0 <= i < j < |rows| ==> before(rows[i], rows[j])
    ensures r in KeepFirst(rows, key, seen) <==> key(r) !in seen && Earliest(rows, key, before, r)
  {
    if rows != [] {
      var first, rest := rows[0], rows[1..];
      assert rows == [first] + rest;
      assert forall other :: other in rest ==> before(first, other);
      if key(first) in seen {
        FirstIsEarliest(rest, key, before, seen, r);
        assert key(r) !in seen ==> (Earliest(rows, key, before, r) <==> Earliest(rest, key, before, r));
      } else {
        FirstIsEarliest(rest, key, before, seen + {key(first)}, r);
        if key(r) == key(first) {
          assert Earliest(rows, key, before, r) <==> r == first;
        } else {
          assert Earliest(rows, key, before, r) <==> Earliest(rest, key, before, r);
        }
      }
    }
  }

  ghost predicate Distinct<R(!new), K(!new)>(rows: seq<R>, key: R -> K, seen: set<K>) {
    && (forall i :: 0 <= i < |rows| ==> key(rows[i]) !in seen)
    && (forall i, j :: 0 <= i < j < |rows| ==> key(rows[i]) != key(rows[j]))
  }

  lemma {:induction false} KeptKeysDiffer<R(!new), K(!new)>(rows: seq<R>, key: R -> K, seen: set<K>)
    ensures Distinct(KeepFirst(rows, key, seen), key, seen)
  {
    if rows != [] && key(rows[0]) in seen {
      KeptKeysDiffer(rows[1..], key, seen);
    } else if rows != [] {
      var more := seen + {key(rows[0])};
      var rest := KeepFirst(rows[1..], key, more);
      KeptKeysDiffer(rows[1..], key, more);
      var kept := [rows[0]] + rest;
      forall i, j | 0 <= i < j < |kept| ensures key(kept[i]) != key(kept[j]) && key(kept[j]) !in seen {
        assert kept[j] == rest[j - 1] && key(rest[j - 1]) !in more;
        assert i > 0 ==> kept[i] == rest[i - 1];
      }
    }
  }

  // The events the downgrade should keep, and the matches.
  ghost predicate EarliestEvent(table: set<Event>, jobs: map<nat, nat>, r: Event) {
    r in table && forall other :: other in table && JobOf(jobs, other.occurrence) == JobOf(jobs, r.occurrence) ==>
      other == r || EventBefore(r, other)
  }

  ghost predicate EarliestMatch(table: set<Match>, jobs: map<nat, nat>, r: Match) {
    r in table && forall other :: other in table && other.subscriber == r.subscriber && JobOf(jobs, other.occurrence) == JobOf(jobs, r.occurrence) ==>
      other == r || MatchBefore(r, other)
  }

  lemma KeptEvents(table: set<Event>, rows: seq<Event>, jobs: map<nat, nat>, r: Event)
    requires Ordering(table, rows, EventBefore)
    ensures r in KeepFirst(rows, (e: Event) => JobOf(jobs, e.occurrence), {}) <==> EarliestEvent(table, jobs, r)
  {
    FirstIsEarliest(rows, (e: Event) => JobOf(jobs, e.occurrence), EventBefore, {}, r);
  }

  lemma KeptMatches(table: set<Match>, rows: seq<Match>, jobs: map<nat, nat>, r: Match)
    requires Ordering(table, rows, MatchBefore)
    ensures r in KeepFirst(rows, (m: Match) => (m.subscriber, JobOf(jobs, m.occurrence)), {}) <==> EarliestMatch(table, jobs, r)
  {
    FirstIsEarliest(rows, (m: Match) => (m.subscriber, JobOf(jobs, m.occurrence)), MatchBefore, {}, r);
  }

  // Of any events, the downgrade keeps exactly one a job: the earliest by discovery and then occurrence.
  lemma EventsKeepEarliest(table: set<Event>, rows: seq<Event>, jobs: map<nat, nat>, e: OldEvent)
    requires Ordering(table, rows, EventBefore)
    ensures e in EventsDown(rows, jobs) <==> exists r :: EarliestEvent(table, jobs, r) && EventDown(r, jobs) == e
  {
    var kept := KeepFirst(rows, (r: Event) => JobOf(jobs, r.occurrence), {});
    if e in EventsDown(rows, jobs) {
      var i :| 0 <= i < |kept| && EventDown(kept[i], jobs) == e;
      KeptEvents(table, rows, jobs, kept[i]);
    }
    if r :| EarliestEvent(table, jobs, r) && EventDown(r, jobs) == e {
      KeptEvents(table, rows, jobs, r);
      var i :| 0 <= i < |kept| && kept[i] == r;
      assert EventsDown(rows, jobs)[i] == e;
    }
  }

  // Of any matches, exactly one a subscriber and job: the earliest by discovery and then id.
  lemma MatchesKeepEarliest(table: set<Match>, rows: seq<Match>, jobs: map<nat, nat>, m: OldMatch)
    requires Ordering(table, rows, MatchBefore)
    ensures m in MatchesDown(rows, jobs) <==> exists r :: EarliestMatch(table, jobs, r) && MatchDown(r, jobs) == m
  {
    var kept := KeepFirst(rows, (r: Match) => (r.subscriber, JobOf(jobs, r.occurrence)), {});
    if m in MatchesDown(rows, jobs) {
      var i :| 0 <= i < |kept| && MatchDown(kept[i], jobs) == m;
      KeptMatches(table, rows, jobs, kept[i]);
    }
    if r :| EarliestMatch(table, jobs, r) && MatchDown(r, jobs) == m {
      KeptMatches(table, rows, jobs, r);
      var i :| 0 <= i < |kept| && kept[i] == r;
      assert MatchesDown(rows, jobs)[i] == m;
    }
  }

  // The restored rows meet the old keys: one event a job, one match a subscriber and job.
  lemma RestoredKeysDiffer(events: seq<Event>, matches: seq<Match>, jobs: map<nat, nat>)
    requires (forall i :: 0 <= i < |events| ==> events[i].occurrence in jobs) && forall i :: 0 <= i < |matches| ==> matches[i].occurrence in jobs
    ensures var down := EventsDown(events, jobs); forall i, j :: 0 <= i < j < |down| ==> down[i].job != down[j].job
    ensures var down := MatchesDown(matches, jobs);
      forall i, j :: 0 <= i < j < |down| ==> (down[i].subscriber, down[i].job) != (down[j].subscriber, down[j].job)
  {
    var eventKey := (r: Event) => JobOf(jobs, r.occurrence);
    var matchKey := (r: Match) => (r.subscriber, JobOf(jobs, r.occurrence));
    KeptKeysDiffer(events, eventKey, {});
    KeptKeysDiffer(matches, matchKey, {});
    KeptFrom(events, eventKey, {});
    KeptFrom(matches, matchKey, {});
    var e, m := KeepFirst(events, eventKey, {}), KeepFirst(matches, matchKey, {});
    forall i, j | 0 <= i < j < |e| ensures EventDown(e[i], jobs).job != EventDown(e[j], jobs).job {
      assert e[i] in events && e[j] in events && eventKey(e[i]) != eventKey(e[j]);
    }
    forall i, j | 0 <= i < j < |m|
      ensures (MatchDown(m[i], jobs).subscriber, MatchDown(m[i], jobs).job) != (MatchDown(m[j], jobs).subscriber, MatchDown(m[j], jobs).job)
    {
      assert m[i] in matches && m[j] in matches && matchKey(m[i]) != matchKey(m[j]);
    }
  }

  // No job with an event, and no pair with a match, goes without.
  lemma NobodyIsLost(events: seq<Event>, matches: seq<Match>, jobs: map<nat, nat>)
    requires (forall i :: 0 <= i < |events| ==> events[i].occurrence in jobs) && forall i :: 0 <= i < |matches| ==> matches[i].occurrence in jobs
    ensures forall r :: r in events ==> exists e :: e in EventsDown(events, jobs) && e.job == jobs[r.occurrence]
    ensures forall r :: r in matches ==> exists m :: m in MatchesDown(matches, jobs) && m.subscriber == r.subscriber && m.job == jobs[r.occurrence]
  {
    var eventKey := (r: Event) => JobOf(jobs, r.occurrence);
    var matchKey := (r: Match) => (r.subscriber, JobOf(jobs, r.occurrence));
    forall r | r in events ensures exists e :: e in EventsDown(events, jobs) && e.job == jobs[r.occurrence] {
      var k := SomebodyKept(events, eventKey, {}, r);
      KeptFrom(events, eventKey, {});
      assert EventDown(k, jobs) in EventsDown(events, jobs) by {
        var i :| 0 <= i < |KeepFirst(events, eventKey, {})| && KeepFirst(events, eventKey, {})[i] == k;
        assert EventsDown(events, jobs)[i] == EventDown(k, jobs);
      }
    }
    forall r | r in matches ensures exists m :: m in MatchesDown(matches, jobs) && m.subscriber == r.subscriber && m.job == jobs[r.occurrence] {
      var k := SomebodyKept(matches, matchKey, {}, r);
      KeptFrom(matches, matchKey, {});
      assert MatchDown(k, jobs) in MatchesDown(matches, jobs) by {
        var i :| 0 <= i < |KeepFirst(matches, matchKey, {})| && KeepFirst(matches, matchKey, {})[i] == k;
        assert MatchesDown(matches, jobs)[i] == MatchDown(k, jobs);
      }
    }
  }

  lemma {:induction false} SomebodyKept<R(!new), K(!new)>(rows: seq<R>, key: R -> K, seen: set<K>, r: R) returns (kept: R)
    requires r in rows && key(r) !in seen
    ensures kept in KeepFirst(rows, key, seen) && key(kept) == key(r)
  {
    if key(rows[0]) in seen {
      kept := SomebodyKept(rows[1..], key, seen, r);
    } else if key(rows[0]) == key(r) {
      kept := rows[0];
    } else {
      kept := SomebodyKept(rows[1..], key, seen + {key(rows[0])}, r);
    }
  }

  lemma {:induction false} KeptFrom<R, K>(rows: seq<R>, key: R -> K, seen: set<K>)
    ensures forall r :: r in KeepFirst(rows, key, seen) ==> r in rows
  {
    if rows != [] {
      KeptFrom(rows[1..], key, seen);
      KeptFrom(rows[1..], key, seen + {key(rows[0])});
    }
  }

  // ----- Round trip -----

  // A downgrade that reads the upgrade's own occurrences finds every job again.
  lemma JobsFoundAgain(jobs: seq<Job>, occurrences: seq<Occurrence>, byJob: map<nat, nat>, jobsOf: map<nat, nat>, id: nat)
    requires Backfilled(jobs, occurrences, byJob) && JobsOf(occurrences, jobsOf) && id in byJob
    ensures JobOf(jobsOf, byJob[id]) == Some(id)
  {
    assert id in JobIds(jobs);
    var i :| 0 <= i < |jobs| && jobs[i].id == id;
    assert occurrences[i] == FirstOccurrence(jobs[i], i + 1);
  }

  // What the upgrade makes of distinct events: rows of distinct jobs, each leading back to its event.
  lemma EventComesBack(jobs: seq<Job>, occurrences: seq<Occurrence>, byJob: map<nat, nat>, jobsOf: map<nat, nat>, e: OldEvent, f: OldEvent)
    requires Backfilled(jobs, occurrences, byJob) && JobsOf(occurrences, jobsOf) && e.job in byJob && f.job in byJob
    ensures EventDown(EventUp(e, byJob), jobsOf) == e
    ensures JobOf(jobsOf, EventUp(e, byJob).occurrence) == JobOf(jobsOf, EventUp(f, byJob).occurrence) ==> e.job == f.job
  {
    JobsFoundAgain(jobs, occurrences, byJob, jobsOf, e.job);
    JobsFoundAgain(jobs, occurrences, byJob, jobsOf, f.job);
  }

  // Upgrade and downgrade give back exactly the event rows there were.
  lemma EventsRoundTrip(jobs: seq<Job>, occurrences: seq<Occurrence>, byJob: map<nat, nat>, jobsOf: map<nat, nat>,
                        before: seq<OldEvent>, table: set<Event>, rows: seq<Event>, e: OldEvent)
    requires Backfilled(jobs, occurrences, byJob) && JobsOf(occurrences, jobsOf)
    requires forall i :: 0 <= i < |before| ==> before[i].job in byJob
    requires forall i, j :: 0 <= i < j < |before| ==> before[i].job != before[j].job
    requires forall r :: r in table <==> exists i :: 0 <= i < |before| && r == EventUp(before[i], byJob)
    requires Ordering(table, rows, EventBefore)
    ensures e in EventsDown(rows, jobsOf) <==> e in before
  {
    EventsKeepEarliest(table, rows, jobsOf, e);
    forall i | 0 <= i < |before|
      ensures EarliestEvent(table, jobsOf, EventUp(before[i], byJob)) && EventDown(EventUp(before[i], byJob), jobsOf) == before[i]
    {
      var r := EventUp(before[i], byJob);
      EventComesBack(jobs, occurrences, byJob, jobsOf, before[i], before[i]);
      forall other | other in table && JobOf(jobsOf, other.occurrence) == JobOf(jobsOf, r.occurrence) ensures other == r {
        var k :| 0 <= k < |before| && other == EventUp(before[k], byJob);
        EventComesBack(jobs, occurrences, byJob, jobsOf, before[i], before[k]);
      }
    }
  }

  // And exactly the match rows, ids included.
  lemma MatchesRoundTrip(jobs: seq<Job>, occurrences: seq<Occurrence>, byJob: map<nat, nat>, jobsOf: map<nat, nat>,
                         before: seq<OldMatch>, table: set<Match>, rows: seq<Match>, m: OldMatch)
    requires Backfilled(jobs, occurrences, byJob) && JobsOf(occurrences, jobsOf)
    requires forall i :: 0 <= i < |before| ==> before[i].job in byJob
    requires forall i, j :: 0 <= i < j < |before| ==> (before[i].subscriber, before[i].job) != (before[j].subscriber, before[j].job)
    requires forall r :: r in table <==> exists i :: 0 <= i < |before| && r == MatchUp(before[i], byJob)
    requires Ordering(table, rows, MatchBefore)
    ensures m in MatchesDown(rows, jobsOf) <==> m in before
  {
    MatchesKeepEarliest(table, rows, jobsOf, m);
    forall i | 0 <= i < |before|
      ensures EarliestMatch(table, jobsOf, MatchUp(before[i], byJob)) && MatchDown(MatchUp(before[i], byJob), jobsOf) == before[i]
    {
      var r := MatchUp(before[i], byJob);
      JobsFoundAgain(jobs, occurrences, byJob, jobsOf, before[i].job);
      forall other | other in table && other.subscriber == r.subscriber && JobOf(jobsOf, other.occurrence) == JobOf(jobsOf, r.occurrence) ensures other == r {
        var k :| 0 <= k < |before| && other == MatchUp(before[k], byJob);
        JobsFoundAgain(jobs, occurrences, byJob, jobsOf, before[k].job);
        assert k == i;
      }
    }
  }
}
