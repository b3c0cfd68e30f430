/** What closing a window writes, told from the matches and the clock alone. */
module RecapRecords {
  import opened Prelude
  import opened Tables
  import opened Cutoff
  import opened Recaps
  import opened RecapRuns

  // ----- The window -----

  // Eight in the evening, local time.
  predicate Evening(instant: int, offset: int) {
    (instant + offset) % (24 * HOUR) == 20 * HOUR
  }

  lemma EveningIs(instant: int, offset: int)
    ensures Evening(instant, offset) <==> IsCutoff(instant, offset)
  {
  }

  // The window closes at the cutoff that was due, or at the last evening since that is not in the future;
  // the next one closes the evening after. Nothing else about the subscription moves.
  lemma WindowExactly(d: Directory, b: Box, now: int)
    requires Ready(b, now)
    ensures var b' := MakeRecap(d, b, now);
      && b'.windowStart.Some? && b'.nextRecap.Some?
      && b'.recapOn && b'.offset == b.offset && b'.matches == b.matches
      && var (end, next) := (b'.windowStart.value, b'.nextRecap.value);
      && b.nextRecap.value <= end <= now < next
      && (end == b.nextRecap.value || Evening(end, b.offset)) && Evening(next, b.offset)
      && forall c :: Evening(c, b.offset) && end < c ==> next <= c
  {
    var end := WindowEnd(b, now);
    CaughtUpIsLatest(b.nextRecap.value, b.offset, now);
    NextCutoffIsNext(end, b.offset);
    forall c ensures Evening(c, b.offset) <==> IsCutoff(c, b.offset) { EveningIs(c, b.offset); }
  }

  // ----- What it covers -----

  ghost predicate Covers(b: Box, end: int, x: nat) {
    b.windowStart.Some? && exists m :: m in b.matches && m.occurrence == x && b.windowStart.value <= m.discoveredAt < end
  }

  // The matches discovered since the last window's end and before this one's, by discovery time and then id.
  ghost predicate Lists(rows: seq<Match>, ms: seq<Match>, start: int, end: int) {
    InOrder(rows) && forall m :: m in rows <==> m in ms && start <= m.discoveredAt < end
  }

  lemma {:induction false} SelectedLists(ms: seq<Match>, start: int, end: int)
    requires InOrder(ms)
    ensures Lists(Selected(ms, start, end), ms, start, end)
  {
    SelectedMeans(ms, start, end);
    if ms != [] {
      var init, m := ms[..|ms| - 1], ms[|ms| - 1];
      SelectedLists(init, start, end);
      SelectedMeans(init, start, end);
      forall x | x in Selected(init, start, end) ensures Before(x, m) {
        assert x in init;
        var i :| 0 <= i < |ms| - 1 && ms[i] == x;
      }
    }
  }

  lemma CoveredIs(b: Box, end: int, x: nat)
    requires b.windowStart.Some?
    ensures x in Occurrences(Selected(b.matches, b.windowStart.value, end)) <==> Covers(b, end, x)
  {
    var rows := Selected(b.matches, b.windowStart.value, end);
    SelectedMeans(b.matches, b.windowStart.value, end);
    if m :| m in b.matches && m.occurrence == x && b.windowStart.value <= m.discoveredAt < end {
      var i :| 0 <= i < |rows| && rows[i] == m;
      assert Occurrences(rows)[i] == x;
    }
    if i :| 0 <= i < |rows| && Occurrences(rows)[i] == x { assert rows[i] in rows; }
  }

  // ----- The alerts -----

  // A pending, never attempted alert is folded exactly when it lists an occurrence the window covers;
  // every other alert is left as it is.
  lemma AlertsExactly(d: Directory, b: Box, now: int)
    requires Ready(b, now)
    ensures var b' := MakeRecap(d, b, now);
      && b'.windowStart.Some? && |b'.alerts| == |b.alerts|
      && forall i :: 0 <= i < |b.alerts| ==>
           b'.alerts[i] ==
             if b.alerts[i].status == Pending && !b.alerts[i].attempted
                && exists x :: x in b.alerts[i].occurrences && Covers(b, b'.windowStart.value, x)
             then Alert(b.alerts[i].occurrences, RecapOnly, false)
             else b.alerts[i]
  {
    var end := WindowEnd(b, now);
    var rows := Selected(b.matches, b.windowStart.value, end);
    forall x ensures x in Occurrences(rows) <==> Covers(b, end, x) { CoveredIs(b, end, x); }
    if rows == [] { assert Occurrences(rows) == []; }
  }

  // ----- The recaps -----

  predicate Waiting(r: Recap) {
    r.status == Pending && !r.attempted
  }

  function RepostsAmong(rows: seq<Match>): set<nat> {
    set m | m in rows && m.reposted :: m.occurrence
  }

  lemma {:induction false} RepostedIs(rows: seq<Match>)
    requires Distinct(rows)
    ensures RepostedRows(rows) == |RepostsAmong(rows)|
  {
    if rows != [] {
      var init, m := rows[..|rows| - 1], rows[|rows| - 1];
      RepostedIs(init);
      assert rows == init + [m];
      forall x | x in init ensures x.occurrence != m.occurrence {
        var i :| 0 <= i < |rows| - 1 && rows[i] == x;
      }
      OneMoreRepost(init, m);
    }
  }

  lemma OneMoreRepost(init: seq<Match>, m: Match)
    requires forall x :: x in init ==> x.occurrence != m.occurrence
    ensures |RepostsAmong(init + [m])| == |RepostsAmong(init)| + (if m.reposted then 1 else 0)
  {
    assert RepostsAmong(init + [m]) == RepostsAmong(init) + (if m.reposted then {m.occurrence} else {});
  }

  // A recap that lists some matches under the window they were found in.
  ghost predicate NewlyFiled(r: Recap, rows: seq<Match>, start: int, end: int, now: int) {
    && |r.occurrences| == |r.jobs| == r.total == |rows|
    && (forall i :: 0 <= i < |rows| ==> r.occurrences[i] == rows[i].occurrence && r.jobs[i] == rows[i].job)
    && r.repostedCount == |RepostsAmong(rows)| && r.newCount == |rows| - r.repostedCount
    && r.windowStart == start && r.windowEnd == end && r.key == end && r.dueAt == now
    && r.status == Pending && !r.attempted && r.payload == None
  }

  // An unsent recap takes some more matches in behind its own, is due now and has no payload any more.
  ghost predicate MergedInto(r: Recap, r': Recap, rows: seq<Match>, end: int, now: int) {
    && |r'.occurrences| == |r'.jobs| == r'.total == r.total + |rows|
    && r.occurrences <= r'.occurrences && r.jobs <= r'.jobs && |r.occurrences| == |r.jobs| == r.total
    && (forall i :: 0 <= i < |rows| ==>
          r'.occurrences[r.total + i] == rows[i].occurrence && r'.jobs[r.total + i] == rows[i].job)
    && r'.repostedCount == r.repostedCount + |RepostsAmong(rows)| && r'.newCount == r'.total - r'.repostedCount
    && r'.windowStart == r.windowStart && r'.windowEnd == end && r'.key == r.key && r'.dueAt == now
    && r'.status == Pending && !r'.attempted && r'.payload == None
  }

  // What the covered matches do to the recaps: nothing if there are none; they join the oldest recap
  // still waiting; or they get one of their own.
  ghost predicate Filed(rs: seq<Recap>, rs': seq<Recap>, rows: seq<Match>, start: int, end: int, now: int) {
    if rows == [] then rs' == rs
    else if exists k :: 0 <= k < |rs| && Waiting(rs[k]) then
      exists k :: 0 <= k < |rs| && Waiting(rs[k]) && (forall j :: 0 <= j < k ==> !Waiting(rs[j]))
        && |rs'| == |rs| && rs' == rs[k := rs'[k]] && MergedInto(rs[k], rs'[k], rows, end, now)
    else |rs'| == |rs| + 1 && rs == rs'[..|rs|] && NewlyFiled(rs'[|rs|], rows, start, end, now)
  }

  // In every reachable state the window's matches, in order, are filed in one recap and no other recap moves.
  lemma RecapsExactly(d: Directory, w: World, now: int) returns (rows: seq<Match>)
    requires Reachable(d, w) && Ready(w.box, now)
    requires w.clock <= now
    ensures var b' := MakeRecap(d, w.box, now);
      && b'.windowStart.Some?
      && Lists(rows, w.box.matches, w.box.windowStart.value, b'.windowStart.value)
      && Filed(w.box.recaps, b'.recaps, rows, w.box.windowStart.value, b'.windowStart.value, now)
  {
    var b, start, end := w.box, w.box.windowStart.value, WindowEnd(w.box, now);
    rows := Selected(b.matches, start, end);
    ReachableOk(d, w);
    CaughtUpIsLatest(b.nextRecap.value, b.offset, now);
    SelectedLists(b.matches, start, end);
    ListedAreDistinct(rows, b.matches, start, end);
    FiledExactly(d, w, start, end, now);
  }

  lemma FiledExactly(d: Directory, w: World, start: int, end: int, now: int)
    requires ContentOk(d, w) && start < end && (w.windows != [] ==> w.windows[|w.windows| - 1].end <= start)
    requires Distinct(Selected(w.box.matches, start, end))
    ensures var rows := Selected(w.box.matches, start, end);
      Filed(w.box.recaps, RecapsAfter(d, w.box.recaps, rows, start, end, now), rows, start, end, now)
  {
    if Selected(w.box.matches, start, end) != [] {
      if FirstUnsent(w.box.recaps).Some? {
        FiledInOldest(d, w, FirstUnsent(w.box.recaps).value, start, end, now);
      } else {
        FiledAlone(d, w.box.recaps, Selected(w.box.matches, start, end), start, end, now);
      }
    }
  }

  lemma FiledInOldest(d: Directory, w: World, k: nat, start: int, end: int, now: int)
    requires ContentOk(d, w) && start < end && (w.windows != [] ==> w.windows[|w.windows| - 1].end <= start)
    requires Distinct(Selected(w.box.matches, start, end)) && Selected(w.box.matches, start, end) != []
    requires FirstUnsent(w.box.recaps) == Some(k)
    ensures var rows := Selected(w.box.matches, start, end);
      Filed(w.box.recaps, RecapsAfter(d, w.box.recaps, rows, start, end, now), rows, start, end, now)
  {
    var rs, rows := w.box.recaps, Selected(w.box.matches, start, end);
    WindowsIfRecaps(d, w, k);
    MergedExactly(d, w, k, start, end, now);
    FiledByMerge(rs, k, MergedRecap(d, rs[k], rows, end, now), rows, start, end, now);
  }

  lemma WindowsIfRecaps(d: Directory, w: World, k: nat)
    requires ContentOk(d, w) && k < |w.box.recaps|
    ensures w.windows != []
  {
    assert w.box.recaps[k] in w.box.recaps;
  }

  lemma FiledAlone(d: Directory, rs: seq<Recap>, rows: seq<Match>, start: int, end: int, now: int)
    requires rows != [] && Distinct(rows) && FirstUnsent(rs).None?
    ensures Filed(rs, RecapsAfter(d, rs, rows, start, end, now), rows, start, end, now)
  {
    NoneWaiting(rs);
    RepostedIs(rows);
    FiledByAppend(rs, NewRecap(rows, start, end, now), rows, start, end, now);
  }

  lemma NoneWaiting(rs: seq<Recap>)
    requires FirstUnsent(rs).None?
    ensures forall j :: 0 <= j < |rs| ==> !Waiting(rs[j])
  {
    forall j | 0 <= j < |rs| ensures !Waiting(rs[j]) { assert rs[j] in rs; }
  }

  lemma FiledByMerge(rs: seq<Recap>, k: nat, r: Recap, rows: seq<Match>, start: int, end: int, now: int)
    requires rows != [] && k < |rs| && Waiting(rs[k]) && (forall j :: 0 <= j < k ==> !Waiting(rs[j])) && MergedInto(rs[k], r, rows, end, now)
    ensures Filed(rs, rs[k := r], rows, start, end, now)
  {
    assert rs[k := r][k] == r;
  }

  lemma FiledByAppend(rs: seq<Recap>, r: Recap, rows: seq<Match>, start: int, end: int, now: int)
    requires rows != [] && (forall j :: 0 <= j < |rs| ==> !Waiting(rs[j])) && NewlyFiled(r, rows, start, end, now)
    ensures Filed(rs, rs + [r], rows, start, end, now)
  {
  }

  lemma ListedAreDistinct(rows: seq<Match>, ms: seq<Match>, start: int, end: int)
    requires Lists(rows, ms, start, end) && Distinct(ms)
    ensures Distinct(rows)
  {
    forall i, j | 0 <= i < j < |rows| ensures rows[i].occurrence != rows[j].occurrence {
      assert rows[i] in ms && rows[j] in ms && Before(rows[i], rows[j]);
      if rows[i].occurrence == rows[j].occurrence { SameMatch(ms, rows[i], rows[j]); }
    }
  }

  lemma {:induction false} RepostedSplits(d: Directory, a: seq<nat>, b: seq<nat>)
    ensures RepostedAmong(d, a + b) == RepostedAmong(d, a) + RepostedAmong(d, b)
  {
    if b == [] {
      assert a + b == a;
    } else {
      RepostedSplits(d, a, b[..|b| - 1]);
      assert (a + b)[..|a + b| - 1] == a + b[..|b| - 1];
    }
  }

  // Counted by the directory, a longer list has the jobs and reposts of both its parts.
  lemma CountedLonger(d: Directory, r: Recap, r': Recap, rows: seq<Match>)
    requires CountsOk(d, r) && CountsOk(d, r') && r'.occurrences == r.occurrences + Occurrences(rows) && Distinct(rows)
    requires forall m :: m in rows ==> m.job == d.jobOf(m.occurrence) && m.reposted == d.reposted(m.occurrence)
    ensures r'.total == r.total + |rows| && r.jobs <= r'.jobs
    ensures forall i :: 0 <= i < |rows| ==> r'.occurrences[r.total + i] == rows[i].occurrence && r'.jobs[r.total + i] == rows[i].job
    ensures r'.repostedCount == r.repostedCount + |RepostsAmong(rows)|
  {
    RepostedIs(rows);
    RepostedAgree(d, rows);
    RepostedSplits(d, r.occurrences, Occurrences(rows));
    CountedJobs(d, r, r', rows);
  }

  lemma CountedJobs(d: Directory, r: Recap, r': Recap, rows: seq<Match>)
    requires CountsOk(d, r) && CountsOk(d, r') && r'.occurrences == r.occurrences + Occurrences(rows)
    requires forall m :: m in rows ==> m.job == d.jobOf(m.occurrence)
    ensures r'.total == r.total + |rows| && r.jobs <= r'.jobs
    ensures forall i :: 0 <= i < |rows| ==> r'.occurrences[r.total + i] == rows[i].occurrence && r'.jobs[r.total + i] == rows[i].job
  {
    forall i | 0 <= i < |rows| ensures r'.occurrences[r.total + i] == rows[i].occurrence && r'.jobs[r.total + i] == rows[i].job {
      assert rows[i] in rows && Occurrences(rows)[i] == rows[i].occurrence;
    }
    forall i | 0 <= i < |r.jobs| ensures r'.jobs[i] == r.jobs[i] {
      assert r'.occurrences[i] == r.occurrences[i];
    }
  }

  lemma MergedExactly(d: Directory, w: World, k: nat, start: int, end: int, now: int)
    requires ContentOk(d, w) && start < end && w.windows != [] && w.windows[|w.windows| - 1].end <= start
    requires k < |w.box.recaps| && Waiting(w.box.recaps[k]) && Distinct(Selected(w.box.matches, start, end))
    ensures var rows := Selected(w.box.matches, start, end);
      MergedInto(w.box.recaps[k], MergedRecap(d, w.box.recaps[k], rows, end, now), rows, end, now)
  {
    var rows, r := Selected(w.box.matches, start, end), w.box.recaps[k];
    RowsAgree(d, w, start, end);
    HeldRecapCounts(d, w, k);
    MergedHere(d, w, k, start, end, now);
    CountedLonger(d, r, MergedRecap(d, r, rows, end, now), rows);
    MergedFields(d, r, rows, end, now);
    MergedOnce(d, r, MergedRecap(d, r, rows, end, now), rows, end, now);
  }

  lemma RowsAgree(d: Directory, w: World, start: int, end: int)
    requires ContentOk(d, w)
    ensures forall m :: m in Selected(w.box.matches, start, end) ==> m.job == d.jobOf(m.occurrence) && m.reposted == d.reposted(m.occurrence)
  {
    SelectedMeans(w.box.matches, start, end);
  }

  lemma HeldRecapCounts(d: Directory, w: World, k: nat)
    requires ContentOk(d, w) && k < |w.box.recaps|
    ensures CountsOk(d, w.box.recaps[k])
  {
    assert w.box.recaps[k] in w.box.recaps;
  }

  lemma MergedOnce(d: Directory, r: Recap, r': Recap, rows: seq<Match>, end: int, now: int)
    requires CountsOk(d, r) && CountsOk(d, r') && r'.occurrences == r.occurrences + Occurrences(rows)
    requires r'.total == r.total + |rows| && r.jobs <= r'.jobs && r'.repostedCount == r.repostedCount + |RepostsAmong(rows)|
    requires forall i :: 0 <= i < |rows| ==> r'.occurrences[r.total + i] == rows[i].occurrence && r'.jobs[r.total + i] == rows[i].job
    requires r'.windowStart == r.windowStart && r'.windowEnd == end && r'.key == r.key && r'.dueAt == now
    requires r'.status == Pending && !r'.attempted && r'.payload == None
    ensures MergedInto(r, r', rows, end, now)
  {
  }

  lemma MergedFields(d: Directory, r: Recap, rows: seq<Match>, end: int, now: int)
    requires Waiting(r)
    ensures var r' := MergedRecap(d, r, rows, end, now);
      && r'.windowStart == r.windowStart && r'.windowEnd == end && r'.key == r.key && r'.dueAt == now
      && r'.status == Pending && !r'.attempted && r'.payload == None
  {
  }
}
