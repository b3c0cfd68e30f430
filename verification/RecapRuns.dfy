/** Every run of one subscriber's recaps: windows close, preferences change, deliveries move on. */
module RecapRuns {
  import opened Prelude
  import opened Tables
  import opened Cutoff
  import opened Recaps

  // A closed window; windows closed without switching recaps off in between share an epoch.
  datatype Window = Window(start: int, end: int, epoch: nat)

  // The subscriber with the history the theorems speak of: the windows closed so far and the
  // occurrences whose match was present when its window closed.
  datatype World = World(box: Box, clock: int, epoch: nat, windows: seq<Window>, captured: set<nat>)

  datatype Step =
    | AddMatch(m: Match, position: nat)
    | CloseWindow
    | Enable(offset: int)
    | Rezone(offset: int)
    | Disable(forget: bool)
    | CancelPending
    | Attempt(k: nat, payload: int)
    | Settle(k: nat, status: Status)
    | AddAlert(alert: Alert)

  predicate Before(a: Match, b: Match) {
    a.discoveredAt < b.discoveredAt || (a.discoveredAt == b.discoveredAt && a.id < b.id)
  }

  predicate InOrder(ms: seq<Match>) {
    forall i, j :: 0 <= i < j < |ms| ==> Before(ms[i], ms[j])
  }

  predicate NewMatch(d: Directory, ms: seq<Match>, m: Match) {
    m.job == d.jobOf(m.occurrence) && m.reposted == d.reposted(m.occurrence)
    && forall x :: x in ms ==> x.occurrence != m.occurrence
  }

  function Cancelled1(r: Recap): Recap {
    if r.status == Pending then r.(status := Cancelled) else r
  }

  function CancelAll(rs: seq<Recap>): seq<Recap> {
    seq(|rs|, i requires 0 <= i < |rs| => Cancelled1(rs[i]))
  }

  // A step the program can take at `now`.
  ghost predicate Enabled(d: Directory, w: World, s: Step, now: int) {
    w.clock <= now &&
    match s
    case AddMatch(m, position) =>
      position <= |w.box.matches| && NewMatch(d, w.box.matches, m)
      && InOrder(w.box.matches[..position] + [m] + w.box.matches[position..])
    case CloseWindow => Ready(w.box, now)
    case Enable(_) => !w.box.recapOn
    case Rezone(_) => w.box.recapOn
    case Disable(_) => true
    case CancelPending => true
    case Attempt(k, _) => k < |w.box.recaps| && (w.box.recaps[k].attempted || w.box.recaps[k].status == Pending)
    case Settle(k, _) => k < |w.box.recaps| && w.box.recaps[k].attempted
    case AddAlert(_) => true
  }

  ghost function Next(d: Directory, w: World, s: Step, now: int): World
    requires Enabled(d, w, s, now)
  {
    var b := w.box;
    match s
    case AddMatch(m, position) => w.(clock := now, box := b.(matches := b.matches[..position] + [m] + b.matches[position..]))
    case CloseWindow =>
      var start, end := b.windowStart.value, WindowEnd(b, now);
      w.(clock := now, box := MakeRecap(d, b, now), windows := w.windows + [Window(start, end, w.epoch)],
         captured := w.captured + (set m | m in b.matches && start <= m.discoveredAt < end :: m.occurrence))
    case Enable(offset) =>
      w.(clock := now, epoch := w.epoch + 1,
         box := b.(recapOn := true, offset := offset, windowStart := Some(now), nextRecap := Some(NextCutoff(now, offset))))
    case Rezone(offset) => w.(clock := now, box := b.(offset := offset, nextRecap := Some(NextCutoff(now, offset))))
    case Disable(forget) =>
      w.(clock := now, box := b.(recapOn := false, nextRecap := None, recaps := CancelAll(b.recaps),
                                 windowStart := if forget then None else b.windowStart))
    case CancelPending => w.(clock := now, box := b.(recaps := CancelAll(b.recaps)))
    case Attempt(k, payload) =>
      w.(clock := now, box := b.(recaps := b.recaps[k := b.recaps[k].(attempted := true, status := Elsewhere,
           payload := if b.recaps[k].payload.Some? then b.recaps[k].payload else Some(payload))]))
    case Settle(k, status) => w.(clock := now, box := b.(recaps := b.recaps[k := b.recaps[k].(status := status)]))
    case AddAlert(alert) => w.(clock := now, box := b.(alerts := b.alerts + [alert]))
  }

  // Windows never overlap, and within one epoch each begins where the last one ended.
  predicate WindowsOk(ws: seq<Window>) {
    && (forall i :: 0 <= i < |ws| ==> ws[i].start < ws[i].end)
    && (forall i, j :: 0 <= i < j < |ws| ==> ws[i].end <= ws[j].start && ws[i].epoch <= ws[j].epoch)
    && (forall i :: 0 < i < |ws| && ws[i - 1].epoch == ws[i].epoch ==> ws[i - 1].end == ws[i].start)
  }

  predicate RecapTimesOk(w: World) {
    w.box.windowStart.Some? && w.box.nextRecap.Some?
    && w.box.windowStart.value <= w.clock && w.box.windowStart.value < w.box.nextRecap.value
    && (w.windows != [] ==>
          w.windows[|w.windows| - 1].end <= w.box.windowStart.value
          && (w.windows[|w.windows| - 1].epoch == w.epoch ==> w.windows[|w.windows| - 1].end == w.box.windowStart.value))
  }

  predicate ScheduleOk(w: World) {
    && WindowsOk(w.windows)
    && (w.windows != [] ==> w.windows[|w.windows| - 1].end <= w.clock && w.windows[|w.windows| - 1].epoch <= w.epoch)
    && (w.box.recapOn ==> RecapTimesOk(w))
  }

  lemma CloseKeepsSchedule(w: World, end: int, now: int, w': World)
    requires ScheduleOk(w) && w.box.recapOn && w.clock <= now && w.box.windowStart.value < end <= now
    requires w'.box.recapOn && w'.clock == now && w'.epoch == w.epoch
    requires w'.box.windowStart == Some(end) && w'.box.nextRecap.Some? && w'.box.nextRecap.value > end
    requires w'.windows == w.windows + [Window(w.box.windowStart.value, end, w.epoch)]
    ensures ScheduleOk(w')
  {
    WindowAdded(w.windows, Window(w.box.windowStart.value, end, w.epoch));
  }

  lemma WindowAdded(ws: seq<Window>, next: Window)
    requires WindowsOk(ws) && next.start < next.end
    requires ws != [] ==> ws[|ws| - 1].end <= next.start && ws[|ws| - 1].epoch <= next.epoch
    requires ws != [] && ws[|ws| - 1].epoch == next.epoch ==> ws[|ws| - 1].end == next.start
    ensures WindowsOk(ws + [next])
  {
    var all := ws + [next];
    forall i, j | 0 <= i < j < |all| ensures all[i].end <= all[j].start && all[i].epoch <= all[j].epoch {
      if j == |ws| && i < |ws| - 1 {
        assert ws[i].end <= ws[|ws| - 1].start < ws[|ws| - 1].end && ws[i].epoch <= ws[|ws| - 1].epoch;
      }
    }
  }

  // No step makes two windows overlap or leaves a gap inside an epoch.
  lemma ScheduleKept(d: Directory, w: World, s: Step, now: int)
    requires ScheduleOk(w) && Enabled(d, w, s, now)
    ensures ScheduleOk(Next(d, w, s, now))
  {
    match s
    case CloseWindow =>
      var end := WindowEnd(w.box, now);
      CaughtUpIsLatest(w.box.nextRecap.value, w.box.offset, now);
      NextCutoffIsNext(end, w.box.offset);
      CloseKeepsSchedule(w, end, now, Next(d, w, s, now));
    case Enable(offset) => NextCutoffIsNext(now, offset);
    case Rezone(offset) => NextCutoffIsNext(now, offset);
    case _ =>
  }

  // ----- What the recaps hold -----

  function Bag(rs: seq<Recap>): multiset<nat> {
    if rs == [] then multiset{} else Bag(rs[..|rs| - 1]) + multiset(rs[|rs| - 1].occurrences)
  }

  // Total, new and reposted counts are those of the listed occurrences, whose jobs are listed too.
  predicate CountsOk(d: Directory, r: Recap) {
    && r.total == |r.occurrences| == |r.jobs|
    && (forall i :: 0 <= i < |r.jobs| ==> r.jobs[i] == d.jobOf(r.occurrences[i]))
    && r.repostedCount == RepostedAmong(d, r.occurrences)
    && r.newCount + r.repostedCount == r.total
  }

  // Every listed occurrence is a match discovered inside the recap's own window.
  ghost predicate WithinWindow(ms: seq<Match>, r: Recap) {
    && r.windowStart < r.windowEnd && r.key <= r.windowEnd
    && forall x :: x in r.occurrences ==> exists m :: m in ms && m.occurrence == x && r.windowStart <= m.discoveredAt < r.windowEnd
  }

  predicate Distinct(ms: seq<Match>) {
    forall i, j :: 0 <= i < j < |ms| ==> ms[i].occurrence != ms[j].occurrence
  }

  predicate MatchesOk(d: Directory, ms: seq<Match>) {
    && InOrder(ms) && Distinct(ms)
    && forall m :: m in ms ==> m.job == d.jobOf(m.occurrence) && m.reposted == d.reposted(m.occurrence)
  }

  ghost predicate RecapsOk(d: Directory, ms: seq<Match>, rs: seq<Recap>, ws: seq<Window>) {
    && (forall r :: r in rs ==> CountsOk(d, r) && WithinWindow(ms, r))
    && (forall r :: r in rs ==> ws != [] && r.windowEnd <= ws[|ws| - 1].end)
    && (forall i, j :: 0 <= i < j < |rs| ==> rs[i].key < rs[j].key)
    && (forall i, j :: 0 <= i < j < |rs| ==> !(Unsent(rs[i]) && Unsent(rs[j])))
  }

  ghost predicate ContentOk(d: Directory, w: World) {
    && MatchesOk(d, w.box.matches)
    && RecapsOk(d, w.box.matches, w.box.recaps, w.windows)
    && Bag(w.box.recaps) == multiset(w.captured)
  }

  lemma {:induction false} SelectedMeans(ms: seq<Match>, start: int, end: int)
    ensures forall m :: m in Selected(ms, start, end) <==> m in ms && start <= m.discoveredAt < end
  {
    if ms != [] {
      SelectedMeans(ms[..|ms| - 1], start, end);
      assert ms == ms[..|ms| - 1] + [ms[|ms| - 1]];
    }
  }

  function Taken(ms: seq<Match>, start: int, end: int): set<nat> {
    set m | m in ms && start <= m.discoveredAt < end :: m.occurrence
  }

  // The selected rows name each taken occurrence once.
  lemma {:induction false} SelectedBag(ms: seq<Match>, start: int, end: int)
    requires Distinct(ms)
    ensures multiset(Occurrences(Selected(ms, start, end))) == multiset(Taken(ms, start, end))
  {
    if ms == [] {
      assert Taken(ms, start, end) == {};
    } else {
      var init, m := ms[..|ms| - 1], ms[|ms| - 1];
      SelectedBag(init, start, end);
      TakenLast(ms, start, end);
      if start <= m.discoveredAt < end {
        assert Selected(ms, start, end) == Selected(init, start, end) + [m];
        assert Occurrences(Selected(ms, start, end)) == Occurrences(Selected(init, start, end)) + [m.occurrence];
      } else {
        assert Selected(ms, start, end) == Selected(init, start, end);
      }
    }
  }

  lemma TakenLast(ms: seq<Match>, start: int, end: int)
    requires Distinct(ms) && ms != []
    ensures var init, m := ms[..|ms| - 1], ms[|ms| - 1];
      && m.occurrence !in Taken(init, start, end)
      && Taken(ms, start, end) == Taken(init, start, end) + (if start <= m.discoveredAt < end then {m.occurrence} else {})
  {
    var init, m := ms[..|ms| - 1], ms[|ms| - 1];
    assert ms == init + [m];
    assert forall x :: x in ms <==> x in init || x == m;
  }

  lemma {:induction false} BagUpdate(rs: seq<Recap>, k: nat, r: Recap)
    requires k < |rs|
    ensures Bag(rs[k := r]) + multiset(rs[k].occurrences) == Bag(rs) + multiset(r.occurrences)
  {
    var n := |rs| - 1;
    if k == n {
      assert rs[k := r][..n] == rs[..n];
    } else {
      BagUpdate(rs[..n], k, r);
      assert rs[k := r][..n] == rs[..n][k := r];
      assert rs[k := r][n] == rs[n] && rs[..n][k] == rs[k];
      AddBoth(Bag(rs[..n][k := r]), multiset(rs[k].occurrences), Bag(rs[..n]), multiset(r.occurrences), multiset(rs[n].occurrences));
    }
  }

  lemma AddBoth(a: multiset<nat>, b: multiset<nat>, c: multiset<nat>, d: multiset<nat>, e: multiset<nat>)
    requires a + b == c + d
    ensures (a + e) + b == (c + e) + d
  {
    assert (a + e) + b == (a + b) + e;
    assert (c + e) + d == (c + d) + e;
  }

  lemma {:induction false} BagHas(rs: seq<Recap>, x: nat)
    ensures x in Bag(rs) <==> exists r :: r in rs && x in r.occurrences
  {
    if rs != [] {
      var n := |rs| - 1;
      BagHas(rs[..n], x);
      assert rs == rs[..n] + [rs[n]];
      assert forall r :: r in rs <==> r in rs[..n] || r == rs[n];
      assert x in multiset(rs[n].occurrences) <==> x in rs[n].occurrences;
    }
  }

  lemma {:induction false} BagSame(a: seq<Recap>, b: seq<Recap>)
    requires |a| == |b| && forall i :: 0 <= i < |a| ==> a[i].occurrences == b[i].occurrences
    ensures Bag(a) == Bag(b)
  {
    if a != [] { BagSame(a[..|a| - 1], b[..|b| - 1]); }
  }

  // An occurrence counted once is in one recap, once.
  ghost predicate InOne(rs: seq<Recap>, x: nat) {
    exists i :: 0 <= i < |rs| && multiset(rs[i].occurrences)[x] == 1
      && forall j :: 0 <= j < |rs| && j != i ==> x !in rs[j].occurrences
  }

  lemma {:induction false} BagOne(rs: seq<Recap>, x: nat)
    requires Bag(rs)[x] == 1
    ensures InOne(rs, x)
  {
    var n := |rs| - 1;
    if x in rs[n].occurrences {
      assert x in multiset(rs[n].occurrences);
      assert x !in Bag(rs[..n]);
      BagHas(rs[..n], x);
      forall j | 0 <= j < n ensures x !in rs[j].occurrences { assert rs[..n][j] == rs[j]; }
    } else {
      assert x !in multiset(rs[n].occurrences);
      BagOne(rs[..n], x);
      var i :| 0 <= i < n && multiset(rs[..n][i].occurrences)[x] == 1 && forall j :: 0 <= j < n && j != i ==> x !in rs[..n][j].occurrences;
      forall j | 0 <= j < |rs| && j != i ensures x !in rs[j].occurrences { if j < n { assert rs[..n][j] == rs[j]; } }
      assert rs[..n][i] == rs[i];
    }
  }

  lemma {:induction false} UnionIsConcat(known: seq<nat>, more: seq<nat>)
    requires forall x :: x in more ==> x !in known
    requires forall x :: multiset(more)[x] <= 1
    ensures Union(known, more) == known + more
  {
    if more == [] {
      assert known + more == known;
    } else {
      var init, x := more[..|more| - 1], more[|more| - 1];
      assert more == init + [x];
      assert multiset(more) == multiset(init) + multiset{x};
      assert multiset(more)[x] <= 1 && x !in multiset(init);
      forall y ensures multiset(init)[y] <= 1 { assert multiset(more)[y] <= 1; }
      UnionIsConcat(known, init);
      assert x !in init;
      assert known + more == known + init + [x];
    }
  }

  lemma {:induction false} RepostedAgree(d: Directory, rows: seq<Match>)
    requires forall m :: m in rows ==> m.reposted == d.reposted(m.occurrence)
    ensures RepostedRows(rows) == RepostedAmong(d, Occurrences(rows))
  {
    if rows != [] {
      RepostedAgree(d, rows[..|rows| - 1]);
      assert Occurrences(rows)[..|rows| - 1] == Occurrences(rows[..|rows| - 1]);
    }
  }

  lemma SameMatch(ms: seq<Match>, a: Match, b: Match)
    requires Distinct(ms) && a in ms && b in ms && a.occurrence == b.occurrence
    ensures a == b
  {
    var i :| 0 <= i < |ms| && ms[i] == a;
    var j :| 0 <= j < |ms| && ms[j] == b;
    assert ms[i].occurrence == ms[j].occurrence;
  }

  // A captured occurrence was discovered before the last window's end.
  lemma CapturedIsOlder(d: Directory, w: World, m: Match)
    requires ContentOk(d, w) && m in w.box.matches && m.occurrence in w.captured
    ensures w.windows != [] && m.discoveredAt < w.windows[|w.windows| - 1].end
  {
    var x := m.occurrence;
    assert x in Bag(w.box.recaps);
    BagHas(w.box.recaps, x);
    var r :| r in w.box.recaps && x in r.occurrences;
    assert WithinWindow(w.box.matches, r);
    var m' :| m' in w.box.matches && m'.occurrence == x && r.windowStart <= m'.discoveredAt < r.windowEnd;
    SameMatch(w.box.matches, m, m');
  }

  lemma NothingTakenTwice(d: Directory, w: World, start: int, end: int)
    requires ContentOk(d, w) && (w.windows != [] ==> w.windows[|w.windows| - 1].end <= start)
    ensures w.captured !! Taken(w.box.matches, start, end)
  {
    forall m | m in w.box.matches && start <= m.discoveredAt < end ensures m.occurrence !in w.captured {
      if m.occurrence in w.captured { CapturedIsOlder(d, w, m); }
    }
  }

  // ----- Closing a window -----

  lemma NewRecapOk(d: Directory, ms: seq<Match>, start: int, end: int, now: int)
    requires Distinct(ms) && start < end
    requires forall m :: m in ms ==> m.job == d.jobOf(m.occurrence) && m.reposted == d.reposted(m.occurrence)
    ensures var r := NewRecap(Selected(ms, start, end), start, end, now); CountsOk(d, r) && WithinWindow(ms, r)
  {
    var rows := Selected(ms, start, end);
    SelectedMeans(ms, start, end);
    RepostedAgree(d, rows);
    forall x | x in Occurrences(rows) ensures exists m :: m in ms && m.occurrence == x && start <= m.discoveredAt < end {
      var i :| 0 <= i < |rows| && rows[i].occurrence == x;
      assert rows[i] in rows;
    }
    forall i | 0 <= i < |rows| ensures Jobs(rows)[i] == d.jobOf(Occurrences(rows)[i]) { assert rows[i] in rows; }
  }

  // What merging adds to a recap: exactly the selected occurrences, each once.
  lemma MergedOccurrences(d: Directory, ms: seq<Match>, r: Recap, start: int, end: int, now: int)
    requires Distinct(ms) && forall x :: x in r.occurrences ==> x !in Taken(ms, start, end)
    ensures MergedRecap(d, r, Selected(ms, start, end), end, now).occurrences == r.occurrences + Occurrences(Selected(ms, start, end))
  {
    var more := Occurrences(Selected(ms, start, end));
    SelectedBag(ms, start, end);
    forall x | x in more ensures x !in r.occurrences {
      assert x in multiset(more);
    }
    OnceEach(more, Taken(ms, start, end));
    UnionIsConcat(r.occurrences, more);
  }

  lemma OnceEach(more: seq<nat>, taken: set<nat>)
    requires multiset(more) == multiset(taken)
    ensures forall x :: multiset(more)[x] <= 1
  {
  }

  lemma SelectedInWindow(ms: seq<Match>, start: int, end: int, x: nat)
    requires x in Occurrences(Selected(ms, start, end))
    ensures exists m :: m in ms && m.occurrence == x && start <= m.discoveredAt < end
  {
    var rows := Selected(ms, start, end);
    SelectedMeans(ms, start, end);
    var i :| 0 <= i < |rows| && rows[i].occurrence == x;
    assert rows[i] in rows;
  }

  lemma MergedWithin(ms: seq<Match>, r: Recap, r': Recap, start: int, end: int)
    requires WithinWindow(ms, r) && r.windowEnd <= start < end
    requires r'.occurrences == r.occurrences + Occurrences(Selected(ms, start, end))
    requires r'.key == r.key && r'.windowStart == r.windowStart && r'.windowEnd == end
    ensures WithinWindow(ms, r')
  {
    forall x | x in r'.occurrences
      ensures exists m :: m in ms && m.occurrence == x && r.windowStart <= m.discoveredAt < end
    {
      if x in r.occurrences {
        var m :| m in ms && m.occurrence == x && r.windowStart <= m.discoveredAt < r.windowEnd;
      } else {
        SelectedInWindow(ms, start, end, x);
      }
    }
  }

  lemma MergedCounts(d: Directory, r: Recap, rows: seq<Match>, end: int, now: int)
    ensures CountsOk(d, MergedRecap(d, r, rows, end, now))
  {
  }

  lemma MergedRecapOk(d: Directory, ms: seq<Match>, r: Recap, start: int, end: int, now: int)
    requires Distinct(ms) && CountsOk(d, r) && WithinWindow(ms, r) && r.windowEnd <= start < end
    requires forall x :: x in r.occurrences ==> x !in Taken(ms, start, end)
    ensures var r' := MergedRecap(d, r, Selected(ms, start, end), end, now);
      CountsOk(d, r') && WithinWindow(ms, r') && r'.occurrences == r.occurrences + Occurrences(Selected(ms, start, end))
  {
    var r' := MergedRecap(d, r, Selected(ms, start, end), end, now);
    MergedOccurrences(d, ms, r, start, end, now);
    MergedCounts(d, r, Selected(ms, start, end), end, now);
    MergedWithin(ms, r, r', start, end);
  }

  lemma CloseBagAppend(rs: seq<Recap>, r: Recap)
    ensures Bag(rs + [r]) == Bag(rs) + multiset(r.occurrences)
  {
    assert (rs + [r])[..|rs|] == rs;
  }

  lemma CancelBoth(a: multiset<nat>, b: multiset<nat>, c: multiset<nat>, e: multiset<nat>)
    requires a + b == e + (b + c)
    ensures a == e + c
  {
    forall x ensures a[x] == (e + c)[x] { assert (a + b)[x] == (e + (b + c))[x]; }
  }

  lemma MergedHere(d: Directory, w: World, k: nat, start: int, end: int, now: int)
    requires ContentOk(d, w) && start < end && w.windows != [] && w.windows[|w.windows| - 1].end <= start && k < |w.box.recaps|
    ensures var rows := Selected(w.box.matches, start, end);
      var r' := MergedRecap(d, w.box.recaps[k], rows, end, now);
      CountsOk(d, r') && WithinWindow(w.box.matches, r') && r'.occurrences == w.box.recaps[k].occurrences + Occurrences(rows)
  {
    var ms, rs := w.box.matches, w.box.recaps;
    var r := rs[k];
    NothingTakenTwice(d, w, start, end);
    assert r in rs;
    forall x | x in r.occurrences ensures x !in Taken(ms, start, end) {
      BagHas(rs, x);
      assert x in multiset(w.captured);
    }
    MergedRecapOk(d, ms, r, start, end, now);
  }

  lemma CloseBagMerge(d: Directory, w: World, k: nat, start: int, end: int, now: int)
    requires ContentOk(d, w) && start < end && w.windows != [] && w.windows[|w.windows| - 1].end <= start && k < |w.box.recaps|
    ensures var rows := Selected(w.box.matches, start, end);
      Bag(w.box.recaps[k := MergedRecap(d, w.box.recaps[k], rows, end, now)]) == Bag(w.box.recaps) + multiset(Occurrences(rows))
  {
    var rs, rows := w.box.recaps, Selected(w.box.matches, start, end);
    var r' := MergedRecap(d, rs[k], rows, end, now);
    MergedHere(d, w, k, start, end, now);
    BagUpdate(rs, k, r');
    assert multiset(r'.occurrences) == multiset(rs[k].occurrences) + multiset(Occurrences(rows));
    CancelBoth(Bag(rs[k := r']), multiset(rs[k].occurrences), multiset(Occurrences(rows)), Bag(rs));
  }

  // Closing a window files each of its matches in exactly one recap and disturbs no other.
  lemma CloseBag(d: Directory, w: World, start: int, end: int, now: int)
    requires ContentOk(d, w) && start < end && (w.windows != [] ==> w.windows[|w.windows| - 1].end <= start)
    ensures var ms := w.box.matches;
      Bag(RecapsAfter(d, w.box.recaps, Selected(ms, start, end), start, end, now)) == multiset(w.captured + Taken(ms, start, end))
  {
    var ms, rs := w.box.matches, w.box.recaps;
    var rows, taken := Selected(ms, start, end), Taken(ms, start, end);
    SelectedBag(ms, start, end);
    NothingTakenTwice(d, w, start, end);
    assert multiset(w.captured + taken) == multiset(w.captured) + multiset(taken);
    assert Bag(rs) + multiset(Occurrences(rows)) == multiset(w.captured + taken);
    var k := FirstUnsent(rs);
    if rows == [] {
      assert Occurrences(rows) == [];
      assert Bag(rs) + multiset(Occurrences(rows)) == Bag(rs);
    } else if k.None? {
      CloseBagAppend(rs, NewRecap(rows, start, end, now));
    } else {
      assert rs[k.value] in rs;
      CloseBagMerge(d, w, k.value, start, end, now);
    }
  }

  lemma AddMatchKept(d: Directory, ms: seq<Match>, m: Match, p: nat, rs: seq<Recap>, ws: seq<Window>)
    requires MatchesOk(d, ms) && RecapsOk(d, ms, rs, ws) && p <= |ms| && NewMatch(d, ms, m)
    requires InOrder(ms[..p] + [m] + ms[p..])
    ensures MatchesOk(d, ms[..p] + [m] + ms[p..]) && RecapsOk(d, ms[..p] + [m] + ms[p..], rs, ws)
  {
    InsertedMembers(ms, m, p);
    InsertedDistinct(d, ms, m, p);
    var ms' := ms[..p] + [m] + ms[p..];
    forall r | r in rs ensures WithinWindow(ms', r) { assert WithinWindow(ms, r); }
  }

  lemma InsertedMembers(ms: seq<Match>, m: Match, p: nat)
    requires p <= |ms|
    ensures forall x :: x in ms[..p] + [m] + ms[p..] <==> x in ms || x == m
  {
    assert ms == ms[..p] + ms[p..];
  }

  lemma InsertedDistinct(d: Directory, ms: seq<Match>, m: Match, p: nat)
    requires Distinct(ms) && p <= |ms| && NewMatch(d, ms, m)
    ensures Distinct(ms[..p] + [m] + ms[p..])
  {
    var ms' := ms[..p] + [m] + ms[p..];
    forall i, j | 0 <= i < j < |ms'| ensures ms'[i].occurrence != ms'[j].occurrence {
      assert i != p ==> ms'[i] == ms[if i < p then i else i - 1];
      assert j != p ==> ms'[j] == ms[if j < p then j else j - 1];
    }
  }

  // Only status, attempt and payload move, and nothing becomes unsent.
  predicate OnlyDelivered(rs: seq<Recap>, rs': seq<Recap>) {
    |rs'| == |rs| && forall i :: 0 <= i < |rs| ==>
      rs'[i] == rs[i].(status := rs'[i].status, attempted := rs'[i].attempted, payload := rs'[i].payload)
      && (Unsent(rs'[i]) ==> Unsent(rs[i]))
  }

  lemma DeliveredKept(d: Directory, ms: seq<Match>, rs: seq<Recap>, rs': seq<Recap>, ws: seq<Window>)
    requires RecapsOk(d, ms, rs, ws) && OnlyDelivered(rs, rs')
    ensures RecapsOk(d, ms, rs', ws) && Bag(rs') == Bag(rs)
  {
    BagSame(rs', rs);
    forall r' | r' in rs'
      ensures CountsOk(d, r') && WithinWindow(ms, r') && ws != [] && r'.windowEnd <= ws[|ws| - 1].end
    {
      var i :| 0 <= i < |rs'| && rs'[i] == r';
      assert rs[i] in rs && CountsOk(d, rs[i]) && WithinWindow(ms, rs[i]);
    }
  }

  // A new recap behind the others, none of which is unsent.
  lemma AppendKept(d: Directory, ms: seq<Match>, rs: seq<Recap>, ws: seq<Window>, r: Recap, w: Window)
    requires RecapsOk(d, ms, rs, ws) && CountsOk(d, r) && WithinWindow(ms, r) && r.windowEnd <= w.end
    requires ws != [] ==> ws[|ws| - 1].end <= w.end
    requires forall x :: x in rs ==> !Unsent(x) && x.key < r.key
    ensures RecapsOk(d, ms, rs + [r], ws + [w])
  {
    var rs' := rs + [r];
    forall x | x in rs' ensures CountsOk(d, x) && WithinWindow(ms, x) && x.windowEnd <= w.end {
      assert x == r || x in rs;
    }
    forall i, j | 0 <= i < j < |rs'| ensures rs'[i].key < rs'[j].key && !(Unsent(rs'[i]) && Unsent(rs'[j])) {
      assert rs'[i] in rs;
    }
  }

  // Keys of recaps filed so far precede the end of the next window.
  lemma OlderKeys(d: Directory, w: World, start: int, r: Recap)
    requires ContentOk(d, w) && (w.windows != [] ==> w.windows[|w.windows| - 1].end <= start) && r in w.box.recaps
    ensures r.key <= start
  {
    assert WithinWindow(w.box.matches, r);
  }

  lemma CloseAppendKept(d: Directory, w: World, start: int, end: int, now: int)
    requires ContentOk(d, w) && start < end && (w.windows != [] ==> w.windows[|w.windows| - 1].end <= start)
    requires Selected(w.box.matches, start, end) != [] && FirstUnsent(w.box.recaps).None?
    ensures RecapsOk(d, w.box.matches, w.box.recaps + [NewRecap(Selected(w.box.matches, start, end), start, end, now)],
                     w.windows + [Window(start, end, w.epoch)])
  {
    var r := NewRecap(Selected(w.box.matches, start, end), start, end, now);
    NewRecapOk(d, w.box.matches, start, end, now);
    forall x | x in w.box.recaps ensures !Unsent(x) && x.key < r.key { OlderKeys(d, w, start, x); }
    AppendKept(d, w.box.matches, w.box.recaps, w.windows, r, Window(start, end, w.epoch));
  }

  // One unsent recap rewritten under its own key.
  lemma RewriteKept(d: Directory, ms: seq<Match>, rs: seq<Recap>, ws: seq<Window>, k: nat, r: Recap, w: Window)
    requires RecapsOk(d, ms, rs, ws) && k < |rs| && r.key == rs[k].key && Unsent(rs[k])
    requires CountsOk(d, r) && WithinWindow(ms, r) && r.windowEnd <= w.end && (ws != [] ==> ws[|ws| - 1].end <= w.end)
    ensures RecapsOk(d, ms, rs[k := r], ws + [w])
  {
    var rs' := rs[k := r];
    forall x | x in rs' ensures CountsOk(d, x) && WithinWindow(ms, x) && x.windowEnd <= w.end {
      assert x == r || x in rs;
    }
  }

  lemma CloseMergeKept(d: Directory, w: World, k: nat, start: int, end: int, now: int)
    requires ContentOk(d, w) && start < end && (w.windows != [] ==> w.windows[|w.windows| - 1].end <= start)
    requires Selected(w.box.matches, start, end) != [] && FirstUnsent(w.box.recaps) == Some(k) && k < |w.box.recaps|
    ensures RecapsOk(d, w.box.matches, w.box.recaps[k := MergedRecap(d, w.box.recaps[k], Selected(w.box.matches, start, end), end, now)],
                     w.windows + [Window(start, end, w.epoch)])
  {
    var rs := w.box.recaps;
    assert rs[k] in rs;
    MergedHere(d, w, k, start, end, now);
    var r' := MergedRecap(d, rs[k], Selected(w.box.matches, start, end), end, now);
    RewriteKept(d, w.box.matches, rs, w.windows, k, r', Window(start, end, w.epoch));
  }

  lemma CloseKept(d: Directory, w: World, start: int, end: int, now: int)
    requires ContentOk(d, w) && start < end && (w.windows != [] ==> w.windows[|w.windows| - 1].end <= start)
    ensures RecapsOk(d, w.box.matches, RecapsAfter(d, w.box.recaps, Selected(w.box.matches, start, end), start, end, now),
                     w.windows + [Window(start, end, w.epoch)])
  {
    if Selected(w.box.matches, start, end) != [] {
      if FirstUnsent(w.box.recaps).None? {
        CloseAppendKept(d, w, start, end, now);
      } else {
        CloseMergeKept(d, w, FirstUnsent(w.box.recaps).value, start, end, now);
      }
    }
  }

  lemma CloseStep(d: Directory, w: World, now: int)
    requires ScheduleOk(w) && ContentOk(d, w) && Enabled(d, w, CloseWindow, now)
    ensures ContentOk(d, Next(d, w, CloseWindow, now))
  {
    var start, end := w.box.windowStart.value, WindowEnd(w.box, now);
    CaughtUpIsLatest(w.box.nextRecap.value, w.box.offset, now);
    CloseKept(d, w, start, end, now);
    CloseBag(d, w, start, end, now);
  }

  lemma MatchStep(d: Directory, w: World, m: Match, position: nat, now: int)
    requires ContentOk(d, w) && Enabled(d, w, AddMatch(m, position), now)
    ensures ContentOk(d, Next(d, w, AddMatch(m, position), now))
  {
    AddMatchKept(d, w.box.matches, m, position, w.box.recaps, w.windows);
  }

  // Every step keeps the recaps, their counts and their windows right.
  lemma ContentKept(d: Directory, w: World, s: Step, now: int)
    requires ScheduleOk(w) && ContentOk(d, w) && Enabled(d, w, s, now)
    ensures ContentOk(d, Next(d, w, s, now))
  {
    match s
    case AddMatch(m, position) => MatchStep(d, w, m, position, now);
    case CloseWindow => CloseStep(d, w, now);
    case Disable(_) => DeliveryStep(d, w, s, now);
    case CancelPending => DeliveryStep(d, w, s, now);
    case Attempt(_, _) => DeliveryStep(d, w, s, now);
    case Settle(_, _) => DeliveryStep(d, w, s, now);
    case _ =>
  }

  predicate Delivers(s: Step) {
    s.Disable? || s.CancelPending? || s.Attempt? || s.Settle?
  }

  lemma DeliveredOnly(d: Directory, w: World, s: Step, now: int)
    requires Enabled(d, w, s, now) && Delivers(s)
    ensures OnlyDelivered(w.box.recaps, Next(d, w, s, now).box.recaps)
  {
  }

  lemma DeliveryStep(d: Directory, w: World, s: Step, now: int)
    requires ContentOk(d, w) && Enabled(d, w, s, now) && Delivers(s)
    ensures ContentOk(d, Next(d, w, s, now))
  {
    var w' := Next(d, w, s, now);
    DeliveredOnly(d, w, s, now);
    DeliveredKept(d, w.box.matches, w.box.recaps, w'.box.recaps, w.windows);
    assert w'.box.matches == w.box.matches && w'.windows == w.windows && w'.captured == w.captured;
  }

  // ----- Runs -----

  const EMPTY: Box := Box(false, None, None, 0, [], [], [])

  ghost predicate RunFrom(d: Directory, w: World, steps: seq<(Step, int)>, w': World)
    decreases steps
  {
    if steps == [] then w' == w
    else Enabled(d, w, steps[0].0, steps[0].1) && RunFrom(d, Next(d, w, steps[0].0, steps[0].1), steps[1..], w')
  }

  // One step keeps both halves of the invariant and forgets nothing.
  lemma StepKeeps(d: Directory, w: World, s: Step, now: int)
    requires ScheduleOk(w) && ContentOk(d, w) && Enabled(d, w, s, now)
    ensures var w' := Next(d, w, s, now);
      ScheduleOk(w') && ContentOk(d, w') && w.captured <= w'.captured && w.windows <= w'.windows
  {
    ScheduleKept(d, w, s, now);
    ContentKept(d, w, s, now);
  }

  lemma {:induction false} RunKeeps(d: Directory, w: World, steps: seq<(Step, int)>, w': World)
    requires ScheduleOk(w) && ContentOk(d, w) && RunFrom(d, w, steps, w')
    ensures ScheduleOk(w') && ContentOk(d, w') && w.captured <= w'.captured && w.windows <= w'.windows
    decreases steps
  {
    if steps != [] {
      var s, now := steps[0].0, steps[0].1;
      StepKeeps(d, w, s, now);
      RunKeeps(d, Next(d, w, s, now), steps[1..], w');
    }
  }

  ghost predicate Reachable(d: Directory, w: World) {
    exists start: int, steps :: RunFrom(d, World(EMPTY, start, 0, [], {}), steps, w)
  }

  // In every reachable state windows are disjoint and adjacent, and counts are exact.
  lemma ReachableOk(d: Directory, w: World)
    requires Reachable(d, w)
    ensures ScheduleOk(w) && ContentOk(d, w)
  {
    var start: int, steps :| RunFrom(d, World(EMPTY, start, 0, [], {}), steps, w);
    RunKeeps(d, World(EMPTY, start, 0, [], {}), steps, w);
  }

  // A match present when its window closes is in exactly one recap, then and ever after.
  lemma EachMatchOnce(d: Directory, w: World, now: int, m: Match, steps: seq<(Step, int)>, w': World)
    requires Reachable(d, w) && Enabled(d, w, CloseWindow, now)
    requires m in w.box.matches && w.box.windowStart.value <= m.discoveredAt < WindowEnd(w.box, now)
    requires RunFrom(d, Next(d, w, CloseWindow, now), steps, w')
    ensures InOne(w'.box.recaps, m.occurrence)
  {
    ReachableOk(d, w);
    StepKeeps(d, w, CloseWindow, now);
    CapturedAtClose(d, w, now, m);
    RunKeeps(d, Next(d, w, CloseWindow, now), steps, w');
    CapturedInOne(d, w', m.occurrence);
  }

  lemma CapturedAtClose(d: Directory, w: World, now: int, m: Match)
    requires Enabled(d, w, CloseWindow, now)
    requires m in w.box.matches && w.box.windowStart.value <= m.discoveredAt < WindowEnd(w.box, now)
    ensures m.occurrence in Next(d, w, CloseWindow, now).captured
  {
  }

  lemma CapturedInOne(d: Directory, w: World, x: nat)
    requires ContentOk(d, w) && x in w.captured
    ensures InOne(w.box.recaps, x)
  {
    BagOne(w.box.recaps, x);
  }

  // What a recipient may have been sent.
  predicate SameRecap(a: Recap, b: Recap) {
    && b.attempted && b.key == a.key && b.occurrences == a.occurrences && b.jobs == a.jobs
    && b.total == a.total && b.newCount == a.newCount && b.repostedCount == a.repostedCount
    && b.windowStart == a.windowStart && b.windowEnd == a.windowEnd
    && (a.payload.Some? ==> b.payload == a.payload)
  }

  lemma AttemptedStep(d: Directory, w: World, s: Step, now: int, i: nat)
    requires Enabled(d, w, s, now) && i < |w.box.recaps| && w.box.recaps[i].attempted
    ensures i < |Next(d, w, s, now).box.recaps| && SameRecap(w.box.recaps[i], Next(d, w, s, now).box.recaps[i])
  {
    if Delivers(s) { DeliveredOnly(d, w, s, now); }
  }

  // A recap once attempted stays what it was, whatever happens later.
  lemma {:induction false} AttemptedStands(d: Directory, w: World, steps: seq<(Step, int)>, w': World, i: nat)
    requires RunFrom(d, w, steps, w') && i < |w.box.recaps| && w.box.recaps[i].attempted
    ensures i < |w'.box.recaps| && SameRecap(w.box.recaps[i], w'.box.recaps[i])
    decreases steps
  {
    if steps != [] {
      AttemptedStep(d, w, steps[0].0, steps[0].1, i);
      AttemptedStands(d, Next(d, w, steps[0].0, steps[0].1), steps[1..], w', i);
    }
  }

  // An alert never attempted does not outlive the recap that covers one of its matches.
  lemma AlertsFolded(d: Directory, b: Box, now: int, m: Match, a: Alert)
    requires Ready(b, now) && m in b.matches && b.windowStart.value <= m.discoveredAt < WindowEnd(b, now)
    requires a in MakeRecap(d, b, now).alerts && m.occurrence in a.occurrences
    ensures !(a.status == Pending && !a.attempted)
  {
    var rows := Selected(b.matches, b.windowStart.value, WindowEnd(b, now));
    SelectedMeans(b.matches, b.windowStart.value, WindowEnd(b, now));
    var i :| 0 <= i < |rows| && rows[i] == m;
    assert Occurrences(rows)[i] == m.occurrence;
    var k :| 0 <= k < |MakeRecap(d, b, now).alerts| && MakeRecap(d, b, now).alerts[k] == a;
    assert a == Folded(b.alerts[k], Occurrences(rows));
  }
}
