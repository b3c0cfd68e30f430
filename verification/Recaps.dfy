/** One subscriber's recap windows: which matches each recap holds and how unsent recaps merge. */
module Recaps {
  import opened Prelude
  import opened Tables
  import opened Cutoff

  // The occurrence table: each occurrence's job, and whether it is a repost.
  datatype Directory = Directory(jobOf: nat -> nat, reposted: nat -> bool)

  datatype Status = Pending | Cancelled | RecapOnly | Elsewhere

  // A recap delivery. Its key is the end of the window that created it.
  datatype Recap = Recap(
    key: int, occurrences: seq<nat>, jobs: seq<nat>, total: nat, newCount: int, repostedCount: nat,
    windowStart: int, windowEnd: int, dueAt: int, status: Status, attempted: bool, payload: Option<int>)

  datatype Alert = Alert(occurrences: seq<nat>, status: Status, attempted: bool)

  // `matches` lists the subscriber's matches by discovery time and then id.
  datatype Box = Box(
    recapOn: bool, windowStart: Option<int>, nextRecap: Option<int>, offset: int,
    matches: seq<Match>, recaps: seq<Recap>, alerts: seq<Alert>)

  predicate Ready(b: Box, now: int) {
    b.recapOn && b.windowStart.Some? && b.nextRecap.Some? && b.nextRecap.value <= now
  }

  function WindowEnd(b: Box, now: int): int
    requires Ready(b, now)
  {
    CaughtUp(b.nextRecap.value, b.offset, now)
  }

  function Selected(ms: seq<Match>, start: int, end: int): seq<Match> {
    if ms == [] then []
    else
      var m := ms[|ms| - 1];
      Selected(ms[..|ms| - 1], start, end) + (if start <= m.discoveredAt < end then [m] else [])
  }

  function Occurrences(rows: seq<Match>): seq<nat> {
    seq(|rows|, i requires 0 <= i < |rows| => rows[i].occurrence)
  }

  function Jobs(rows: seq<Match>): seq<nat> {
    seq(|rows|, i requires 0 <= i < |rows| => rows[i].job)
  }

  function RepostedRows(rows: seq<Match>): nat {
    if rows == [] then 0 else RepostedRows(rows[..|rows| - 1]) + (if rows[|rows| - 1].reposted then 1 else 0)
  }

  function RepostedAmong(d: Directory, occurrences: seq<nat>): nat {
    if occurrences == [] then 0
    else RepostedAmong(d, occurrences[..|occurrences| - 1]) + (if d.reposted(occurrences[|occurrences| - 1]) then 1 else 0)
  }

  // The first list, then what the second adds to it, each entry once.
  function Union(known: seq<nat>, more: seq<nat>): seq<nat> {
    if more == [] then known
    else
      var before, x := Union(known, more[..|more| - 1]), more[|more| - 1];
      if x in before then before else before + [x]
  }

  predicate Unsent(r: Recap) {
    r.status == Pending && !r.attempted
  }

  // The position of the oldest pending recap that was never attempted.
  function FirstUnsent(rs: seq<Recap>): Option<nat>
    ensures FirstUnsent(rs).Some? ==> FirstUnsent(rs).value < |rs| && Unsent(rs[FirstUnsent(rs).value])
    ensures FirstUnsent(rs).None? ==> forall r :: r in rs ==> !Unsent(r)
    ensures FirstUnsent(rs).Some? ==> forall i :: 0 <= i < FirstUnsent(rs).value ==> !Unsent(rs[i])
  {
    if rs == [] then None
    else if Unsent(rs[0]) then Some(0)
    else
      var k := FirstUnsent(rs[1..]);
      if k.None? then None else Some(k.value + 1)
  }

  function NewRecap(rows: seq<Match>, start: int, end: int, now: int): Recap {
    Recap(end, Occurrences(rows), Jobs(rows), |rows|, |rows| - RepostedRows(rows), RepostedRows(rows),
          start, end, now, Pending, false, None)
  }

  function MergedRecap(d: Directory, r: Recap, rows: seq<Match>, end: int, now: int): Recap {
    var all := Union(r.occurrences, Occurrences(rows));
    var reposted := RepostedAmong(d, all);
    r.(occurrences := all, jobs := seq(|all|, i requires 0 <= i < |all| => d.jobOf(all[i])), total := |all|,
       repostedCount := reposted, newCount := |all| - reposted, payload := None, dueAt := now, windowEnd := end)
  }

  function Folded(a: Alert, occurrences: seq<nat>): Alert {
    if a.status == Pending && !a.attempted && exists x :: x in a.occurrences && x in occurrences
    then a.(status := RecapOnly) else a
  }

  function FoldedAlerts(alerts: seq<Alert>, occurrences: seq<nat>): seq<Alert> {
    seq(|alerts|, i requires 0 <= i < |alerts| => Folded(alerts[i], occurrences))
  }

  function RecapsAfter(d: Directory, rs: seq<Recap>, rows: seq<Match>, start: int, end: int, now: int): seq<Recap> {
    if rows == [] then rs
    else
      var k := FirstUnsent(rs);
      if k.None? then rs + [NewRecap(rows, start, end, now)]
      else rs[k.value := MergedRecap(d, rs[k.value], rows, end, now)]
  }

  // Closes the window that is due, catching up over missed cutoffs.
  function MakeRecap(d: Directory, b: Box, now: int): Box
    requires Ready(b, now)
  {
    var start, end := b.windowStart.value, WindowEnd(b, now);
    var rows := Selected(b.matches, start, end);
    b.(windowStart := Some(end), nextRecap := Some(NextCutoff(end, b.offset)),
       recaps := RecapsAfter(d, b.recaps, rows, start, end, now),
       alerts := if rows == [] then b.alerts else FoldedAlerts(b.alerts, Occurrences(rows)))
  }

  // ----- The same, as the program does it -----

  class Subscriber {
    var recapOn: bool
    var windowStart: Option<int>
    var nextRecap: Option<int>
    var offset: int
    var matches: seq<Match>
    var recaps: seq<Recap>
    var alerts: seq<Alert>

    function View(): Box
      reads this
    {
      Box(recapOn, windowStart, nextRecap, offset, matches, recaps, alerts)
    }

    constructor (offset: int)
      ensures View() == Box(false, None, None, offset, [], [], [])
    {
      recapOn, windowStart, nextRecap, this.offset := false, None, None, offset;
      matches, recaps, alerts := [], [], [];
    }

    method Select(start: int, end: int) returns (rows: seq<Match>)
      ensures rows == Selected(matches, start, end)
    {
      rows := [];
      for i := 0 to |matches|
        invariant rows == Selected(matches[..i], start, end)
      {
        assert matches[..i + 1][..i] == matches[..i];
        if start <= matches[i].discoveredAt < end { rows := rows + [matches[i]]; }
      }
      assert matches[..|matches|] == matches;
    }

    // The known occurrences, then each new one once.
    method Unite(known: seq<nat>, more: seq<nat>) returns (all: seq<nat>)
      ensures all == Union(known, more)
    {
      all := known;
      for i := 0 to |more|
        invariant all == Union(known, more[..i])
      {
        assert more[..i + 1][..i] == more[..i];
        if more[i] !in all { all := all + [more[i]]; }
      }
      assert more[..|more|] == more;
    }

    // The jobs of some occurrences, and how many of them are reposts.
    method LookUp(d: Directory, all: seq<nat>) returns (jobs: seq<nat>, reposted: nat)
      ensures |jobs| == |all| && forall k :: 0 <= k < |all| ==> jobs[k] == d.jobOf(all[k])
      ensures reposted == RepostedAmong(d, all)
    {
      jobs, reposted := [], 0;
      for i := 0 to |all|
        invariant |jobs| == i && forall k :: 0 <= k < i ==> jobs[k] == d.jobOf(all[k])
        invariant reposted == RepostedAmong(d, all[..i])
      {
        assert all[..i + 1][..i] == all[..i];
        jobs := jobs + [d.jobOf(all[i])];
        if d.reposted(all[i]) { reposted := reposted + 1; }
      }
      assert all[..|all|] == all;
    }

    method Merge(d: Directory, r: Recap, rows: seq<Match>, end: int, now: int) returns (merged: Recap)
      ensures merged == MergedRecap(d, r, rows, end, now)
    {
      var all := Unite(r.occurrences, Occurrences(rows));
      var jobs, reposted := LookUp(d, all);
      merged := r.(occurrences := all, jobs := jobs, total := |all|, repostedCount := reposted,
                   newCount := |all| - reposted, payload := None, dueAt := now, windowEnd := end);
    }

    method FoldAlerts(occurrences: seq<nat>)
      modifies this`alerts
      ensures alerts == FoldedAlerts(old(alerts), occurrences)
    {
      for i := 0 to |alerts|
        invariant |alerts| == |old(alerts)|
        invariant forall k :: 0 <= k < i ==> alerts[k] == Folded(old(alerts)[k], occurrences)
        invariant forall k :: i <= k < |alerts| ==> alerts[k] == old(alerts)[k]
      {
        var a := alerts[i];
        if a.status == Pending && !a.attempted && exists x | x in a.occurrences :: x in occurrences {
          alerts := alerts[i := a.(status := RecapOnly)];
        }
      }
    }

    // Does nothing unless a window is due.
    method CloseWindow(d: Directory, now: int)
      modifies this
      ensures View() == if old(Ready(View(), now)) then old(MakeRecap(d, View(), now)) else old(View())
    {
      if !(recapOn && windowStart.Some? && nextRecap.Some? && nextRecap.value <= now) { return; }
      var start := windowStart.value;
      var end := CatchUp(nextRecap.value, offset, now);
      var rows := Select(start, end);
      if rows != [] {
        var k := FirstUnsent(recaps);
        if k.None? {
          recaps := recaps + [NewRecap(rows, start, end, now)];
        } else {
          var merged := Merge(d, recaps[k.value], rows, end, now);
          recaps := recaps[k.value := merged];
        }
      }
      windowStart, nextRecap := Some(end), Some(NextCutoff(end, offset));
      if rows != [] {
        FoldAlerts(Occurrences(rows));
      }
    }
  }
}
