/** Every run of the evidence queue over one row: enqueues, claims and finishes interleaved by any
    number of workers, with arguments of their own choosing and a clock that never goes back. */
module EvidenceRuns {
  import opened Prelude
  import opened EvidenceQueue

  datatype Step =
    | Enqueue(now: int, open: bool, target: Target, refresh: bool, invalidate: bool, seen: Option<Observation>)
    | Claim(now: int, token: nat)
    | Finish(now: int, token: nat, target: Target, job: JobNow, documents: seq<Document>, error: Option<string>)

  function Apply(row: Option<Row>, s: Step): Option<Row> {
    match s
    case Enqueue(now, open, target, refresh, invalidate, seen) => EnqueueRow(row, open, target, refresh, invalidate, seen, now)
    case Claim(now, token) => if row.None? then row else Some(ClaimRow(row.value, token, now))
    case Finish(now, token, target, job, documents, error) => FinishRow(row, token, target, job, documents, error, now)
  }

  function After(steps: seq<Step>): Option<Row> {
    if steps == [] then None else Apply(After(steps[..|steps| - 1]), steps[|steps| - 1])
  }

  // The clock never goes back, and a claim token is never issued twice.
  ghost predicate ValidRun(steps: seq<Step>) {
    && (forall i, j :: 0 <= i < j < |steps| ==> steps[i].now <= steps[j].now)
    && (forall i, j :: 0 <= i < j < |steps| && steps[i].Claim? && steps[j].Claim? ==> steps[i].token != steps[j].token)
  }

  function Before(steps: seq<Step>, i: nat): Option<Row>
    requires i <= |steps|
  {
    After(steps[..i])
  }

  predicate Claims(row: Option<Row>, s: Step) {
    s.Claim? && row.Some? && Claimable(row.value, s.now)
  }

  // A changed target or an invalidation: the caller insists on a new check.
  predicate Forces(row: Option<Row>, s: Step) {
    s.Enqueue? && s.open && (row.None? || Forced(row.value, s.target, s.invalidate, s.seen))
  }

  predicate Requeues(row: Option<Row>, s: Step) {
    Forces(row, s) || (s.Enqueue? && s.open && Due(row.value, s.refresh, s.now))
  }

  predicate Ends(row: Option<Row>, s: Step, how: set<Outcome>) {
    s.Finish? && FinishOutcome(row, s.token, s.target, s.job, s.documents, s.now) in how
  }

  predicate ClaimsAt(steps: seq<Step>, i: nat)
    requires i < |steps|
  {
    Claims(Before(steps, i), steps[i])
  }

  predicate ForcedAt(steps: seq<Step>, i: nat)
    requires i < |steps|
  {
    Forces(Before(steps, i), steps[i])
  }

  predicate RequeuesAt(steps: seq<Step>, i: nat)
    requires i < |steps|
  {
    Requeues(Before(steps, i), steps[i])
  }

  predicate RecordsAt(steps: seq<Step>, i: nat)
    requires i < |steps|
  {
    Ends(Before(steps, i), steps[i], {Recorded})
  }

  // The claim is used up: its result was recorded, or it was found superseded.
  predicate SettlesAt(steps: seq<Step>, i: nat)
    requires i < |steps|
  {
    Ends(Before(steps, i), steps[i], {Recorded, Superseded})
  }

  predicate Touches(steps: seq<Step>, i: nat)
    requires i < |steps|
  {
    ClaimsAt(steps, i) || RequeuesAt(steps, i) || SettlesAt(steps, i)
  }

  // Nothing claims, requeues or settles the row strictly between the two positions.
  ghost predicate Quiet(steps: seq<Step>, lo: int, hi: nat)
    requires hi <= |steps|
  {
    forall k :: lo < k < hi && 0 <= k ==> !Touches(steps, k)
  }

  lemma PrefixRun(steps: seq<Step>, m: nat)
    requires m <= |steps|
    ensures ValidRun(steps) ==> ValidRun(steps[..m])
    ensures forall k :: 0 <= k <= m ==> Before(steps[..m], k) == Before(steps, k)
    ensures forall k :: 0 <= k < m ==> ClaimsAt(steps[..m], k) == ClaimsAt(steps, k)
    ensures forall k :: 0 <= k < m ==> RequeuesAt(steps[..m], k) == RequeuesAt(steps, k)
    ensures forall k :: 0 <= k < m ==> RecordsAt(steps[..m], k) == RecordsAt(steps, k)
    ensures forall k :: 0 <= k < m ==> SettlesAt(steps[..m], k) == SettlesAt(steps, k)
    ensures forall k :: 0 <= k < m ==> ForcedAt(steps[..m], k) == ForcedAt(steps, k)
    ensures forall k :: 0 <= k < m ==> Touches(steps[..m], k) == Touches(steps, k)
  {
    assert forall k :: 0 <= k <= m ==> steps[..m][..k] == steps[..k];
  }

  lemma QuietPrefix(steps: seq<Step>, m: nat, lo: int, hi: nat)
    requires hi <= m <= |steps|
    ensures Quiet(steps[..m], lo, hi) <==> Quiet(steps, lo, hi)
  {
    PrefixRun(steps, m);
    if Quiet(steps, lo, hi) {
      forall k | lo < k < hi && 0 <= k ensures !Touches(steps[..m], k) { assert !Touches(steps, k); }
    }
    if Quiet(steps[..m], lo, hi) {
      forall k | lo < k < hi && 0 <= k ensures !Touches(steps, k) { assert !Touches(steps[..m], k); }
    }
  }

  // Status, token and deadline agree.
  predicate Shape(r: Row) {
    && (r.status == Running <==> r.leaseToken.Some?)
    && (r.status == Running <==> r.leaseUntil.Some?)
  }

  lemma {:induction false} ShapeAlways(steps: seq<Step>)
    ensures After(steps).Some? ==> Shape(After(steps).value)
  {
    if steps != [] {
      ShapeAlways(steps[..|steps| - 1]);
    }
  }

  // Two rows alike but for their fingerprints.
  predicate SameButPrints(a: Row, b: Row) {
    b == a.(checksums := b.checksums)
  }

  lemma QuietEnqueue(row: Option<Row>, s: Step)
    requires s.Enqueue? && Apply(row, s).Some? && !Requeues(row, s)
    ensures row.Some? && SameButPrints(row.value, Apply(row, s).value)
  {
  }

  lemma QuietFinish(row: Option<Row>, s: Step)
    requires s.Finish? && Apply(row, s).Some? && !Ends(row, s, {Recorded, Superseded})
    ensures row.Some? && Apply(row, s) == row
  {
  }

  // A step that does not touch the row leaves all but its fingerprints alone.
  lemma UntouchedStep(row: Option<Row>, s: Step)
    requires Apply(row, s).Some?
    requires !Claims(row, s) && !Requeues(row, s) && !Ends(row, s, {Recorded, Superseded})
    ensures row.Some? && SameButPrints(row.value, Apply(row, s).value)
  {
    match s
    case Enqueue(_, _, _, _, _, _) => QuietEnqueue(row, s);
    case Claim(_, _) =>
    case Finish(_, _, _, _, _, _) => QuietFinish(row, s);
  }

  lemma LastStep(steps: seq<Step>)
    requires steps != []
    ensures After(steps) == Apply(Before(steps, |steps| - 1), steps[|steps| - 1])
  {
  }

  lemma UntouchedMeans(steps: seq<Step>)
    requires steps != [] && !Touches(steps, |steps| - 1)
    ensures var before, s := Before(steps, |steps| - 1), steps[|steps| - 1];
      !Claims(before, s) && !Requeues(before, s) && !Ends(before, s, {Recorded, Superseded})
  {
  }

  lemma UntouchedRow(steps: seq<Step>)
    requires steps != [] && !Touches(steps, |steps| - 1) && After(steps).Some?
    ensures Before(steps, |steps| - 1).Some? && SameButPrints(Before(steps, |steps| - 1).value, After(steps).value)
  {
    var before, s := Before(steps, |steps| - 1), steps[|steps| - 1];
    LastStep(steps);
    UntouchedMeans(steps);
    UntouchedStep(before, s);
  }

  // While the row is running its last claim is untouched and holds the token and deadline.
  lemma {:induction false} RunningSinceClaim(steps: seq<Step>) returns (j: nat)
    requires After(steps).Some? && After(steps).value.status == Running
    ensures j < |steps| && ClaimsAt(steps, j) && Quiet(steps, j, |steps|)
    ensures After(steps).value.leaseToken == Some(steps[j].token)
    ensures After(steps).value.leaseUntil == Some(steps[j].now + LEASE)
  {
    var n := |steps| - 1;
    if ClaimsAt(steps, n) {
      j := n;
    } else {
      assert !Touches(steps, n);
      UntouchedRow(steps);
      j := RunningSinceClaim(steps[..n]);
      PrefixRun(steps, n);
      QuietPrefix(steps, n, j, n);
      QuietExtends(steps, j, n);
    }
  }

  lemma QuietExtends(steps: seq<Step>, lo: int, n: nat)
    requires n < |steps| && Quiet(steps, lo, n) && !Touches(steps, n)
    ensures Quiet(steps, lo, n + 1)
  {
  }

  ghost predicate FencedBy(steps: seq<Step>, i: nat, j: nat)
    requires i < |steps|
  {
    && j < i
    && steps[i].Finish? && ClaimsAt(steps, j)
    && steps[j].token == steps[i].token
    && steps[i].now < steps[j].now + LEASE
    && Quiet(steps, j, i)
  }

  // A result is recorded only for the latest claim, before its deadline, with no requeue since.
  lemma RecordedOnlyWhileHeld(steps: seq<Step>, i: nat)
    requires i < |steps| && SettlesAt(steps, i)
    ensures exists j :: FencedBy(steps, i, j)
  {
    var j := RunningSinceClaim(steps[..i]);
    PrefixRun(steps, i);
    QuietPrefix(steps, i, j, i);
    assert FencedBy(steps, i, j);
  }

  // A token is used at most once.
  lemma RecordedOnce(steps: seq<Step>, i: nat, k: nat)
    requires ValidRun(steps) && i < k < |steps|
    requires SettlesAt(steps, i) && SettlesAt(steps, k)
    ensures steps[i].token != steps[k].token
  {
    RecordedOnlyWhileHeld(steps, i);
    RecordedOnlyWhileHeld(steps, k);
    var a :| FencedBy(steps, i, a);
    var b :| FencedBy(steps, k, b);
    if steps[i].token == steps[k].token {
      assert a == b;
      assert Touches(steps, i);
    }
  }

  // ----- Freshness -----

  ghost predicate VerifiedBy(steps: seq<Step>, r: Row, i: nat, j: nat)
    requires i < |steps|
  {
    && FencedBy(steps, i, j) && RecordsAt(steps, i)
    && Quiet(steps, i, |steps|)
    && Conclusive(steps[i].documents, steps[i].error)
    && (forall d :: d in steps[i].documents ==> d.identity == r.target)
    && steps[i].target == r.target && steps[i].job == Found(r.target, true)
    && r.projection == Some(Projection(steps[i].documents, r.target.location))
    && r.verifiedAt == Some(steps[i].now)
  }

  // Whenever the row is complete, its projection holds complete documents for its current target,
  // collected under a claim made after the last requeue, whatever caused it.
  lemma {:induction false} CompleteIsFresh(steps: seq<Step>)
    requires After(steps).Some? && After(steps).value.status == Complete
    ensures exists i, j :: 0 <= i < |steps| && VerifiedBy(steps, After(steps).value, i, j)
  {
    var n := |steps| - 1;
    if SettlesAt(steps, n) {
      RecordedOnlyWhileHeld(steps, n);
      var j :| FencedBy(steps, n, j);
      assert VerifiedBy(steps, After(steps).value, n, j);
    } else {
      assert !Touches(steps, n);
      UntouchedRow(steps);
      CompleteIsFresh(steps[..n]);
      var r := After(steps[..n]).value;
      var i, j :| 0 <= i < n && VerifiedBy(steps[..n], r, i, j);
      StillVerified(steps, r, After(steps).value, i, j);
    }
  }

  lemma StillVerified(steps: seq<Step>, r: Row, r': Row, i: nat, j: nat)
    requires i < |steps| - 1 && VerifiedBy(steps[..|steps| - 1], r, i, j)
    requires !Touches(steps, |steps| - 1) && SameButPrints(r, r')
    ensures VerifiedBy(steps, r', i, j)
  {
    var n := |steps| - 1;
    FencedPrefix(steps, n, i, j);
    QuietPrefix(steps, n, i, n);
    QuietExtends(steps, i, n);
    assert steps[..n][i] == steps[i];
  }

  lemma FencedPrefix(steps: seq<Step>, n: nat, i: nat, j: nat)
    requires i < n <= |steps| && FencedBy(steps[..n], i, j)
    ensures FencedBy(steps, i, j) && RecordsAt(steps, i) == RecordsAt(steps[..n], i)
  {
    PrefixRun(steps, n);
    QuietPrefix(steps, n, j, i);
    assert steps[..n][i] == steps[i] && steps[..n][j] == steps[j];
  }

  // Until something else forces a new check, nothing after `m` is claimable for an hour.
  ghost predicate Resting(r: Row, since: int, now: int) {
    && (r.status == Complete ==> r.verifiedAt.Some? && r.verifiedAt.value >= since)
    && (r.status != Complete ==> r.availableAt >= since + HOUR)
    && (r.status == Running ==> r.availableAt <= now)
  }

  lemma RestingEnqueue(r: Row, s: Step, since: int, before: int)
    requires s.Enqueue? && Resting(r, since, before) && since <= before <= s.now && !Forces(Some(r), s)
    ensures Resting(Apply(Some(r), s).value, since, s.now)
  {
  }

  lemma RestingClaim(r: Row, s: Step, since: int, before: int)
    requires s.Claim? && Resting(r, since, before) && since <= before <= s.now
    ensures Resting(Apply(Some(r), s).value, since, s.now)
  {
  }

  lemma RestingFinish(r: Row, s: Step, since: int, before: int)
    requires s.Finish? && Resting(r, since, before) && since <= before <= s.now
    ensures Apply(Some(r), s).Some? && Resting(Apply(Some(r), s).value, since, s.now)
  {
  }

  lemma RestingStep(r: Row, s: Step, since: int, before: int)
    requires Resting(r, since, before) && since <= before <= s.now && !Forces(Some(r), s)
    ensures Apply(Some(r), s).Some? && Resting(Apply(Some(r), s).value, since, s.now)
  {
    match s
    case Enqueue(_, _, _, _, _, _) => RestingEnqueue(r, s, since, before);
    case Claim(_, _) => RestingClaim(r, s, since, before);
    case Finish(_, _, _, _, _, _) => RestingFinish(r, s, since, before);
  }

  lemma SettledRests(row: Option<Row>, s: Step)
    requires Ends(row, s, {Recorded, Superseded})
    ensures Apply(row, s).Some? && Resting(Apply(row, s).value, s.now, s.now)
  {
  }

  lemma {:induction false} RestsAfterSettling(steps: seq<Step>, m: nat)
    requires ValidRun(steps) && m < |steps| && SettlesAt(steps, m)
    requires forall k :: m < k < |steps| ==> !ForcedAt(steps, k)
    ensures After(steps).Some? && Resting(After(steps).value, steps[m].now, steps[|steps| - 1].now)
    decreases |steps|
  {
    var n := |steps| - 1;
    LastStep(steps);
    if m == n {
      SettledRests(Before(steps, n), steps[n]);
    } else {
      PrefixRun(steps, n);
      RestsAfterSettling(steps[..n], m);
      assert !ForcedAt(steps, n);
      RestingStep(Before(steps, n).value, steps[n], steps[m].now, steps[n - 1].now);
    }
  }

  // Two claims with no forced requeue between them are an hour apart, or the first one's lease ran
  // out unsettled.
  lemma ClaimsAreSpaced(steps: seq<Step>, j: nat, k: nat)
    requires ValidRun(steps) && j < k < |steps| && ClaimsAt(steps, j) && ClaimsAt(steps, k)
    requires forall i :: j < i < k ==> !ForcedAt(steps, i)
    ensures steps[k].now >= steps[j].now + HOUR
      || (steps[k].now >= steps[j].now + LEASE && forall i :: j < i < k ==> !(SettlesAt(steps, i) && steps[i].token == steps[j].token))
  {
    if m :| j < m < k && SettlesAt(steps, m) && steps[m].token == steps[j].token {
      PrefixRun(steps, k);
      RestsAfterSettling(steps[..k], m);
    } else {
      LeaseRunsOut(steps, j, k);
    }
  }

  // With the first claim unsettled and nothing forced, only its expired deadline frees the row.
  lemma {:induction false} LeaseRunsOut(steps: seq<Step>, j: nat, k: nat)
    requires ValidRun(steps) && j < k < |steps| && ClaimsAt(steps, j) && ClaimsAt(steps, k)
    requires forall i :: j < i < k ==> !ForcedAt(steps, i)
    requires forall i :: j < i < k ==> !(SettlesAt(steps, i) && steps[i].token == steps[j].token)
    ensures steps[k].now >= steps[j].now + LEASE
  {
    HeldUntilDeadline(steps, j, k);
  }

  lemma {:induction false} HeldUntilDeadline(steps: seq<Step>, j: nat, n: nat)
    requires ValidRun(steps) && j < n < |steps| && ClaimsAt(steps, j)
    requires forall i :: j < i < n ==> !ForcedAt(steps, i)
    requires forall i :: j < i < n ==> !(SettlesAt(steps, i) && steps[i].token == steps[j].token)
    ensures steps[n].now >= steps[j].now + LEASE
      || (Before(steps, n).Some? && Before(steps, n).value.status == Running
          && Before(steps, n).value.leaseToken == Some(steps[j].token)
          && Before(steps, n).value.leaseUntil == Some(steps[j].now + LEASE))
    decreases n
  {
    var m := n - 1;
    assert steps[..n][..m] == steps[..m] && steps[..n][m] == steps[m];
    assert Before(steps, n) == Apply(Before(steps, m), steps[m]);
    if j < m {
      HeldUntilDeadline(steps, j, m);
      assert steps[m].now <= steps[n].now;
      if steps[n].now < steps[j].now + LEASE {
        var r := Before(steps, m).value;
        assert Active(r, steps[m].now);
        assert !ForcedAt(steps, m);
        assert !Ends(Before(steps, m), steps[m], {Recorded, Superseded}) by {
          if SettlesAt(steps, m) { assert steps[m].token != steps[j].token; }
        }
      }
    }
  }

  // ----- What a step keeps -----

  // A check that ends without an answer destroys no verified evidence.
  lemma EvidenceSurvives(row: Row, s: Step)
    requires s.Finish? && FinishOutcome(Some(row), s.token, s.target, s.job, s.documents, s.now) != Fenced
    requires !Conclusive(s.documents, s.error) || Apply(Some(row), s).value.status != Complete
    requires row.projection.Some?
    ensures Apply(Some(row), s).Some? && Apply(Some(row), s).value.projection == row.projection
    ensures Apply(Some(row), s).value.verifiedAt == row.verifiedAt
  {
  }

  // What the backfill's query selects among the rows of open jobs.
  predicate BackfillSelects(row: Option<Row>, now: int) {
    row.None?
    || (row.value.status !in {Queued, Running} && row.value.availableAt <= now
        && row.value.requestedAt <= now - HOUR && Expired(row.value, now))
  }

  // Every row the backfill selects is queued by it, so what it counts was queued.
  lemma BackfillQueues(row: Option<Row>, target: Target, now: int)
    requires BackfillSelects(row, now)
    ensures var after := EnqueueRow(row, true, target, false, false, None, now);
      after.Some? && after.value.status == Queued && after.value.target == target && Claimable(after.value, now)
  {
  }
}
