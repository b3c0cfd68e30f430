/** What one transaction leaves in an evidence row, field by field. */
module EvidenceRecords {
  import opened Prelude
  import opened EvidenceQueue
  import EvidenceRuns

  const SOURCES: set<string> :=
    {"amazon", "applyguy_internships", "applyguy_new_grad", "github_markdown", "greenhouse", "lever", "meta", "simplify", "workday"}

  // The last verification, if any, is at least this old.
  predicate Unverified(r: Row, age: int, now: int) {
    r.verifiedAt.Some? ==> r.verifiedAt.value + age <= now
  }

  predicate Untaken(r: Row, now: int) {
    r.status != Queued && !(r.status == Running && r.leaseUntil.Some? && now < r.leaseUntil.value)
  }

  // Why an open job's check is wanted again: its target changed; a recognised source reports other
  // details than last time, or the caller insists and no recognised source speaks; or nobody holds the
  // row, it is available, and it was not verified for a day, or for an hour and a refresh is asked for.
  predicate WantedAgain(r: Row, target: Target, refresh: bool, invalidate: bool, seen: Option<Observation>, now: int) {
    || r.target != target
    || (seen.Some? && seen.value.source in SOURCES
        && !(seen.value.source in r.checksums && r.checksums[seen.value.source] == seen.value.fingerprint))
    || (invalidate && (seen.None? || seen.value.source !in SOURCES))
    || (Untaken(r, now) && r.availableAt <= now && (Unverified(r, 24 * HOUR, now) || (refresh && Unverified(r, HOUR, now))))
  }

  function PrintsAfter(r: Row, seen: Option<Observation>): map<string, string> {
    if seen.Some? && seen.value.source in SOURCES then r.checksums[seen.value.source := seen.value.fingerprint] else r.checksums
  }

  // A wanted check is queued for the target, from now, with claim and error cleared; the evidence it
  // holds stays. A check not wanted changes in its fingerprints only.
  lemma EnqueueExactly(r: Row, target: Target, refresh: bool, invalidate: bool, seen: Option<Observation>, now: int)
    ensures EnqueueRow(Some(r), true, target, refresh, invalidate, seen, now) == Some(
      if WantedAgain(r, target, refresh, invalidate, seen, now) then
        Row(target, Queued, now, now, None, None, r.checkedAt, r.verifiedAt, r.projection, PrintsAfter(r, seen), None, r.attempts)
      else r.(checksums := PrintsAfter(r, seen)))
    ensures EnqueueRow(Some(r), false, target, refresh, invalidate, seen, now) == Some(r)
  {
    assert SOURCES == RECOGNIZED;
  }

  // A job without a row gets a queued one; a closed job none.
  lemma FirstEnqueue(target: Target, refresh: bool, invalidate: bool, seen: Option<Observation>, now: int)
    ensures var row := EnqueueRow(None, true, target, refresh, invalidate, seen, now);
      && row.Some? && row.value.checksums == (if seen.Some? && seen.value.source in SOURCES
                                              then map[seen.value.source := seen.value.fingerprint] else map[])
      && row.value == Row(target, Queued, now, now, None, None, None, None, None, row.value.checksums, None, 0)
    ensures EnqueueRow(None, false, target, refresh, invalidate, seen, now) == None
  {
    assert SOURCES == RECOGNIZED;
  }

  // The backfill picks the rows that a plain enqueue would queue again, but for those still marked
  // running and those asked for within the hour.
  lemma BackfillExactly(r: Row, now: int)
    ensures EvidenceRuns.BackfillSelects(None, now)
    ensures EvidenceRuns.BackfillSelects(Some(r), now)
            <==> WantedAgain(r, r.target, false, false, None, now) && r.status != Running && r.requestedAt + HOUR <= now
  {
  }

  // A row is handed out exactly when it is available and either queued or abandoned by its holder, for
  // ninety seconds under the new token.
  lemma ClaimExactly(r: Row, token: nat, now: int)
    ensures ClaimRow(r, token, now) ==
      if r.availableAt <= now && (r.status == Queued || (r.status == Running && r.leaseUntil.Some? && r.leaseUntil.value <= now)) then
        Row(r.target, Running, r.requestedAt, r.availableAt, Some(token), Some(now + 90 * SECOND), r.checkedAt, r.verifiedAt,
            r.projection, r.checksums, r.errorCode, r.attempts + 1)
      else r
    ensures Claimable(r, now) <==> ClaimRow(r, token, now) != r
  {
  }

  // ----- Finishing -----

  predicate Held(r: Row, token: nat, now: int) {
    r.status == Running && r.leaseToken == Some(token) && r.leaseUntil.Some? && now < r.leaseUntil.value
  }

  predicate StillAsked(r: Row, target: Target, job: JobNow) {
    job == Found(target, true) && r.target == target
  }

  predicate Foreign(documents: seq<Document>, target: Target) {
    exists i :: 0 <= i < |documents| && documents[i].identity != target
  }

  predicate Answered(documents: seq<Document>, error: Option<string>) {
    error == None && |documents| > 0 && forall i :: 0 <= i < |documents| ==> documents[i].complete
  }

  predicate IsBarrier(error: Option<string>) {
    error == Some("verification_barrier") || error == Some("employer_not_reviewed")
    || error == Some("identity_mismatch") || error == Some("role_scope_unverified")
  }

  lemma ForeignIs(documents: seq<Document>, target: Target)
    ensures Foreign(documents, target) <==> Mismatch(documents, target)
  {
    if Mismatch(documents, target) { var d :| d in documents && d.identity != target; }
  }

  lemma AnsweredIs(documents: seq<Document>, error: Option<string>)
    ensures Answered(documents, error) <==> Conclusive(documents, error)
  {
    if Answered(documents, error) { assert forall d :: d in documents ==> d.complete; }
  }

  // A late or foreign caller, a job that is gone, or a foreign document: nothing changes.
  lemma FinishRefused(r: Row, token: nat, target: Target, job: JobNow, documents: seq<Document>, error: Option<string>, now: int)
    ensures var outcome := FinishOutcome(Some(r), token, target, job, documents, now);
      && (outcome == Fenced <==> job.Missing? || !Held(r, token, now))
      && (outcome == Mismatched <==> Held(r, token, now) && StillAsked(r, target, job) && Foreign(documents, target))
      && (outcome == Fenced || outcome == Mismatched ==> FinishRow(Some(r), token, target, job, documents, error, now) == Some(r))
  {
    ForeignIs(documents, target);
  }

  // A check whose job moved on is given up for an hour.
  lemma FinishSuperseded(r: Row, token: nat, target: Target, job: JobNow, documents: seq<Document>, error: Option<string>, now: int)
    requires Held(r, token, now) && job.Found? && !StillAsked(r, target, job)
    ensures FinishOutcome(Some(r), token, target, job, documents, now) == Superseded
    ensures FinishRow(Some(r), token, target, job, documents, error, now) == Some(
      Row(r.target, Blocked, r.requestedAt, now + HOUR, None, None, r.checkedAt, r.verifiedAt, r.projection, r.checksums,
          Some("target_changed"), r.attempts))
  {
  }

  // An answer replaces the projection and is dated now.
  lemma FinishAnswered(r: Row, token: nat, target: Target, job: JobNow, documents: seq<Document>, error: Option<string>, now: int)
    requires Held(r, token, now) && StillAsked(r, target, job) && !Foreign(documents, target) && Answered(documents, error)
    ensures FinishOutcome(Some(r), token, target, job, documents, now) == Recorded
    ensures FinishRow(Some(r), token, target, job, documents, error, now) == Some(
      Row(r.target, Complete, r.requestedAt, now, None, None, Some(now), Some(now),
          Some(Projection(documents, target.location)), r.checksums, None, r.attempts))
  {
    ForeignIs(documents, target);
    AnsweredIs(documents, error);
  }

  // Without an answer the check rests for an hour, says why, and fills the projection only if it was empty.
  lemma FinishUnanswered(r: Row, token: nat, target: Target, job: JobNow, documents: seq<Document>, error: Option<string>, now: int)
    requires Held(r, token, now) && StillAsked(r, target, job) && !Foreign(documents, target) && !Answered(documents, error)
    ensures FinishOutcome(Some(r), token, target, job, documents, now) == Recorded
    ensures var after := FinishRow(Some(r), token, target, job, documents, error, now);
      && after.Some?
      && after.value == Row(r.target, after.value.status, r.requestedAt, now + HOUR, None, None, Some(now), r.verifiedAt,
                            after.value.projection, r.checksums, Some(if error.Some? then error.value else "incomplete_documents"), r.attempts)
      && (after.value.status == Partial <==> |documents| > 0)
      && (after.value.status == Blocked <==> |documents| == 0 && IsBarrier(error))
      && (after.value.status == Failed <==> after.value.status != Partial && after.value.status != Blocked)
      && after.value.projection ==
           (if r.projection.Some? || |documents| == 0 then r.projection else Some(Projection(documents, target.location)))
  {
    ForeignIs(documents, target);
    AnsweredIs(documents, error);
  }
}
