/** When a job is excluded, kept for review or matched, told from the profile and the row alone. */
module ScreeningRecords {
  import opened Prelude
  import opened Screening
  import opened ScreeningSql

  // ----- What is asked, and of what -----

  predicate AsksForSomething(p: Requirements) {
    p.authorization != None || p.futureSponsorship || |p.accepted| > 0 || p.internshipHourly != None || p.newGradAnnual != None
  }

  predicate AsksAboutStatus(p: Requirements) {
    p.authorization == Some(Cpt) || p.authorization == Some(Opt) || p.authorization == Some(StemOpt) || p.futureSponsorship
  }

  // Evidence for the job as it is now, complete, of the current rules, on a US role, under a day old.
  predicate FreshRow(row: Row, now: int) {
    row.check.Some? && row.check.value.projection.Some?
    && var (check, d) := (row.check.value, row.check.value.projection.value);
    && check.status == "complete" && d.version == Some("rules-1") && d.usRole == Some(true)
    && check.verifiedAt.Some? && now < check.verifiedAt.value + 24 * HOUR
    && check.target == Target(row.job.url, row.job.location, Some(row.job.title))
  }

  // ----- Policies -----

  predicate Says(d: Projection, key: string, value: string) {
    key in d.policies && d.policies[key] == Some(value)
  }

  predicate Silent(d: Projection, key: string) {
    key in d.policies ==> d.policies[key] == Some("unknown")
  }

  predicate StatusSays(p: Requirements, d: Projection, value: string) {
    (p.authorization == Some(Cpt) && Says(d, "cpt", value)) || (p.authorization == Some(Opt) && Says(d, "opt", value))
    || (p.authorization == Some(StemOpt) && Says(d, "stem_opt", value))
  }

  // The employer filed or was granted an H-1B petition in 2023 or later.
  ghost predicate FiledRecently(records: Option<seq<EmployerRecord>>) {
    records.Some? && exists r :: r in records.value && (r.kind == "h1b_filings" || r.kind == "h1b_approvals") && r.count >= 1 && r.year >= 2023
  }

  ghost predicate NoSponsorship(d: Projection) {
    Says(d, "future_sponsorship", "denied") || (Silent(d, "future_sponsorship") && Says(d, "sponsorship", "denied"))
  }

  ghost predicate Sponsorship(d: Projection, records: Option<seq<EmployerRecord>>) {
    Says(d, "future_sponsorship", "allowed")
    || (Silent(d, "future_sponsorship") && |d.restrictions| == 0
        && (Says(d, "sponsorship", "allowed") || (Silent(d, "sponsorship") && FiledRecently(records))))
  }

  // ----- Pay -----

  function Floor(p: Requirements, kind: Kind): Option<real> {
    match kind
    case Internship => p.internshipHourly
    case NewGrad => p.newGradAnnual
  }

  // Base pay, by the hour for an internship and by the year otherwise, in the profile's currency, in the
  // US, and where the profile accepts to work.
  predicate Counts(p: Requirements, kind: Kind, pay: Pay) {
    && pay.component == Some("base") && pay.interval == Some(if kind == Internship then "hour" else "year")
    && pay.currency == Some(p.currency) && pay.us == Some(true)
    && (|p.accepted| > 0 ==> pay.locationKey.Some? && pay.locationKey.value in p.accepted)
  }

  ghost predicate SomeBound(p: Requirements, kind: Kind, d: Projection) {
    exists pay :: pay in d.compensation && Counts(p, kind, pay) && (pay.minimum.Some? || pay.maximum.Some?)
  }

  // Every range that counts tops out below the floor.
  ghost predicate AllCapped(p: Requirements, kind: Kind, d: Projection, floor: real) {
    forall pay :: pay in d.compensation && Counts(p, kind, pay) ==> pay.maximum.Some? && pay.maximum.value < floor
  }

  // No range that counts is seen to reach the floor, but some may, for want of a maximum.
  ghost predicate MayReach(p: Requirements, kind: Kind, d: Projection, floor: real) {
    && (exists pay :: pay in d.compensation && Counts(p, kind, pay) && pay.maximum == None)
    && forall pay :: pay in d.compensation && Counts(p, kind, pay) ==>
         if pay.maximum.Some? then pay.maximum.value < floor else pay.minimum.Some? ==> pay.minimum.value < floor
  }

  ghost predicate PayTooLow(p: Requirements, kind: Kind, d: Projection) {
    Floor(p, kind).Some? && d.payConflicting != Some(true) && SomeBound(p, kind, d) && AllCapped(p, kind, d, Floor(p, kind).value)
  }

  ghost predicate PayDoubtful(p: Requirements, kind: Kind, d: Projection) {
    Floor(p, kind).Some? && (d.payConflicting == Some(true) || !SomeBound(p, kind, d) || MayReach(p, kind, d, Floor(p, kind).value))
  }

  lemma CountsIs(p: Requirements, kind: Kind, pay: Pay)
    ensures Counts(p, kind, pay) <==> Applicable(p, kind, pay)
  {
  }

  lemma PayExactly(p: Requirements, kind: Kind, d: Projection)
    ensures PayBelow(p, kind, d) <==> PayTooLow(p, kind, d)
    ensures PayUnclear(p, kind, d) <==> PayDoubtful(p, kind, d)
  {
    forall pay ensures Counts(p, kind, pay) <==> Applicable(p, kind, pay) { CountsIs(p, kind, pay); }
    if Floor(p, kind).Some? {
      BoundsExactly(p, kind, d);
      CappedExactly(p, kind, d, Floor(p, kind).value);
      MayReachExactly(p, kind, d, Floor(p, kind).value);
    }
  }

  lemma BoundsExactly(p: Requirements, kind: Kind, d: Projection)
    ensures SomeBound(p, kind, d) <==> PayStated(p, kind, d)
  {
    forall pay ensures Counts(p, kind, pay) <==> Applicable(p, kind, pay) { CountsIs(p, kind, pay); }
    if SomeBound(p, kind, d) {
      var pay :| pay in d.compensation && Counts(p, kind, pay) && (pay.minimum.Some? || pay.maximum.Some?);
      assert Amount(pay).Some?;
    }
  }

  lemma CappedExactly(p: Requirements, kind: Kind, d: Projection, floor: real)
    ensures AllCapped(p, kind, d, floor) <==> !PayReaches(p, kind, d, floor) && !PayOpenEnded(p, kind, d)
  {
    forall pay ensures Counts(p, kind, pay) <==> Applicable(p, kind, pay) { CountsIs(p, kind, pay); }
    if !PayReaches(p, kind, d, floor) && !PayOpenEnded(p, kind, d) {
      forall pay | pay in d.compensation && Counts(p, kind, pay) ensures pay.maximum.Some? && pay.maximum.value < floor {
        assert Amount(pay) == pay.maximum;
      }
    }
  }

  lemma MayReachExactly(p: Requirements, kind: Kind, d: Projection, floor: real)
    ensures MayReach(p, kind, d, floor) <==> !PayReaches(p, kind, d, floor) && PayOpenEnded(p, kind, d)
  {
    forall pay ensures Counts(p, kind, pay) <==> Applicable(p, kind, pay) { CountsIs(p, kind, pay); }
    if !PayReaches(p, kind, d, floor) {
      forall pay | pay in d.compensation && Counts(p, kind, pay)
        ensures if pay.maximum.Some? then pay.maximum.value < floor else pay.minimum.Some? ==> pay.minimum.value < floor
      {
        assert Amount(pay) == if pay.maximum.Some? then pay.maximum else pay.minimum;
      }
    }
  }

  // ----- The verdict -----

  // What rules a job out: a restriction where status matters, a status or sponsorship denied, pay below
  // the floor.
  ghost predicate Obstacle(p: Requirements, d: Projection, kind: Kind) {
    || (AsksAboutStatus(p) && exists key :: key in d.restrictions && d.restrictions[key] == Some("required"))
    || StatusSays(p, d, "denied")
    || (p.futureSponsorship && NoSponsorship(d))
    || PayTooLow(p, kind, d)
  }

  // What leaves a question open.
  ghost predicate Doubt(p: Requirements, d: Projection, kind: Kind, records: Option<seq<EmployerRecord>>) {
    || (AsksAboutStatus(p) && exists key :: key in d.restrictions && d.restrictions[key] != Some("required"))
    || ((p.authorization == Some(Cpt) || p.authorization == Some(Opt) || p.authorization == Some(StemOpt))
        && !StatusSays(p, d, "allowed") && !StatusSays(p, d, "denied"))
    || (p.futureSponsorship && !NoSponsorship(d) && !Sponsorship(d, records))
    || (|p.accepted| > 0 && (d.locationKey == None || d.locationKey.value !in p.accepted))
    || PayDoubtful(p, kind, d)
  }

  lemma StatusExactly(p: Requirements, d: Projection)
    ensures AsksAboutStatus(p) <==> NeedsWorkAuthorization(p)
    ensures NamesStatus(p) <==> p.authorization == Some(Cpt) || p.authorization == Some(Opt) || p.authorization == Some(StemOpt)
    ensures StatusSays(p, d, "denied") <==> NamesStatus(p) && PolicyValue(d, PolicyKey(p.authorization.value)) == Some("denied")
    ensures StatusSays(p, d, "allowed") <==> NamesStatus(p) && PolicyValue(d, PolicyKey(p.authorization.value)) == Some("allowed")
  {
    if p.authorization.Some? {
      match p.authorization.value {
        case Cpt =>
        case Opt =>
        case StemOpt =>
        case Unrestricted =>
      }
    }
  }

  lemma FiledExactly(records: Option<seq<EmployerRecord>>)
    ensures FiledRecently(records) <==> SponsoredRecently(records)
  {
    if FiledRecently(records) {
      var r :| r in records.value && (r.kind == "h1b_filings" || r.kind == "h1b_approvals") && r.count >= 1 && r.year >= 2023;
      assert H1bRecord(r);
    }
  }

  lemma SponsorshipExactly(d: Projection, records: Option<seq<EmployerRecord>>)
    ensures NoSponsorship(d) <==> FutureDenied(d)
    ensures Sponsorship(d, records) <==> FutureSupported(d, records)
  {
    FiledExactly(records);
    assert |d.restrictions| == 0 <==> d.restrictions == map[];
  }

  lemma BlockedExactly(p: Requirements, d: Projection, kind: Kind, records: Option<seq<EmployerRecord>>)
    ensures Obstacle(p, d, kind) <==> Blocked(p, d, kind, records)
  {
    StatusExactly(p, d);
    SponsorshipExactly(d, records);
    PayExactly(p, kind, d);
  }

  lemma UnsettledExactly(p: Requirements, d: Projection, kind: Kind, records: Option<seq<EmployerRecord>>)
    ensures Doubt(p, d, kind, records) <==> Unsettled(p, d, kind, records)
  {
    StatusExactly(p, d);
    SponsorshipExactly(d, records);
    PayExactly(p, kind, d);
  }

  lemma FreshExactly(row: Row, now: int)
    ensures FreshRow(row, now) <==>
      Fresh(DataOf(row), if row.check.Some? then Some(row.check.value.status) else None,
            if row.check.Some? then row.check.value.verifiedAt else None, now, TargetCurrent(row))
  {
  }

  ghost predicate Assessed(profile: Option<Requirements>, row: Row, now: int) {
    !row.job.closed && profile.Some? && AsksForSomething(profile.value) && FreshRow(row, now)
  }

  // A job is excluded exactly when it is closed, or there is fresh evidence of an obstacle; it matches
  // exactly when there is fresh evidence of no obstacle and no doubt; anything else is left for review.
  lemma VerdictExactly(profile: Option<Requirements>, row: Row, now: int)
    ensures VerdictOf(profile, row, now) == Excluded
            <==> row.job.closed || (Assessed(profile, row, now) && Obstacle(profile.value, DataOf(row), row.job.kind))
    ensures VerdictOf(profile, row, now) == Matches
            <==> Assessed(profile, row, now) && !Obstacle(profile.value, DataOf(row), row.job.kind)
                 && !Doubt(profile.value, DataOf(row), row.job.kind, row.records)
  {
    FreshExactly(row, now);
    if profile.Some? {
      BlockedExactly(profile.value, DataOf(row), row.job.kind, row.records);
      UnsettledExactly(profile.value, DataOf(row), row.job.kind, row.records);
    }
  }

  // The compiled SQL answers the same question of every well-formed row.
  lemma SqlExactly(profile: Option<Requirements>, row: Row, now: int)
    requires WellFormed(profile, row)
    ensures BucketOf(Compiled(profile, now), row) == Excluded
            <==> row.job.closed || (Assessed(profile, row, now) && Obstacle(profile.value, DataOf(row), row.job.kind))
    ensures BucketOf(Compiled(profile, now), row) == Matches
            <==> Assessed(profile, row, now) && !Obstacle(profile.value, DataOf(row), row.job.kind)
                 && !Doubt(profile.value, DataOf(row), row.job.kind, row.records)
  {
    SqlAgrees(profile, row, now);
    VerdictExactly(profile, row, now);
  }
}
