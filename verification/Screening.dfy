/** One private requirement profile, screened twice: by `Evaluate` in program code and by a SQL
    CASE that `BucketExpression` compiles ahead of any row. Both are tied to `Verdict`. */
module Screening {
  import opened Prelude

  const VERSION := "rules-1"
  const MIN_ACTIVE_H1B_YEAR := 2023
  const CITIZENSHIP := "citizenship_required"
  const PERMANENT := "permanent_authorization_required"

  datatype Bucket = Matches | Review | Excluded
  datatype Kind = Internship | NewGrad
  datatype Authorization = Cpt | Opt | StemOpt | Unrestricted

  // `accepted` holds the location keys of the profile's locations.
  datatype Requirements = Requirements(
    authorization: Option<Authorization>,
    futureSponsorship: bool,
    accepted: seq<string>,
    internshipHourly: Option<real>,
    newGradAnnual: Option<real>,
    currency: string)

  // A missing JSON member and a JSON null are both None, and `restrictions` keeps each entry's
  // "value". A policy without one is absent from `policies`; one whose "value" is null is None there.
  datatype Pay = Pay(
    component: Option<string>,
    interval: Option<string>,
    currency: Option<string>,
    us: Option<bool>,
    locationKey: Option<string>,
    minimum: Option<real>,
    maximum: Option<real>)

  datatype Projection = Projection(
    version: Option<string>,
    usRole: Option<bool>,
    locationKey: Option<string>,
    policies: map<string, Option<string>>,
    restrictions: map<string, Option<string>>,
    compensation: seq<Pay>,
    payConflicting: Option<bool>)

  datatype EmployerRecord = EmployerRecord(kind: string, year: int, count: int)
  datatype Job = Job(closed: bool, url: string, location: string, title: string, kind: Kind)
  datatype Target = Target(url: string, location: string, title: Option<string>)
  datatype Check = Check(status: string, projection: Option<Projection>, verifiedAt: Option<int>, target: Target)

  // A job outer-joined with its evidence check and its employer's records.
  datatype Row = Row(job: Job, check: Option<Check>, records: Option<seq<EmployerRecord>>)

  const NO_DATA := Projection(None, None, None, map[], map[], [], None)

  predicate Configured(p: Requirements) {
    p.authorization.Some? || p.futureSponsorship || p.accepted != []
    || p.internshipHourly.Some? || p.newGradAnnual.Some?
  }

  function FloorFor(p: Requirements, kind: Kind): Option<real> {
    if kind.Internship? then p.internshipHourly else p.newGradAnnual
  }

  function PeriodFor(kind: Kind): string {
    if kind.Internship? then "hour" else "year"
  }

  function PolicyKey(a: Authorization): string {
    match a
    case Cpt => "cpt"
    case Opt => "opt"
    case StemOpt => "stem_opt"
    case Unrestricted => "unrestricted"
  }

  predicate NamesStatus(p: Requirements) {
    p.authorization.Some? && p.authorization.value != Unrestricted
  }

  predicate NeedsWorkAuthorization(p: Requirements) {
    NamesStatus(p) || p.futureSponsorship
  }

  // The default stands in for a missing value, not for a null one.
  function PolicyValue(d: Projection, key: string): Option<string> {
    if key in d.policies then d.policies[key] else Some("unknown")
  }

  predicate H1bRecord(r: EmployerRecord) {
    r.kind in ["h1b_filings", "h1b_approvals"] && r.count >= 1
  }

  ghost predicate SponsoredRecently(records: Option<seq<EmployerRecord>>) {
    records.Some? && exists r :: r in records.value && H1bRecord(r) && r.year >= MIN_ACTIVE_H1B_YEAR
  }

  // ----- What a verdict means -----

  predicate Applicable(p: Requirements, kind: Kind, pay: Pay) {
    pay.component == Some("base") && pay.interval == Some(PeriodFor(kind))
    && pay.currency == Some(p.currency) && pay.us == Some(true)
    && (p.accepted == [] || (pay.locationKey.Some? && pay.locationKey.value in p.accepted))
  }

  function Amount(pay: Pay): Option<real> {
    if pay.maximum.Some? then pay.maximum else pay.minimum
  }

  ghost predicate PayStated(p: Requirements, kind: Kind, d: Projection) {
    exists pay :: pay in d.compensation && Applicable(p, kind, pay) && Amount(pay).Some?
  }

  ghost predicate PayReaches(p: Requirements, kind: Kind, d: Projection, floor: real) {
    exists pay :: pay in d.compensation && Applicable(p, kind, pay) && Amount(pay).Some? && Amount(pay).value >= floor
  }

  ghost predicate PayOpenEnded(p: Requirements, kind: Kind, d: Projection) {
    exists pay :: pay in d.compensation && Applicable(p, kind, pay) && pay.maximum.None?
  }

  ghost predicate PayBelow(p: Requirements, kind: Kind, d: Projection) {
    var floor := FloorFor(p, kind);
    floor.Some? && d.payConflicting != Some(true) && PayStated(p, kind, d)
    && !PayReaches(p, kind, d, floor.value) && !PayOpenEnded(p, kind, d)
  }

  ghost predicate PayUnclear(p: Requirements, kind: Kind, d: Projection) {
    var floor := FloorFor(p, kind);
    floor.Some?
    && (d.payConflicting == Some(true) || !PayStated(p, kind, d)
        || (!PayReaches(p, kind, d, floor.value) && PayOpenEnded(p, kind, d)))
  }

  ghost predicate Required(d: Projection) {
    exists key :: key in d.restrictions && d.restrictions[key] == Some("required")
  }

  ghost predicate Qualified(d: Projection) {
    exists key :: key in d.restrictions && d.restrictions[key] != Some("required")
  }

  ghost predicate FutureDenied(d: Projection) {
    var future := PolicyValue(d, "future_sponsorship");
    future == Some("denied") || (future == Some("unknown") && PolicyValue(d, "sponsorship") == Some("denied"))
  }

  ghost predicate FutureSupported(d: Projection, records: Option<seq<EmployerRecord>>) {
    var future, current := PolicyValue(d, "future_sponsorship"), PolicyValue(d, "sponsorship");
    future == Some("allowed")
    || (future == Some("unknown") && d.restrictions == map[]
        && (current == Some("allowed") || (current == Some("unknown") && SponsoredRecently(records))))
  }

  ghost predicate Blocked(p: Requirements, d: Projection, kind: Kind, records: Option<seq<EmployerRecord>>) {
    || (NeedsWorkAuthorization(p) && Required(d))
    || (NamesStatus(p) && PolicyValue(d, PolicyKey(p.authorization.value)) == Some("denied"))
    || (p.futureSponsorship && FutureDenied(d))
    || PayBelow(p, kind, d)
  }

  ghost predicate Unsettled(p: Requirements, d: Projection, kind: Kind, records: Option<seq<EmployerRecord>>) {
    || (NeedsWorkAuthorization(p) && Qualified(d))
    || (NamesStatus(p) && PolicyValue(d, PolicyKey(p.authorization.value)) !in [Some("allowed"), Some("denied")])
    || (p.futureSponsorship && !FutureDenied(d) && !FutureSupported(d, records))
    || (p.accepted != [] && !(d.locationKey.Some? && d.locationKey.value in p.accepted))
    || PayUnclear(p, kind, d)
  }

  predicate Fresh(d: Projection, status: Option<string>, verifiedAt: Option<int>, now: int, targetCurrent: bool) {
    d.usRole == Some(true) && status == Some("complete") && d.version == Some(VERSION)
    && verifiedAt.Some? && targetCurrent && verifiedAt.value > now - 24 * HOUR
  }

  // A closed job is excluded; without fresh evidence nothing can be said; otherwise a stated
  // obstacle excludes, an open question asks for review, and only then does the job match.
  ghost function Verdict(profile: Option<Requirements>, data: Option<Projection>, kind: Kind,
                         status: Option<string>, verifiedAt: Option<int>, now: int, closed: bool,
                         targetCurrent: bool, records: Option<seq<EmployerRecord>>): Bucket
  {
    var d := data.GetOr(NO_DATA);
    if closed then Excluded
    else if profile.None? || !Configured(profile.value) then Review
    else if !Fresh(d, status, verifiedAt, now, targetCurrent) then Review
    else if Blocked(profile.value, d, kind, records) then Excluded
    else if Unsettled(profile.value, d, kind, records) then Review
    else Matches
  }

  predicate TargetCurrent(row: Row) {
    row.check.Some?
    && row.check.value.target.url == row.job.url
    && row.check.value.target.location == row.job.location
    && row.check.value.target.title == Some(row.job.title)
  }

  ghost function VerdictOf(profile: Option<Requirements>, row: Row, now: int): Bucket {
    Verdict(profile,
            if row.check.Some? then row.check.value.projection else None,
            row.job.kind,
            if row.check.Some? then Some(row.check.value.status) else None,
            if row.check.Some? then row.check.value.verifiedAt else None,
            now, row.job.closed, TargetCurrent(row), row.records)
  }

  // ----- The program's own evaluation -----

  datatype Reason =
    | Closed | Unconfigured | NotUs | NotChecked | Unverified | Stale
    | Citizenship | RestrictionReview | AuthorizationAllowed | AuthorizationDenied | AuthorizationUnknown
    | SponsorshipAllowed | SponsorshipDenied | SponsorshipFromFilings(total: int, latest: int) | SponsorshipUnclear
    | ConfirmLocation | PayUnstated | PayMeetsFloor | PayStartsBelow | PayMaximumBelow

  // When each of the reasons holds of a fully assessed job.
  ghost predicate Given(p: Requirements, d: Projection, kind: Kind, records: Option<seq<EmployerRecord>>, r: Reason) {
    AuthorizationGiven(p, d, r) || (p.futureSponsorship && SponsorshipGiven(d, records, r)) || OfferGiven(p, d, kind, r)
  }

  ghost predicate AuthorizationGiven(p: Requirements, d: Projection, r: Reason) {
    match r
    case Citizenship => NeedsWorkAuthorization(p) && Required(d)
    case RestrictionReview => NeedsWorkAuthorization(p) && Qualified(d)
    case AuthorizationAllowed => NamesStatus(p) && PolicyValue(d, PolicyKey(p.authorization.value)) == Some("allowed")
    case AuthorizationDenied => NamesStatus(p) && PolicyValue(d, PolicyKey(p.authorization.value)) == Some("denied")
    case AuthorizationUnknown =>
      NamesStatus(p) && PolicyValue(d, PolicyKey(p.authorization.value)) !in [Some("allowed"), Some("denied")]
    case _ => false
  }

  ghost predicate SponsorshipGiven(d: Projection, records: Option<seq<EmployerRecord>>, r: Reason) {
    match r
    case SponsorshipAllowed => FutureSupported(d, None)
    case SponsorshipDenied => FutureDenied(d)
    case SponsorshipFromFilings(total, latest) =>
      FutureSupported(d, records) && !FutureSupported(d, None) && IsSummary(records, total, latest)
    case SponsorshipUnclear => !FutureDenied(d) && !FutureSupported(d, records)
    case _ => false
  }

  // The certified filings on record, and the latest year with any.
  ghost predicate IsSummary(records: Option<seq<EmployerRecord>>, total: int, latest: int) {
    && records.Some? && total == Filings(records.value)
    && (forall e :: e in records.value && H1bRecord(e) ==> e.year <= latest)
    && exists e :: e in records.value && H1bRecord(e) && e.year == latest
  }

  ghost predicate OfferGiven(p: Requirements, d: Projection, kind: Kind, r: Reason) {
    match r
    case ConfirmLocation => p.accepted != [] && !(d.locationKey.Some? && d.locationKey.value in p.accepted)
    case _ => FloorFor(p, kind).Some? && PayGiven(p, d, kind, FloorFor(p, kind).value, r)
  }

  ghost predicate PayGiven(p: Requirements, d: Projection, kind: Kind, floor: real, r: Reason) {
    match r
    case PayUnstated => d.payConflicting == Some(true) || !PayStated(p, kind, d)
    case PayMeetsFloor => d.payConflicting != Some(true) && PayReaches(p, kind, d, floor)
    case PayStartsBelow =>
      d.payConflicting != Some(true) && PayStated(p, kind, d) && !PayReaches(p, kind, d, floor) && PayOpenEnded(p, kind, d)
    case PayMaximumBelow => PayBelow(p, kind, d)
    case _ => false
  }

  // All certified filings on record, of any year.
  function Filings(records: seq<EmployerRecord>): int {
    if records == [] then 0
    else Filings(records[..|records| - 1]) + (var e := records[|records| - 1]; if H1bRecord(e) then e.count else 0)
  }

  // The qualifying filings of some records and the latest year among them, if there are any.
  ghost predicate Summarised(records: seq<EmployerRecord>, found: bool, total: int, latest: int) {
    && total == Filings(records)
    && (forall e :: e in records && H1bRecord(e) ==> found && e.year <= latest)
    && (found ==> exists e :: e in records && H1bRecord(e) && e.year == latest)
  }

  lemma SummaryPasses(records: seq<EmployerRecord>, e: EmployerRecord, found: bool, total: int, latest: int)
    requires Summarised(records, found, total, latest) && !H1bRecord(e)
    ensures Summarised(records + [e], found, total, latest)
  {
    assert (records + [e])[..|records|] == records;
    if found {
      var r :| r in records && H1bRecord(r) && r.year == latest;
      assert r in records + [e];
    }
  }

  lemma SummaryGrows(records: seq<EmployerRecord>, e: EmployerRecord, found: bool, total: int, latest: int)
    requires Summarised(records, found, total, latest) && H1bRecord(e)
    ensures Summarised(records + [e], true, total + e.count, if found && latest >= e.year then latest else e.year)
  {
    assert (records + [e])[..|records|] == records;
    assert e in records + [e];
    if found {
      var r :| r in records && H1bRecord(r) && r.year == latest;
      assert r in records + [e];
    }
  }

  // The certified filings and the latest year on record, for an employer active recently.
  method RecentH1bSummary(records: Option<seq<EmployerRecord>>) returns (r: Option<(int, int)>)
    ensures r.Some? <==> SponsoredRecently(records)
    ensures r.Some? ==> IsSummary(records, r.value.0, r.value.1)
  {
    if records.None? { return None; }
    var total, latest, found := 0, 0, false;
    for i := 0 to |records.value|
      invariant Summarised(records.value[..i], found, total, latest)
    {
      var e := records.value[i];
      assert records.value[..i + 1] == records.value[..i] + [e];
      if H1bRecord(e) {
        SummaryGrows(records.value[..i], e, found, total, latest);
        total := total + e.count;
        latest := if found && latest >= e.year then latest else e.year;
        found := true;
      } else {
        SummaryPasses(records.value[..i], e, found, total, latest);
      }
    }
    assert records.value[..|records.value|] == records.value;
    if !found || latest < MIN_ACTIVE_H1B_YEAR { return None; }
    return Some((total, latest));
  }

  // Scans the applicable ranges: is any amount stated, does one reach the floor, is one open-ended?
  method ScanPay(p: Requirements, kind: Kind, d: Projection, floor: real)
    returns (stated: bool, reaches: bool, openEnded: bool)
    ensures stated <==> PayStated(p, kind, d)
    ensures reaches <==> PayReaches(p, kind, d, floor)
    ensures openEnded <==> PayOpenEnded(p, kind, d)
  {
    stated, reaches, openEnded := false, false, false;
    for i := 0 to |d.compensation|
      invariant stated <==> PayStated(p, kind, d.(compensation := d.compensation[..i]))
      invariant reaches <==> PayReaches(p, kind, d.(compensation := d.compensation[..i]), floor)
      invariant openEnded <==> PayOpenEnded(p, kind, d.(compensation := d.compensation[..i]))
    {
      var pay := d.compensation[i];
      assert d.compensation[..i + 1] == d.compensation[..i] + [pay];
      if Applicable(p, kind, pay) {
        if Amount(pay).Some? {
          stated := true;
          reaches := reaches || Amount(pay).value >= floor;
        }
        openEnded := openEnded || pay.maximum.None?;
      }
    }
    assert d.compensation[..|d.compensation|] == d.compensation;
  }

  // The early answer when the evidence is not fresh.
  method FreshnessReason(status: Option<string>, verifiedAt: Option<int>, now: int) returns (r: Reason)
    ensures r == (if verifiedAt.Some? && verifiedAt.value + 24 * HOUR <= now then Stale
                  else if status.Some? then Unverified else NotChecked)
  {
    r := if status.None? then NotChecked else Unverified;
    if verifiedAt.Some? && verifiedAt.value <= now - 24 * HOUR { r := Stale; }
  }

  predicate Fails(r: Reason) {
    r in {Closed, Citizenship, AuthorizationDenied, SponsorshipDenied, PayMaximumBelow}
  }

  predicate Passes(r: Reason) {
    r in {AuthorizationAllowed, SponsorshipAllowed, PayMeetsFloor} || r.SponsorshipFromFilings?
  }

  // The authorization questions: restrictions on who may apply, then the named work status.
  method AssessAuthorization(p: Requirements, d: Projection) returns (fails: seq<Reason>, reviews: seq<Reason>, passes: seq<Reason>)
    ensures fails != [] <==> || (NeedsWorkAuthorization(p) && Required(d))
                             || (NamesStatus(p) && PolicyValue(d, PolicyKey(p.authorization.value)) == Some("denied"))
    ensures reviews != [] <==> || (NeedsWorkAuthorization(p) && Qualified(d))
                               || (NamesStatus(p) && PolicyValue(d, PolicyKey(p.authorization.value)) !in [Some("allowed"), Some("denied")])
    ensures Sorted3(fails, reviews, passes)
    ensures forall r :: Among(r, fails, reviews, passes) <==> AuthorizationGiven(p, d, r)
  {
    fails, reviews, passes := [], [], [];
    if NeedsWorkAuthorization(p) {
      fails, reviews := AssessRestrictions(d);
    }
    if NamesStatus(p) {
      var r := AssessStatus(p, d);
      fails, reviews, passes := File(r, fails, reviews, passes);
    }
  }

  method AssessStatus(p: Requirements, d: Projection) returns (r: Reason)
    requires NamesStatus(p)
    ensures r in {AuthorizationAllowed, AuthorizationDenied, AuthorizationUnknown} && AuthorizationGiven(p, d, r)
  {
    var value := PolicyValue(d, PolicyKey(p.authorization.value));
    r := if value == Some("allowed") then AuthorizationAllowed
         else if value == Some("denied") then AuthorizationDenied
         else AuthorizationUnknown;
  }

  method AssessRestrictions(d: Projection) returns (fails: seq<Reason>, reviews: seq<Reason>)
    ensures fails == if Required(d) then [Citizenship] else []
    ensures reviews == if Qualified(d) then [RestrictionReview] else []
  {
    fails, reviews := [], [];
    if exists key | key in d.restrictions :: d.restrictions[key] == Some("required") {
      fails := [Citizenship];
    }
    if exists key | key in d.restrictions :: d.restrictions[key] != Some("required") {
      reviews := [RestrictionReview];
    }
  }

  method AssessSponsorship(p: Requirements, d: Projection, records: Option<seq<EmployerRecord>>) returns (r: Reason)
    ensures Fails(r) <==> FutureDenied(d)
    ensures Passes(r) <==> FutureSupported(d, records)
    ensures SponsorshipGiven(d, records, r)
  {
    var future, current := PolicyValue(d, "future_sponsorship"), PolicyValue(d, "sponsorship");
    var restricted := d.restrictions != map[];
    var h1b := RecentH1bSummary(records);
    if future == Some("allowed") || (future == Some("unknown") && current == Some("allowed") && !restricted) {
      r := SponsorshipAllowed;
    } else if future == Some("denied") || (future == Some("unknown") && current == Some("denied")) {
      r := SponsorshipDenied;
    } else if future == Some("unknown") && current == Some("unknown") && !restricted && h1b.Some? {
      r := SponsorshipFromFilings(h1b.value.0, h1b.value.1);
    } else {
      r := SponsorshipUnclear;
    }
  }

  method AssessPay(p: Requirements, kind: Kind, d: Projection) returns (r: Option<Reason>)
    ensures r.Some? <==> FloorFor(p, kind).Some?
    ensures r.Some? ==> (Fails(r.value) <==> PayBelow(p, kind, d))
    ensures r.Some? ==> (!Fails(r.value) && !Passes(r.value) <==> PayUnclear(p, kind, d))
    ensures r.Some? ==> PayGiven(p, d, kind, FloorFor(p, kind).value, r.value)
  {
    var floor := FloorFor(p, kind);
    if floor.None? { return None; }
    var stated, reaches, openEnded := ScanPay(p, kind, d, floor.value);
    if d.payConflicting == Some(true) || !stated { r := Some(PayUnstated); }
    else if reaches { r := Some(PayMeetsFloor); }
    else if openEnded { r := Some(PayStartsBelow); }
    else { r := Some(PayMaximumBelow); }
  }

  predicate Among(r: Reason, fails: seq<Reason>, reviews: seq<Reason>, passes: seq<Reason>) {
    r in fails || r in reviews || r in passes
  }

  // Every reason is filed in the list of its own severity.
  ghost predicate Sorted3(fails: seq<Reason>, reviews: seq<Reason>, passes: seq<Reason>) {
    && (forall i :: 0 <= i < |fails| ==> Fails(fails[i]))
    && (forall i :: 0 <= i < |reviews| ==> !Fails(reviews[i]) && !Passes(reviews[i]))
    && (forall i :: 0 <= i < |passes| ==> Passes(passes[i]))
  }

  // Files one reason with those of its severity.
  method File(r: Reason, fails: seq<Reason>, reviews: seq<Reason>, passes: seq<Reason>)
    returns (fails': seq<Reason>, reviews': seq<Reason>, passes': seq<Reason>)
    requires Sorted3(fails, reviews, passes)
    ensures Sorted3(fails', reviews', passes')
    ensures fails' == if Fails(r) then fails + [r] else fails
    ensures reviews' == if !Fails(r) && !Passes(r) then reviews + [r] else reviews
    ensures passes' == if Passes(r) then passes + [r] else passes
    ensures forall x :: Among(x, fails', reviews', passes') <==> Among(x, fails, reviews, passes) || x == r
  {
    fails', reviews', passes' := fails, reviews, passes;
    if Fails(r) { fails' := fails + [r]; }
    else if Passes(r) { passes' := passes + [r]; }
    else { reviews' := reviews + [r]; }
  }

  method Weigh(p: Requirements, d: Projection, kind: Kind, records: Option<seq<EmployerRecord>>)
    returns (fails: seq<Reason>, reviews: seq<Reason>, passes: seq<Reason>)
    ensures fails != [] <==> Blocked(p, d, kind, records)
    ensures reviews != [] <==> Unsettled(p, d, kind, records)
    ensures Sorted3(fails, reviews, passes)
    ensures forall r :: Among(r, fails, reviews, passes) <==> Given(p, d, kind, records, r)
  {
    fails, reviews, passes := AssessAuthorization(p, d);
    if p.futureSponsorship {
      fails, reviews, passes := WeighSponsorship(p, d, records, fails, reviews, passes);
    }
    fails, reviews, passes := WeighOffer(p, d, kind, fails, reviews, passes);
  }

  method WeighSponsorship(p: Requirements, d: Projection, records: Option<seq<EmployerRecord>>,
                          fails0: seq<Reason>, reviews0: seq<Reason>, passes0: seq<Reason>)
    returns (fails: seq<Reason>, reviews: seq<Reason>, passes: seq<Reason>)
    requires Sorted3(fails0, reviews0, passes0)
    ensures fails != [] <==> fails0 != [] || FutureDenied(d)
    ensures reviews != [] <==> reviews0 != [] || (!FutureDenied(d) && !FutureSupported(d, records))
    ensures Sorted3(fails, reviews, passes)
    ensures forall r :: Among(r, fails, reviews, passes) <==> Among(r, fails0, reviews0, passes0) || SponsorshipGiven(d, records, r)
  {
    var r := AssessSponsorship(p, d, records);
    OneSponsorshipReason(d, records, r);
    fails, reviews, passes := File(r, fails0, reviews0, passes0);
  }

  // Sponsorship is answered in one way.
  lemma OneSponsorshipReason(d: Projection, records: Option<seq<EmployerRecord>>, r: Reason)
    requires SponsorshipGiven(d, records, r)
    ensures forall x :: SponsorshipGiven(d, records, x) <==> x == r
  {
  }

  // So is pay.
  lemma OnePayReason(p: Requirements, d: Projection, kind: Kind, floor: real, r: Reason)
    requires FloorFor(p, kind) == Some(floor) && PayGiven(p, d, kind, floor, r)
    ensures forall x :: PayGiven(p, d, kind, floor, x) <==> x == r
  {
  }

  // The questions about the offer itself: where the role is and what it pays.
  method WeighOffer(p: Requirements, d: Projection, kind: Kind,
                    fails0: seq<Reason>, reviews0: seq<Reason>, passes0: seq<Reason>)
    returns (fails: seq<Reason>, reviews: seq<Reason>, passes: seq<Reason>)
    requires Sorted3(fails0, reviews0, passes0)
    ensures fails != [] <==> fails0 != [] || PayBelow(p, kind, d)
    ensures (reviews != []
             <==> reviews0 != [] || (p.accepted != [] && !(d.locationKey.Some? && d.locationKey.value in p.accepted)) || PayUnclear(p, kind, d))
    ensures Sorted3(fails, reviews, passes)
    ensures forall r :: Among(r, fails, reviews, passes) <==> Among(r, fails0, reviews0, passes0) || OfferGiven(p, d, kind, r)
  {
    fails, reviews, passes := fails0, reviews0, passes0;
    if p.accepted != [] && !(d.locationKey.Some? && d.locationKey.value in p.accepted) {
      fails, reviews, passes := File(ConfirmLocation, fails, reviews, passes);
    }
    var pay := AssessPay(p, kind, d);
    if pay.Some? {
      OnePayReason(p, d, kind, FloorFor(p, kind).value, pay.value);
      fails, reviews, passes := File(pay.value, fails, reviews, passes);
    }
  }

  // Obstacles before open questions before passes.
  ghost predicate Ranked(reasons: seq<Reason>) {
    forall i, j :: 0 <= i < j < |reasons| ==> (Fails(reasons[j]) ==> Fails(reasons[i])) && (Passes(reasons[i]) ==> Passes(reasons[j]))
  }

  lemma RankedAndListed(fails: seq<Reason>, reviews: seq<Reason>, passes: seq<Reason>)
    requires Sorted3(fails, reviews, passes)
    ensures Ranked(fails + reviews + passes)
    ensures forall r :: r in fails + reviews + passes <==> Among(r, fails, reviews, passes)
  {
  }

  // The bucket and the reasons shown for it: obstacles first, then open questions, then passes.
  method Evaluate(profile: Option<Requirements>, data: Option<Projection>, kind: Kind,
                  status: Option<string>, verifiedAt: Option<int>, now: int, closed: bool,
                  targetCurrent: bool, records: Option<seq<EmployerRecord>>)
    returns (bucket: Bucket, reasons: seq<Reason>)
    ensures bucket == Verdict(profile, data, kind, status, verifiedAt, now, closed, targetCurrent, records)
    ensures bucket == Excluded ==> reasons != [] && Fails(reasons[0])
    ensures bucket == Review ==> reasons != [] && !Fails(reasons[0]) && !Passes(reasons[0])
    ensures bucket == Matches ==> forall i :: 0 <= i < |reasons| ==> Passes(reasons[i])
    ensures closed ==> reasons == [Closed]
    ensures !closed && (profile.None? || !Configured(profile.value)) ==> reasons == [Unconfigured]
    ensures !closed && profile.Some? && Configured(profile.value) && data.GetOr(NO_DATA).usRole != Some(true) ==> reasons == [NotUs]
    ensures !closed && profile.Some? && Configured(profile.value) && data.GetOr(NO_DATA).usRole == Some(true)
            && !Fresh(data.GetOr(NO_DATA), status, verifiedAt, now, targetCurrent) ==>
      reasons == [if verifiedAt.Some? && verifiedAt.value + 24 * HOUR <= now then Stale else if status.Some? then Unverified else NotChecked]
    ensures !closed && profile.Some? && Configured(profile.value) && Fresh(data.GetOr(NO_DATA), status, verifiedAt, now, targetCurrent) ==>
      Ranked(reasons) && forall r :: r in reasons <==> Given(profile.value, data.GetOr(NO_DATA), kind, records, r)
  {
    var d := data.GetOr(NO_DATA);
    if closed { return Excluded, [Closed]; }
    if profile.None? || !Configured(profile.value) { return Review, [Unconfigured]; }
    if d.usRole != Some(true) { return Review, [NotUs]; }
    if status != Some("complete") || d.version != Some(VERSION) || verifiedAt.None? || !targetCurrent
       || verifiedAt.value <= now - 24 * HOUR
    {
      var why := FreshnessReason(status, verifiedAt, now);
      return Review, [why];
    }
    var fails, reviews, passes := Weigh(profile.value, d, kind, records);
    bucket := if fails != [] then Excluded else if reviews != [] then Review else Matches;
    reasons := fails + reviews + passes;
    RankedAndListed(fails, reviews, passes);
  }
}
