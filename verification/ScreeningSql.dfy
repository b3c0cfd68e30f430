/** The SQL side of screening: a CASE expression built from the profile alone, and its evaluation
    in three-valued logic over one outer-joined row. */
module ScreeningSql {
  import opened Prelude
  import opened SqlLogic
  import opened Screening

  // Nullable text columns, JSON paths read as text, and COALESCE over them.
  datatype Text =
    | Literal(value: string)
    | JobUrl | JobLocation | JobTitle
    | Status | ProjectionVersion | TargetUrl | TargetLocation | TargetTitle | RoleLocation
    | Restriction(key: string)
    | Policy(key: string)
    | Defaulted(text: Text, default: string)

  // Conditions on one element of the compensation array inside a correlated EXISTS.
  datatype PayCond =
    | ComponentIs(value: string) | IntervalIs(value: string) | CurrencyIs(value: string)
    | UsIsTrue | LocationIn(keys: seq<string>)
    | AmountKnown | AmountAtLeast(floor: real) | MaximumIsNull

  datatype Cond =
    | Fixed(value: bool)
    | JobClosed
    | JobKindIs(kind: Kind)
    | Eq(left: Text, right: Text)
    | InList(text: Text, options: seq<string>)
    | IsNull(text: Text)
    | VerifiedAfter(instant: int)
    | UsRole
    | Conflicting
    | IsTrue(of: Cond)
    | Default(of: Cond, value: bool)
    | Negate(of: Cond)
    | And(left2: Cond, right2: Cond)
    | Or(left2: Cond, right2: Cond)
    | Any(options2: seq<Cond>)
    | PayExists(where: seq<PayCond>)
    | RecentH1b(minYear: int)

  datatype Case = Case(whens: seq<(Cond, Bucket)>, otherwise: Bucket)

  // A JSON path read as text: NULL for a missing member and for a null one.
  function Lookup(m: map<string, Option<string>>, key: string): Option<string> {
    if key in m then m[key] else None
  }

  function DataOf(row: Row): Projection {
    if row.check.Some? then row.check.value.projection.GetOr(NO_DATA) else NO_DATA
  }

  function TextOf(t: Text, row: Row): Option<string> {
    match t
    case Literal(s) => Some(s)
    case JobUrl => Some(row.job.url)
    case JobLocation => Some(row.job.location)
    case JobTitle => Some(row.job.title)
    case Status => if row.check.Some? then Some(row.check.value.status) else None
    case TargetUrl => if row.check.Some? then Some(row.check.value.target.url) else None
    case TargetLocation => if row.check.Some? then Some(row.check.value.target.location) else None
    case TargetTitle => if row.check.Some? then row.check.value.target.title else None
    case ProjectionVersion => DataOf(row).version
    case RoleLocation => DataOf(row).locationKey
    case Restriction(key) => Lookup(DataOf(row).restrictions, key)
    case Policy(key) => Lookup(DataOf(row).policies, key)
    case Defaulted(u, default) => Some(TextOf(u, row).GetOr(default))
  }

  function PayTruth(c: PayCond, pay: Pay): Truth {
    match c
    case ComponentIs(s) => Equals3(pay.component, Some(s))
    case IntervalIs(s) => Equals3(pay.interval, Some(s))
    case CurrencyIs(s) => Equals3(pay.currency, Some(s))
    case UsIsTrue => Some(pay.us == Some(true))
    case LocationIn(keys) => if pay.locationKey.None? then None else Some(pay.locationKey.value in keys)
    case AmountKnown => Some(Amount(pay).Some?)
    case AmountAtLeast(floor) => AtLeast3(Amount(pay), floor)
    case MaximumIsNull => Some(pay.maximum.None?)
  }

  // A row passes a WHERE clause when every conjunct is TRUE; NULL filters it out.
  predicate Selected(where: seq<PayCond>, pay: Pay) {
    forall c :: c in where ==> PayTruth(c, pay) == Some(true)
  }

  ghost function Truth3(c: Cond, row: Row): Truth
    decreases c, 1
  {
    match c
    case Fixed(b) => Some(b)
    case JobClosed => Some(row.job.closed)
    case JobKindIs(k) => Some(row.job.kind == k)
    case Eq(l, r) => Equals3(TextOf(l, row), TextOf(r, row))
    case InList(t, options) => if TextOf(t, row).None? then None else Some(TextOf(t, row).value in options)
    case IsNull(t) => Some(TextOf(t, row).None?)
    case VerifiedAfter(t) =>
      if row.check.None? || row.check.value.verifiedAt.None? then None
      else Some(row.check.value.verifiedAt.value > t)
    case UsRole => DataOf(row).usRole
    case Conflicting => DataOf(row).payConflicting
    case IsTrue(d) => Some(Truth3(d, row) == Some(true))
    case Default(d, b) => Some(Truth3(d, row).GetOr(b))
    case Negate(d) => Not3(Truth3(d, row))
    case And(l, r) => And3(Truth3(l, row), Truth3(r, row))
    case Or(l, r) => Or3(Truth3(l, row), Truth3(r, row))
    case Any(cs) => AnyTruth(cs, row)
    case PayExists(where) => Some(exists pay :: pay in DataOf(row).compensation && Selected(where, pay))
    case RecentH1b(minYear) => Some(row.records.Some? && exists r :: r in row.records.value && H1bRecord(r) && r.year >= minYear)
  }

  ghost function AnyTruth(cs: seq<Cond>, row: Row): Truth
    decreases cs, 0
  {
    if cs == [] then Some(false) else Or3(Truth3(cs[0], row), AnyTruth(cs[1..], row))
  }

  // CASE takes the first branch whose condition is TRUE.
  ghost function CaseValue(whens: seq<(Cond, Bucket)>, otherwise: Bucket, row: Row): Bucket {
    if whens == [] then otherwise
    else if Truth3(whens[0].0, row) == Some(true) then whens[0].1
    else CaseValue(whens[1..], otherwise, row)
  }

  ghost function BucketOf(e: Case, row: Row): Bucket {
    CaseValue(e.whens, e.otherwise, row)
  }

  // ----- The compiled clauses -----

  function FreshCond(now: int): Cond {
    And(Eq(Status, Literal("complete")),
    And(Eq(ProjectionVersion, Literal(VERSION)),
    And(VerifiedAfter(now - 24 * HOUR),
    And(Eq(TargetUrl, JobUrl),
    And(Eq(TargetLocation, JobLocation),
    And(Eq(TargetTitle, JobTitle), IsTrue(UsRole)))))))
  }

  function RequiredCond(): Cond {
    Or(Eq(Restriction(CITIZENSHIP), Literal("required")), Eq(Restriction(PERMANENT), Literal("required")))
  }

  function QualifiedCond(key: string): Cond {
    And(Negate(IsNull(Restriction(key))), Negate(Eq(Restriction(key), Literal("required"))))
  }

  function PolicyText(key: string): Text {
    Defaulted(Policy(key), "unknown")
  }

  function Is(key: string, value: string): Cond {
    Eq(PolicyText(key), Literal(value))
  }

  function FutureDeniedCond(): Cond {
    Or(Is("future_sponsorship", "denied"), And(Is("future_sponsorship", "unknown"), Is("sponsorship", "denied")))
  }

  function RestrictedCond(): Cond {
    Or(Negate(IsNull(Restriction(CITIZENSHIP))), Negate(IsNull(Restriction(PERMANENT))))
  }

  function CurrentCond(): Cond {
    Or(Is("sponsorship", "allowed"), And(Is("sponsorship", "unknown"), RecentH1b(MIN_ACTIVE_H1B_YEAR)))
  }

  function FutureSupportedCond(): Cond {
    Or(Is("future_sponsorship", "allowed"),
       And(Is("future_sponsorship", "unknown"),
       And(Negate(RestrictedCond()), CurrentCond())))
  }

  function LocationCond(accepted: seq<string>): Cond {
    Negate(InList(Defaulted(RoleLocation, ""), accepted))
  }

  function Comparable(p: Requirements, kind: Kind): seq<PayCond> {
    [ComponentIs("base"), IntervalIs(PeriodFor(kind)), CurrencyIs(p.currency), UsIsTrue]
    + (if p.accepted != [] then [LocationIn(p.accepted)] else [])
    + [AmountKnown]
  }

  function ConflictCond(): Cond {
    Default(Conflicting, false)
  }

  function PayFailure(p: Requirements, kind: Kind, floor: real): Cond {
    var rows := Comparable(p, kind);
    And(JobKindIs(kind),
    And(PayExists(rows),
    And(Negate(PayExists(rows + [AmountAtLeast(floor)])),
    And(Negate(PayExists(rows + [MaximumIsNull])), Negate(ConflictCond())))))
  }

  function PayReview(p: Requirements, kind: Kind, floor: real): Cond {
    var rows := Comparable(p, kind);
    And(JobKindIs(kind),
        Or(ConflictCond(),
        Or(Negate(PayExists(rows)),
           And(Negate(PayExists(rows + [AmountAtLeast(floor)])), PayExists(rows + [MaximumIsNull])))))
  }

  function When(b: bool, cs: seq<Cond>): seq<Cond> {
    if b then cs else []
  }

  function PayFailures(p: Requirements, kind: Kind): seq<Cond> {
    var floor := FloorFor(p, kind);
    if floor.Some? then [PayFailure(p, kind, floor.value)] else []
  }

  function PayReviews(p: Requirements, kind: Kind): seq<Cond> {
    var floor := FloorFor(p, kind);
    if floor.Some? then [PayReview(p, kind, floor.value)] else []
  }

  function StatusFailures(p: Requirements): seq<Cond> {
    if NamesStatus(p) then [Is(PolicyKey(p.authorization.value), "denied")] else []
  }

  function StatusReviews(p: Requirements): seq<Cond> {
    if NamesStatus(p) then [Negate(InList(PolicyText(PolicyKey(p.authorization.value)), ["allowed", "denied"]))] else []
  }

  function PolicyFailures(p: Requirements): seq<Cond> {
    When(NeedsWorkAuthorization(p), [RequiredCond()])
    + StatusFailures(p)
    + When(p.futureSponsorship, [FutureDeniedCond()])
  }

  function PolicyReviews(p: Requirements): seq<Cond> {
    When(NeedsWorkAuthorization(p), [QualifiedCond(CITIZENSHIP), QualifiedCond(PERMANENT)])
    + StatusReviews(p)
    + When(p.futureSponsorship, [And(Negate(FutureDeniedCond()), Negate(FutureSupportedCond()))])
    + When(p.accepted != [], [LocationCond(p.accepted)])
  }

  function Failures(p: Requirements): seq<Cond> {
    PolicyFailures(p) + (PayFailures(p, Internship) + PayFailures(p, NewGrad))
  }

  function Reviews(p: Requirements): seq<Cond> {
    PolicyReviews(p) + (PayReviews(p, Internship) + PayReviews(p, NewGrad))
  }

  function Either(cs: seq<Cond>): Cond {
    if cs != [] then Default(Any(cs), false) else Fixed(false)
  }

  function Compiled(profile: Option<Requirements>, now: int): Case {
    if profile.None? || !Configured(profile.value) then Case([(JobClosed, Excluded)], Review)
    else
      Case([(JobClosed, Excluded),
            (Negate(Default(FreshCond(now), false)), Review),
            (Either(Failures(profile.value)), Excluded),
            (Either(Reviews(profile.value)), Review)],
           Matches)
  }

  // The clauses on work authorization, sponsorship and location.
  method PolicyClauses(p: Requirements) returns (failures: seq<Cond>, reviews: seq<Cond>)
    ensures failures == PolicyFailures(p) && reviews == PolicyReviews(p)
  {
    failures, reviews := [], [];
    if NeedsWorkAuthorization(p) {
      failures := failures + [RequiredCond()];
      var keys := [CITIZENSHIP, PERMANENT];
      for i := 0 to 2
        invariant reviews == [QualifiedCond(CITIZENSHIP), QualifiedCond(PERMANENT)][..i]
      {
        reviews := reviews + [QualifiedCond(keys[i])];
      }
    }
    if NamesStatus(p) {
      var value := PolicyText(PolicyKey(p.authorization.value));
      failures := failures + [Eq(value, Literal("denied"))];
      reviews := reviews + [Negate(InList(value, ["allowed", "denied"]))];
    }
    if p.futureSponsorship {
      failures := failures + [FutureDeniedCond()];
      reviews := reviews + [And(Negate(FutureDeniedCond()), Negate(FutureSupportedCond()))];
    }
    if p.accepted != [] {
      reviews := reviews + [LocationCond(p.accepted)];
    }
  }

  // The clauses on pay, kind by kind.
  method PayClauses(p: Requirements) returns (failures: seq<Cond>, reviews: seq<Cond>)
    ensures failures == PayFailures(p, Internship) + PayFailures(p, NewGrad)
    ensures reviews == PayReviews(p, Internship) + PayReviews(p, NewGrad)
  {
    failures, reviews := [], [];
    var kinds := [Internship, NewGrad];
    for i := 0 to 2
      invariant failures == (if i == 0 then [] else PayFailures(p, Internship)) + (if i < 2 then [] else PayFailures(p, NewGrad))
      invariant reviews == (if i == 0 then [] else PayReviews(p, Internship)) + (if i < 2 then [] else PayReviews(p, NewGrad))
    {
      var floor := FloorFor(p, kinds[i]);
      if floor.Some? {
        failures := failures + [PayFailure(p, kinds[i], floor.value)];
        reviews := reviews + [PayReview(p, kinds[i], floor.value)];
      }
    }
  }

  // Builds the expression the way the program does, appending clauses to two lists.
  method BucketExpression(profile: Option<Requirements>, now: int) returns (e: Case)
    ensures e == Compiled(profile, now)
  {
    if profile.None? || !Configured(profile.value) {
      return Case([(JobClosed, Excluded)], Review);
    }
    var p := profile.value;
    var failures, reviews := PolicyClauses(p);
    var payFailures, payReviews := PayClauses(p);
    failures := failures + payFailures;
    reviews := reviews + payReviews;
    e := Case([(JobClosed, Excluded), (Negate(Default(FreshCond(now), false)), Review),
               (Either(failures), Excluded), (Either(reviews), Review)], Matches);
  }

  // ----- What the clauses mean -----

  // Only the two extracted restrictions occur; every restriction and every policy has a value;
  // every range has a bound; and no location key is blank.
  predicate WellFormed(profile: Option<Requirements>, row: Row) {
    var d := DataOf(row);
    && (profile.Some? ==> "" !in profile.value.accepted)
    && (forall key :: key in d.restrictions ==> key in [CITIZENSHIP, PERMANENT] && d.restrictions[key].Some?)
    && (forall key :: key in d.policies ==> d.policies[key].Some?)
    && (forall pay :: pay in d.compensation ==> pay.minimum.Some? || pay.maximum.Some?)
  }

  ghost predicate Holds(c: Cond, row: Row) {
    Truth3(c, row) == Some(true)
  }

  ghost predicate SomeHolds(cs: seq<Cond>, row: Row) {
    exists c :: c in cs && Holds(c, row)
  }

  lemma {:induction false} AnyHolds(cs: seq<Cond>, row: Row)
    ensures AnyTruth(cs, row) == Some(true) <==> SomeHolds(cs, row)
  {
    if cs != [] {
      AnyHolds(cs[1..], row);
      assert cs == [cs[0]] + cs[1..];
      SomeAppend([cs[0]], cs[1..], row);
      SomeOne(cs[0], row);
    }
  }

  lemma SomeAppend(a: seq<Cond>, b: seq<Cond>, row: Row)
    ensures SomeHolds(a + b, row) <==> SomeHolds(a, row) || SomeHolds(b, row)
  {
    if c :| c in a && Holds(c, row) { assert c in a + b; }
    if c :| c in b && Holds(c, row) { assert c in a + b; }
  }

  lemma SomeOne(c: Cond, row: Row)
    ensures SomeHolds([c], row) <==> Holds(c, row)
  {
    assert c in [c];
  }

  // One level of evaluation for every connective and leaf, at any depth of nesting.
  lemma Connectives(row: Row)
    ensures forall l, r {:trigger And(l, r)} :: Truth3(And(l, r), row) == And3(Truth3(l, row), Truth3(r, row))
    ensures forall l, r {:trigger Or(l, r)} :: Truth3(Or(l, r), row) == Or3(Truth3(l, row), Truth3(r, row))
    ensures forall c {:trigger Negate(c)} :: Truth3(Negate(c), row) == Not3(Truth3(c, row))
    ensures forall c {:trigger IsTrue(c)} :: Truth3(IsTrue(c), row) == Some(Truth3(c, row) == Some(true))
    ensures forall c, b {:trigger Default(c, b)} :: Truth3(Default(c, b), row) == Some(Truth3(c, row).GetOr(b))
    ensures forall l, r {:trigger Eq(l, r)} :: Truth3(Eq(l, r), row) == Equals3(TextOf(l, row), TextOf(r, row))
    ensures forall t {:trigger IsNull(t)} :: Truth3(IsNull(t), row) == Some(TextOf(t, row).None?)
    ensures forall t, d {:trigger Defaulted(t, d)} :: TextOf(Defaulted(t, d), row) == Some(TextOf(t, row).GetOr(d))
    ensures forall t, ss {:trigger InList(t, ss)} ::
      Truth3(InList(t, ss), row) == if TextOf(t, row).None? then None else Some(TextOf(t, row).value in ss)
  {
  }

  // The connectives on conditions whose truth is known.
  lemma AndTruth(l: Cond, r: Cond, row: Row, x: bool, y: bool)
    requires Truth3(l, row) == Some(x) && Truth3(r, row) == Some(y)
    ensures Truth3(And(l, r), row) == Some(x && y)
  {
  }

  lemma OrTruth(l: Cond, r: Cond, row: Row, x: bool, y: bool)
    requires Truth3(l, row) == Some(x) && Truth3(r, row) == Some(y)
    ensures Truth3(Or(l, r), row) == Some(x || y)
  {
  }

  lemma OrHolds(l: Cond, r: Cond, row: Row)
    ensures Holds(Or(l, r), row) <==> Holds(l, row) || Holds(r, row)
  {
  }

  lemma NotTruth(c: Cond, row: Row, x: bool)
    requires Truth3(c, row) == Some(x)
    ensures Truth3(Negate(c), row) == Some(!x)
  {
  }

  lemma EitherHolds(cs: seq<Cond>, row: Row)
    ensures Holds(Either(cs), row) <==> SomeHolds(cs, row)
  {
    AnyHolds(cs, row);
    Connectives(row);
  }

  lemma FreshMeans(row: Row, now: int)
    ensures Holds(FreshCond(now), row) <==>
      Fresh(DataOf(row),
            if row.check.Some? then Some(row.check.value.status) else None,
            if row.check.Some? then row.check.value.verifiedAt else None,
            now, TargetCurrent(row))
  {
    Connectives(row);
  }

  // Only two restrictions can occur, and each that does has a value.
  lemma RestrictionKeys(profile: Option<Requirements>, row: Row)
    requires WellFormed(profile, row)
    ensures var m := DataOf(row).restrictions;
      && (m != map[] <==> CITIZENSHIP in m || PERMANENT in m)
      && (CITIZENSHIP in m ==> m[CITIZENSHIP].Some?) && (PERMANENT in m ==> m[PERMANENT].Some?)
      && forall key :: key in m ==> key == CITIZENSHIP || key == PERMANENT
  {
    var m := DataOf(row).restrictions;
    if m != map[] {
      var key :| key in m;
      assert key in [CITIZENSHIP, PERMANENT];
    }
  }

  lemma RestrictionTruth(key: string, row: Row)
    requires key in DataOf(row).restrictions ==> DataOf(row).restrictions[key].Some?
    ensures var m := DataOf(row).restrictions;
      && (Truth3(Eq(Restriction(key), Literal("required")), row) == Some(true) <==> key in m && m[key] == Some("required"))
      && Truth3(Negate(IsNull(Restriction(key))), row) == Some(key in m)
      && (Holds(QualifiedCond(key), row) <==> key in m && m[key] != Some("required"))
  {
    Connectives(row);
  }

  lemma RestrictionsMean(profile: Option<Requirements>, row: Row)
    requires WellFormed(profile, row)
    ensures Holds(RequiredCond(), row) <==> Required(DataOf(row))
    ensures Holds(QualifiedCond(CITIZENSHIP), row) || Holds(QualifiedCond(PERMANENT), row) <==> Qualified(DataOf(row))
    ensures Truth3(RestrictedCond(), row) == Some(DataOf(row).restrictions != map[])
  {
    var m := DataOf(row).restrictions;
    RestrictionKeys(profile, row);
    RestrictionTruth(CITIZENSHIP, row);
    RestrictionTruth(PERMANENT, row);
    OrTruth(Negate(IsNull(Restriction(CITIZENSHIP))), Negate(IsNull(Restriction(PERMANENT))), row, CITIZENSHIP in m, PERMANENT in m);
    OrHolds(Eq(Restriction(CITIZENSHIP), Literal("required")), Eq(Restriction(PERMANENT), Literal("required")), row);
  }

  ghost predicate PoliciesSet(row: Row) {
    forall key :: key in DataOf(row).policies ==> DataOf(row).policies[key].Some?
  }

  lemma PolicyTruth(row: Row, key: string, value: string)
    requires PoliciesSet(row)
    ensures Truth3(Is(key, value), row) == Some(PolicyValue(DataOf(row), key) == Some(value))
  {
    Connectives(row);
  }

  lemma FutureDeniedMeans(row: Row)
    requires PoliciesSet(row)
    ensures Truth3(FutureDeniedCond(), row) == Some(FutureDenied(DataOf(row)))
  {
    var future, current := PolicyValue(DataOf(row), "future_sponsorship"), PolicyValue(DataOf(row), "sponsorship");
    PolicyTruth(row, "future_sponsorship", "denied");
    PolicyTruth(row, "future_sponsorship", "unknown");
    PolicyTruth(row, "sponsorship", "denied");
    AndTruth(Is("future_sponsorship", "unknown"), Is("sponsorship", "denied"), row, future == Some("unknown"), current == Some("denied"));
    OrTruth(Is("future_sponsorship", "denied"), And(Is("future_sponsorship", "unknown"), Is("sponsorship", "denied")), row,
            future == Some("denied"), future == Some("unknown") && current == Some("denied"));
  }

  ghost predicate CurrentlySupported(row: Row) {
    var current := PolicyValue(DataOf(row), "sponsorship");
    current == Some("allowed") || (current == Some("unknown") && SponsoredRecently(row.records))
  }

  // What is left once future sponsorship itself is unknown and no restriction is stated.
  lemma CurrentlySupportedMeans(row: Row)
    requires PoliciesSet(row)
    ensures Truth3(CurrentCond(), row) == Some(CurrentlySupported(row))
  {
    var current := PolicyValue(DataOf(row), "sponsorship");
    var h1b := RecentH1b(MIN_ACTIVE_H1B_YEAR);
    PolicyTruth(row, "sponsorship", "allowed");
    PolicyTruth(row, "sponsorship", "unknown");
    assert Truth3(h1b, row) == Some(SponsoredRecently(row.records));
    AndTruth(Is("sponsorship", "unknown"), h1b, row, current == Some("unknown"), SponsoredRecently(row.records));
    OrTruth(Is("sponsorship", "allowed"), And(Is("sponsorship", "unknown"), h1b), row,
            current == Some("allowed"), current == Some("unknown") && SponsoredRecently(row.records));
  }

  lemma FutureSupportedMeans(profile: Option<Requirements>, row: Row)
    requires WellFormed(profile, row)
    ensures Truth3(FutureSupportedCond(), row) == Some(FutureSupported(DataOf(row), row.records))
  {
    var future, free := PolicyValue(DataOf(row), "future_sponsorship"), DataOf(row).restrictions == map[];
    var allowed, unknown := Is("future_sponsorship", "allowed"), Is("future_sponsorship", "unknown");
    RestrictionsMean(profile, row);
    PolicyTruth(row, "future_sponsorship", "allowed");
    PolicyTruth(row, "future_sponsorship", "unknown");
    CurrentlySupportedMeans(row);
    NotTruth(RestrictedCond(), row, !free);
    AndTruth(Negate(RestrictedCond()), CurrentCond(), row, free, CurrentlySupported(row));
    AndTruth(unknown, And(Negate(RestrictedCond()), CurrentCond()), row, future == Some("unknown"), free && CurrentlySupported(row));
    OrTruth(allowed, And(unknown, And(Negate(RestrictedCond()), CurrentCond())), row,
            future == Some("allowed"), future == Some("unknown") && free && CurrentlySupported(row));
  }

  lemma SponsorshipMeans(profile: Option<Requirements>, row: Row)
    requires WellFormed(profile, row)
    ensures Truth3(FutureDeniedCond(), row) == Some(FutureDenied(DataOf(row)))
    ensures Truth3(FutureSupportedCond(), row) == Some(FutureSupported(DataOf(row), row.records))
  {
    FutureDeniedMeans(row);
    FutureSupportedMeans(profile, row);
  }

  lemma SelectedMeans(p: Requirements, kind: Kind, pay: Pay)
    ensures Selected(Comparable(p, kind), pay) <==> Applicable(p, kind, pay) && Amount(pay).Some?
  {
    var four := [ComponentIs("base"), IntervalIs(PeriodFor(kind)), CurrencyIs(p.currency), UsIsTrue];
    SelectedFour(p, kind, pay);
    if p.accepted == [] {
      assert Comparable(p, kind) == four + [AmountKnown];
      SelectedAlso(four, AmountKnown, pay);
    } else {
      assert Comparable(p, kind) == four + [LocationIn(p.accepted)] + [AmountKnown];
      SelectedAlso(four, LocationIn(p.accepted), pay);
      SelectedAlso(four + [LocationIn(p.accepted)], AmountKnown, pay);
    }
  }

  lemma SelectedFour(p: Requirements, kind: Kind, pay: Pay)
    ensures (Selected([ComponentIs("base"), IntervalIs(PeriodFor(kind)), CurrencyIs(p.currency), UsIsTrue], pay)
             <==> PayTruth(ComponentIs("base"), pay) == Some(true) && PayTruth(IntervalIs(PeriodFor(kind)), pay) == Some(true)
                  && PayTruth(CurrencyIs(p.currency), pay) == Some(true) && PayTruth(UsIsTrue, pay) == Some(true))
  {
    var a, b, c, d := ComponentIs("base"), IntervalIs(PeriodFor(kind)), CurrencyIs(p.currency), UsIsTrue;
    SelectedAlso([], a, pay);
    SelectedAlso([a], b, pay);
    SelectedAlso([a, b], c, pay);
    SelectedAlso([a, b, c], d, pay);
    assert [] + [a] == [a] && [a] + [b] == [a, b] && [a, b] + [c] == [a, b, c] && [a, b, c] + [d] == [a, b, c, d];
  }

  lemma SelectedAlso(where: seq<PayCond>, c: PayCond, pay: Pay)
    ensures Selected(where + [c], pay) <==> Selected(where, pay) && PayTruth(c, pay) == Some(true)
  {
    assert (where + [c])[|where|] == c;
    assert forall d :: d in where ==> d in where + [c];
  }

  // The three EXISTS clauses on pay.
  lemma PayStatedMeans(p: Requirements, kind: Kind, row: Row)
    ensures Truth3(PayExists(Comparable(p, kind)), row) == Some(PayStated(p, kind, DataOf(row)))
  {
    forall pay ensures Selected(Comparable(p, kind), pay) <==> Applicable(p, kind, pay) && Amount(pay).Some? {
      SelectedMeans(p, kind, pay);
    }
  }

  lemma PayReachesMeans(p: Requirements, kind: Kind, floor: real, row: Row)
    ensures Truth3(PayExists(Comparable(p, kind) + [AmountAtLeast(floor)]), row) == Some(PayReaches(p, kind, DataOf(row), floor))
  {
    var rows := Comparable(p, kind) + [AmountAtLeast(floor)];
    forall pay ensures Selected(rows, pay) <==> Applicable(p, kind, pay) && Amount(pay).Some? && Amount(pay).value >= floor {
      SelectedMeans(p, kind, pay);
      SelectedAlso(Comparable(p, kind), AmountAtLeast(floor), pay);
    }
  }

  // Only here does a range without any bound make a difference: the SQL does not select it.
  lemma PayOpenEndedMeans(profile: Option<Requirements>, kind: Kind, row: Row)
    requires profile.Some? && WellFormed(profile, row)
    ensures Truth3(PayExists(Comparable(profile.value, kind) + [MaximumIsNull]), row) == Some(PayOpenEnded(profile.value, kind, DataOf(row)))
  {
    var p := profile.value;
    var rows := Comparable(p, kind) + [MaximumIsNull];
    forall pay ensures Selected(rows, pay) <==> Applicable(p, kind, pay) && Amount(pay).Some? && pay.maximum.None? {
      SelectedMeans(p, kind, pay);
      SelectedAlso(Comparable(p, kind), MaximumIsNull, pay);
    }
  }

  lemma PayMeans(profile: Option<Requirements>, kind: Kind, floor: real, row: Row)
    requires profile.Some? && WellFormed(profile, row) && FloorFor(profile.value, kind) == Some(floor)
    ensures Holds(PayFailure(profile.value, kind, floor), row) <==> row.job.kind == kind && PayBelow(profile.value, kind, DataOf(row))
    ensures Holds(PayReview(profile.value, kind, floor), row) <==> row.job.kind == kind && PayUnclear(profile.value, kind, DataOf(row))
  {
    PayStatedMeans(profile.value, kind, row);
    PayReachesMeans(profile.value, kind, floor, row);
    PayOpenEndedMeans(profile, kind, row);
    Connectives(row);
  }

  lemma FailuresMean(profile: Option<Requirements>, row: Row)
    requires profile.Some? && WellFormed(profile, row)
    ensures Holds(Either(Failures(profile.value)), row) <==> Blocked(profile.value, DataOf(row), row.job.kind, row.records)
  {
    var p, d := profile.value, DataOf(row);
    var a, b, c, e, f := When(NeedsWorkAuthorization(p), [RequiredCond()]), StatusFailures(p),
      When(p.futureSponsorship, [FutureDeniedCond()]), PayFailures(p, Internship), PayFailures(p, NewGrad);
    EitherHolds(Failures(p), row);
    SomeAppend(a + b + c, e + f, row);
    SomeAppend(e, f, row);
    SomeAppend(a + b, c, row);
    SomeAppend(a, b, row);
    assert SomeHolds(a, row) <==> NeedsWorkAuthorization(p) && Required(d) by {
      RestrictionsMean(profile, row);
      SomeOne(RequiredCond(), row);
    }
    assert SomeHolds(b, row) <==> NamesStatus(p) && PolicyValue(d, PolicyKey(p.authorization.value)) == Some("denied") by {
      if NamesStatus(p) {
        PolicyTruth(row, PolicyKey(p.authorization.value), "denied");
        SomeOne(Is(PolicyKey(p.authorization.value), "denied"), row);
      }
    }
    assert SomeHolds(c, row) <==> p.futureSponsorship && FutureDenied(d) by {
      SponsorshipMeans(profile, row);
      SomeOne(FutureDeniedCond(), row);
    }
    PayFailuresMean(profile, Internship, row);
    PayFailuresMean(profile, NewGrad, row);
  }

  lemma PayFailuresMean(profile: Option<Requirements>, kind: Kind, row: Row)
    requires profile.Some? && WellFormed(profile, row)
    ensures SomeHolds(PayFailures(profile.value, kind), row) <==> row.job.kind == kind && PayBelow(profile.value, kind, DataOf(row))
    ensures SomeHolds(PayReviews(profile.value, kind), row) <==> row.job.kind == kind && PayUnclear(profile.value, kind, DataOf(row))
  {
    var floor := FloorFor(profile.value, kind);
    if floor.Some? {
      PayMeans(profile, kind, floor.value, row);
      SomeOne(PayFailure(profile.value, kind, floor.value), row);
      SomeOne(PayReview(profile.value, kind, floor.value), row);
    }
  }

  lemma QualifiedReviews(profile: Option<Requirements>, row: Row)
    requires profile.Some? && WellFormed(profile, row)
    ensures SomeHolds([QualifiedCond(CITIZENSHIP), QualifiedCond(PERMANENT)], row) <==> Qualified(DataOf(row))
  {
    var a, b := QualifiedCond(CITIZENSHIP), QualifiedCond(PERMANENT);
    RestrictionsMean(profile, row);
    assert [a, b] == [a] + [b];
    SomeAppend([a], [b], row);
    SomeOne(a, row);
    SomeOne(b, row);
  }

  lemma StatusReviewsMean(p: Requirements, row: Row)
    requires PoliciesSet(row)
    ensures SomeHolds(StatusReviews(p), row) <==>
      NamesStatus(p) && PolicyValue(DataOf(row), PolicyKey(p.authorization.value)) !in [Some("allowed"), Some("denied")]
  {
    if NamesStatus(p) {
      Connectives(row);
      SomeOne(Negate(InList(PolicyText(PolicyKey(p.authorization.value)), ["allowed", "denied"])), row);
    }
  }

  lemma SponsorshipReviewsMean(profile: Option<Requirements>, row: Row)
    requires profile.Some? && WellFormed(profile, row)
    ensures Holds(And(Negate(FutureDeniedCond()), Negate(FutureSupportedCond())), row) <==>
      !FutureDenied(DataOf(row)) && !FutureSupported(DataOf(row), row.records)
  {
    SponsorshipMeans(profile, row);
    NotTruth(FutureDeniedCond(), row, FutureDenied(DataOf(row)));
    NotTruth(FutureSupportedCond(), row, FutureSupported(DataOf(row), row.records));
    AndTruth(Negate(FutureDeniedCond()), Negate(FutureSupportedCond()), row,
             !FutureDenied(DataOf(row)), !FutureSupported(DataOf(row), row.records));
  }

  lemma LocationReviewMeans(profile: Option<Requirements>, row: Row)
    requires profile.Some? && WellFormed(profile, row)
    ensures Holds(LocationCond(profile.value.accepted), row) <==>
      !(DataOf(row).locationKey.Some? && DataOf(row).locationKey.value in profile.value.accepted)
  {
    Connectives(row);
  }

  lemma ReviewsMean(profile: Option<Requirements>, row: Row)
    requires profile.Some? && WellFormed(profile, row)
    ensures Holds(Either(Reviews(profile.value)), row) <==> Unsettled(profile.value, DataOf(row), row.job.kind, row.records)
  {
    var p := profile.value;
    var unclear := And(Negate(FutureDeniedCond()), Negate(FutureSupportedCond()));
    var a, b, c := When(NeedsWorkAuthorization(p), [QualifiedCond(CITIZENSHIP), QualifiedCond(PERMANENT)]), StatusReviews(p),
      When(p.futureSponsorship, [unclear]);
    var e, f, g := When(p.accepted != [], [LocationCond(p.accepted)]), PayReviews(p, Internship), PayReviews(p, NewGrad);
    EitherHolds(Reviews(p), row);
    SomeAppend(a + b + c + e, f + g, row);
    SomeAppend(f, g, row);
    SomeAppend(a + b + c, e, row);
    SomeAppend(a + b, c, row);
    SomeAppend(a, b, row);
    QualifiedReviews(profile, row);
    StatusReviewsMean(p, row);
    SponsorshipReviewsMean(profile, row);
    SomeOne(unclear, row);
    LocationReviewMeans(profile, row);
    SomeOne(LocationCond(p.accepted), row);
    PayFailuresMean(profile, Internship, row);
    PayFailuresMean(profile, NewGrad, row);
  }

  // The CASE, branch by branch.
  lemma CompiledCase(profile: Option<Requirements>, row: Row, now: int)
    requires profile.Some? && Configured(profile.value)
    ensures BucketOf(Compiled(profile, now), row) ==
      if row.job.closed then Excluded
      else if !Holds(FreshCond(now), row) then Review
      else if Holds(Either(Failures(profile.value)), row) then Excluded
      else if Holds(Either(Reviews(profile.value)), row) then Review
      else Matches
  {
    var stale := Negate(Default(FreshCond(now), false));
    assert Truth3(stale, row) == Not3(Truth3(Default(FreshCond(now), false), row));
    FourBranches(JobClosed, stale, Either(Failures(profile.value)), Either(Reviews(profile.value)), row);
  }

  lemma FourBranches(closed: Cond, stale: Cond, fail: Cond, review: Cond, row: Row)
    ensures CaseValue([(closed, Excluded), (stale, Review), (fail, Excluded), (review, Review)], Matches, row) ==
      if Holds(closed, row) then Excluded
      else if Holds(stale, row) then Review
      else if Holds(fail, row) then Excluded
      else if Holds(review, row) then Review
      else Matches
  {
    var three, two, one := [(stale, Review), (fail, Excluded), (review, Review)], [(fail, Excluded), (review, Review)], [(review, Review)];
    assert [(closed, Excluded), (stale, Review), (fail, Excluded), (review, Review)] == [(closed, Excluded)] + three;
    assert three == [(stale, Review)] + two && two == [(fail, Excluded)] + one && one == one + [];
    CaseCons(closed, Excluded, three, Matches, row);
    CaseCons(stale, Review, two, Matches, row);
    CaseCons(fail, Excluded, one, Matches, row);
    CaseCons(review, Review, [], Matches, row);
  }

  // The compiled CASE puts every well-formed row exactly where the program would.
  lemma SqlAgrees(profile: Option<Requirements>, row: Row, now: int)
    requires WellFormed(profile, row)
    ensures BucketOf(Compiled(profile, now), row) == VerdictOf(profile, row, now)
  {
    if profile.None? || !Configured(profile.value) {
      var whens := Compiled(profile, now).whens;
      assert whens == whens + [];
      CaseCons(JobClosed, Excluded, [], Review, row);
    } else {
      FreshMeans(row, now);
      FailuresMean(profile, row);
      ReviewsMean(profile, row);
      CompiledCase(profile, row, now);
    }
  }

  lemma CaseCons(c: Cond, b: Bucket, rest: seq<(Cond, Bucket)>, otherwise: Bucket, row: Row)
    ensures CaseValue([(c, b)] + rest, otherwise, row) == if Holds(c, row) then b else CaseValue(rest, otherwise, row)
  {
    assert ([(c, b)] + rest)[1..] == rest;
  }

  lemma EitherNeverNull(cs: seq<Cond>, row: Row)
    ensures Truth3(Either(cs), row).Some?
  {
    if cs != [] { assert Truth3(Default(Any(cs), false), row).Some?; }
  }

  lemma StaleNeverNull(row: Row, now: int)
    ensures Truth3(Negate(Default(FreshCond(now), false)), row).Some?
  {
    assert Truth3(Default(FreshCond(now), false), row).Some?;
  }

  ghost predicate Defined(whens: seq<(Cond, Bucket)>, row: Row) {
    forall w :: w in whens ==> Truth3(w.0, row).Some?
  }

  lemma FourDefined(a: (Cond, Bucket), b: (Cond, Bucket), c: (Cond, Bucket), d: (Cond, Bucket), row: Row)
    requires Truth3(a.0, row).Some? && Truth3(b.0, row).Some? && Truth3(c.0, row).Some? && Truth3(d.0, row).Some?
    ensures Defined([a, b, c, d], row)
  {
  }

  // Whatever the row, no branch condition is left NULL.
  lemma NeverNull(profile: Option<Requirements>, row: Row, now: int)
    ensures Defined(Compiled(profile, now).whens, row)
  {
    assert Truth3(JobClosed, row).Some?;
    if profile.Some? && Configured(profile.value) {
      var stale, fail, review := Negate(Default(FreshCond(now), false)), Either(Failures(profile.value)), Either(Reviews(profile.value));
      StaleNeverNull(row, now);
      EitherNeverNull(Failures(profile.value), row);
      EitherNeverNull(Reviews(profile.value), row);
      FourDefined((JobClosed, Excluded), (stale, Review), (fail, Excluded), (review, Review), row);
    }
  }

  ghost function Tally(rows: seq<Row>, profile: Option<Requirements>, now: int, b: Bucket): nat {
    if rows == [] then 0
    else (if VerdictOf(profile, rows[0], now) == b then 1 else 0) + Tally(rows[1..], profile, now, b)
  }

  ghost function SqlTally(rows: seq<Row>, e: Case, b: Bucket): nat {
    if rows == [] then 0 else (if BucketOf(e, rows[0]) == b then 1 else 0) + SqlTally(rows[1..], e, b)
  }

  // The counts a user sees are the counts of the jobs as screened one by one, and lose none.
  lemma {:induction false} CountsAgree(rows: seq<Row>, profile: Option<Requirements>, now: int)
    requires forall row :: row in rows ==> WellFormed(profile, row)
    ensures forall b :: SqlTally(rows, Compiled(profile, now), b) == Tally(rows, profile, now, b)
    ensures SqlTally(rows, Compiled(profile, now), Matches) + SqlTally(rows, Compiled(profile, now), Review)
            + SqlTally(rows, Compiled(profile, now), Excluded) == |rows|
  {
    if rows != [] {
      SqlAgrees(profile, rows[0], now);
      CountsAgree(rows[1..], profile, now);
    }
  }

  function HourlyPay(minimum: Option<real>, maximum: Option<real>): Pay {
    Pay(Some("base"), Some("hour"), Some("USD"), Some(true), None, minimum, maximum)
  }

  function BoundlessProjection(): Projection {
    Projection(Some(VERSION), Some(true), None, map[], map[], [HourlyPay(None, Some(10.0)), HourlyPay(None, None)], None)
  }

  function BoundlessRow(now: int): Row {
    Row(Job(false, "u", "l", "t", Internship),
        Some(Check("complete", Some(BoundlessProjection()), Some(now), Target("u", "l", Some("t")))), None)
  }

  const HOURLY_PROFILE := Requirements(None, false, [], Some(20.0), None, "USD")

  lemma BoundlessPay(pay: Pay)
    requires pay in BoundlessProjection().compensation
    ensures Applicable(HOURLY_PROFILE, Internship, pay) && !(Amount(pay).Some? && Amount(pay).value >= 20.0)
    ensures !Selected(Comparable(HOURLY_PROFILE, Internship) + [AmountAtLeast(20.0)], pay)
    ensures !Selected(Comparable(HOURLY_PROFILE, Internship) + [MaximumIsNull], pay)
    ensures Selected(Comparable(HOURLY_PROFILE, Internship), pay) <==> pay.maximum.Some?
  {
    var rows := Comparable(HOURLY_PROFILE, Internship);
    SelectedMeans(HOURLY_PROFILE, Internship, pay);
    SelectedAlso(rows, AmountAtLeast(20.0), pay);
    SelectedAlso(rows, MaximumIsNull, pay);
  }

  // The three EXISTS clauses at that row.
  lemma BoundlessRows(now: int)
    ensures var row, rows := BoundlessRow(now), Comparable(HOURLY_PROFILE, Internship);
      && Truth3(PayExists(rows), row) == Some(true) && Truth3(PayExists(rows + [AmountAtLeast(20.0)]), row) == Some(false)
      && Truth3(PayExists(rows + [MaximumIsNull]), row) == Some(false)
  {
    var row, rows := BoundlessRow(now), Comparable(HOURLY_PROFILE, Internship);
    forall pay | pay in DataOf(row).compensation
      ensures !Selected(rows + [AmountAtLeast(20.0)], pay) && !Selected(rows + [MaximumIsNull], pay)
    {
      BoundlessPay(pay);
    }
    var low := HourlyPay(None, Some(10.0));
    assert DataOf(row).compensation[0] == low;
    BoundlessPay(low);
  }

  lemma BoundlessFailure(now: int)
    ensures Holds(PayFailure(HOURLY_PROFILE, Internship, 20.0), BoundlessRow(now))
  {
    var row, rows := BoundlessRow(now), Comparable(HOURLY_PROFILE, Internship);
    var reaches, open := PayExists(rows + [AmountAtLeast(20.0)]), PayExists(rows + [MaximumIsNull]);
    BoundlessRows(now);
    NotTruth(reaches, row, false);
    NotTruth(open, row, false);
    assert Truth3(ConflictCond(), row) == Some(false);
    NotTruth(ConflictCond(), row, false);
    AndTruth(Negate(open), Negate(ConflictCond()), row, true, true);
    AndTruth(Negate(reaches), And(Negate(open), Negate(ConflictCond())), row, true, true);
    AndTruth(PayExists(rows), And(Negate(reaches), And(Negate(open), Negate(ConflictCond()))), row, true, true);
    AndTruth(JobKindIs(Internship), And(PayExists(rows), And(Negate(reaches), And(Negate(open), Negate(ConflictCond())))), row, true, true);
  }

  lemma BoundlessInSql(now: int)
    ensures BucketOf(Compiled(Some(HOURLY_PROFILE), now), BoundlessRow(now)) == Excluded
  {
    var row := BoundlessRow(now);
    BoundlessFailure(now);
    assert Failures(HOURLY_PROFILE) == [PayFailure(HOURLY_PROFILE, Internship, 20.0)];
    EitherHolds(Failures(HOURLY_PROFILE), row);
    FreshMeans(row, now);
    CompiledCase(Some(HOURLY_PROFILE), row, now);
  }

  lemma BoundlessInCode(now: int)
    ensures VerdictOf(Some(HOURLY_PROFILE), BoundlessRow(now), now) == Review
  {
    var d := BoundlessProjection();
    assert d.compensation[0] == HourlyPay(None, Some(10.0)) && d.compensation[1] == HourlyPay(None, None);
    BoundlessPay(d.compensation[0]);
    BoundlessPay(d.compensation[1]);
    assert PayStated(HOURLY_PROFILE, Internship, d) && PayOpenEnded(HOURLY_PROFILE, Internship, d);
    forall pay | pay in d.compensation ensures !(Amount(pay).Some? && Amount(pay).value >= 20.0) { BoundlessPay(pay); }
    assert !Blocked(HOURLY_PROFILE, d, Internship, None) && Unsettled(HOURLY_PROFILE, d, Internship, None);
  }

  // Why a range needs a bound: beside a below-target range, one without any bound keeps the
  // program at review while the SQL, which never selects it, excludes the job.
  lemma BoundlessRangeDiverges(now: int)
    ensures !WellFormed(Some(HOURLY_PROFILE), BoundlessRow(now))
    ensures VerdictOf(Some(HOURLY_PROFILE), BoundlessRow(now), now) == Review
    ensures BucketOf(Compiled(Some(HOURLY_PROFILE), now), BoundlessRow(now)) == Excluded
  {
    var boundless := BoundlessProjection().compensation[1];
    assert boundless in DataOf(BoundlessRow(now)).compensation && boundless.minimum.None? && boundless.maximum.None?;
    BoundlessInCode(now);
    BoundlessInSql(now);
  }

  const SPONSORSHIP_PROFILE := Requirements(None, true, [], None, None, "USD")

  function NullPolicyProjection(): Projection {
    Projection(Some(VERSION), Some(true), None, map["future_sponsorship" := None, "sponsorship" := Some("allowed")], map[], [], None)
  }

  function NullPolicyRow(now: int): Row {
    Row(Job(false, "u", "l", "t", Internship),
        Some(Check("complete", Some(NullPolicyProjection()), Some(now), Target("u", "l", Some("t")))), None)
  }

  lemma NullPolicyTexts(now: int)
    ensures var row := NullPolicyRow(now);
      && Truth3(Is("future_sponsorship", "denied"), row) == Some(false) && Truth3(Is("future_sponsorship", "allowed"), row) == Some(false)
      && Truth3(Is("future_sponsorship", "unknown"), row) == Some(true)
      && Truth3(Is("sponsorship", "denied"), row) == Some(false) && Truth3(Is("sponsorship", "allowed"), row) == Some(true)
      && Truth3(RestrictedCond(), row) == Some(false)
  {
    Connectives(NullPolicyRow(now));
  }

  lemma NullPolicyClauses(now: int)
    ensures var row := NullPolicyRow(now);
      Truth3(FutureDeniedCond(), row) == Some(false) && Truth3(FutureSupportedCond(), row) == Some(true)
  {
    var row := NullPolicyRow(now);
    NullPolicyTexts(now);
    var unknown := Is("future_sponsorship", "unknown");
    AndTruth(unknown, Is("sponsorship", "denied"), row, true, false);
    OrTruth(Is("future_sponsorship", "denied"), And(unknown, Is("sponsorship", "denied")), row, false, false);
    assert Truth3(CurrentCond(), row) == Or3(Some(true), Truth3(And(Is("sponsorship", "unknown"), RecentH1b(MIN_ACTIVE_H1B_YEAR)), row));
    NotTruth(RestrictedCond(), row, false);
    AndTruth(Negate(RestrictedCond()), CurrentCond(), row, true, true);
    AndTruth(unknown, And(Negate(RestrictedCond()), CurrentCond()), row, true, true);
    OrTruth(Is("future_sponsorship", "allowed"), And(unknown, And(Negate(RestrictedCond()), CurrentCond())), row, false, true);
  }

  lemma NullPolicyRestrictions(now: int)
    ensures var row := NullPolicyRow(now);
      !Holds(RequiredCond(), row) && !Holds(QualifiedCond(CITIZENSHIP), row) && !Holds(QualifiedCond(PERMANENT), row)
  {
    Connectives(NullPolicyRow(now));
  }

  lemma NullPolicyLists(now: int)
    ensures !SomeHolds(Failures(SPONSORSHIP_PROFILE), NullPolicyRow(now)) && !SomeHolds(Reviews(SPONSORSHIP_PROFILE), NullPolicyRow(now))
  {
    var row := NullPolicyRow(now);
    var denied, supported := FutureDeniedCond(), FutureSupportedCond();
    var unclear := And(Negate(denied), Negate(supported));
    NullPolicyClauses(now);
    NullPolicyRestrictions(now);
    NotTruth(denied, row, false);
    NotTruth(supported, row, true);
    AndTruth(Negate(denied), Negate(supported), row, true, false);
    assert Failures(SPONSORSHIP_PROFILE) == [RequiredCond(), denied];
    assert Reviews(SPONSORSHIP_PROFILE) == [QualifiedCond(CITIZENSHIP), QualifiedCond(PERMANENT), unclear];
  }

  lemma NullPolicyInSql(now: int)
    ensures BucketOf(Compiled(Some(SPONSORSHIP_PROFILE), now), NullPolicyRow(now)) == Matches
  {
    var row := NullPolicyRow(now);
    NullPolicyLists(now);
    EitherHolds(Failures(SPONSORSHIP_PROFILE), row);
    EitherHolds(Reviews(SPONSORSHIP_PROFILE), row);
    FreshMeans(row, now);
    CompiledCase(Some(SPONSORSHIP_PROFILE), row, now);
  }

  lemma NullPolicyInCode(now: int)
    ensures VerdictOf(Some(SPONSORSHIP_PROFILE), NullPolicyRow(now), now) == Review
  {
    var d := NullPolicyProjection();
    assert !Blocked(SPONSORSHIP_PROFILE, d, Internship, None) && Unsettled(SPONSORSHIP_PROFILE, d, Internship, None);
  }

  // Why a policy needs a value: the SQL reads a null as unknown and goes on to the current policy,
  // where the program finds no answer in it and asks for review.
  lemma NullPolicyDiverges(now: int)
    ensures !WellFormed(Some(SPONSORSHIP_PROFILE), NullPolicyRow(now))
    ensures VerdictOf(Some(SPONSORSHIP_PROFILE), NullPolicyRow(now), now) == Review
    ensures BucketOf(Compiled(Some(SPONSORSHIP_PROFILE), now), NullPolicyRow(now)) == Matches
  {
    assert DataOf(NullPolicyRow(now)).policies["future_sponsorship"].None?;
    NullPolicyInCode(now);
    NullPolicyInSql(now);
  }
}
