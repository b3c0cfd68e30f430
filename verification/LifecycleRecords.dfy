/** Field by field: which observation is judged what, and what one step writes down for it. */
module LifecycleRecords {
  import opened Prelude
  import opened Classifier
  import opened Lifecycle
  import Location

  // ----- The decision -----

  // The identity an observation shows: its own, or else the one its source and URL reveal.
  function Shown(env: Env, c: Candidate): Option<Identity> {
    if c.explicit.Some? then c.explicit else env.identityOf(c.source, c.sourceId, c.applyUrl)
  }

  // The identity is on record for the occurrence: its own, its URL's, or one a source reported.
  ghost predicate OnRecord(env: Env, o: Occurrence, seen: Seen, i: Identity) {
    o.explicit == Some(i) || env.identityOf(o.source, o.sourceId, o.applyUrl) == Some(i)
    || exists k :: k in seen && seen[k] == Some(i)
  }

  lemma OnRecordIs(env: Env, o: Occurrence, seen: Seen, i: Identity)
    ensures i in IdentitiesOf(env, o, seen) <==> OnRecord(env, o, seen, i)
  {
    if k :| k in seen && seen[k] == Some(i) { assert i in (set k | k in seen && seen[k].Some? :: seen[k].value); }
  }

  // A new identity in a namespace on record, not dated at or before the occurrence.
  ghost predicate NewIdentity(env: Env, c: Candidate, o: Occurrence, seen: Seen) {
    var shown := Shown(env, c);
    && shown.Some? && !OnRecord(env, o, seen, shown.value)
    && (exists i :: OnRecord(env, o, seen, i) && i.namespace == shown.value.namespace)
    && !(c.postedAt.Some? && o.postedAt.Some? && c.postedAt.value <= o.postedAt.value)
  }

  // With no identities to compare: a direct source, a strictly later date, and another URL.
  ghost predicate LaterElsewhere(env: Env, c: Candidate, existing: Posting, o: Occurrence, seen: Seen) {
    var previous := if o.postedAt.Some? then o.postedAt else existing.postedAt;
    && (Shown(env, c).None? || forall i :: !OnRecord(env, o, seen, i))
    && env.direct(c.source)
    && c.postedAt.Some? && previous.Some? && previous.value < c.postedAt.value
    && env.canon(c.applyUrl) != env.canon(o.applyUrl)
  }

  // An open sight of a closed posting and occurrence is a repost in exactly these two cases.
  lemma RepostExactly(env: Env, c: Candidate, existing: Posting, o: Occurrence, seen: Seen)
    requires existing.closed && o.closedAt.Some? && !c.closed
    ensures Decide(env, c, Some(existing), Some(Evidence(o, IdentitiesOf(env, o, seen)))) == Repost
            <==> NewIdentity(env, c, o, seen) || LaterElsewhere(env, c, existing, o, seen)
  {
    var ids := IdentitiesOf(env, o, seen);
    forall i ensures i in ids <==> OnRecord(env, o, seen, i) { OnRecordIs(env, o, seen, i); }
    var comparable := Comparable(Shown(env, c), ids);
    assert comparable == {} <==> forall i :: OnRecord(env, o, seen, i) ==> i !in comparable;
    assert ids == {} <==> forall i :: !OnRecord(env, o, seen, i);
  }

  // Every other decision, by the state of the posting, the candidate and the latest occurrence.
  lemma DecisionExactly(env: Env, c: Candidate, existing: Option<Posting>, o: Occurrence, seen: Seen)
    ensures var d := Decide(env, c, existing, Some(Evidence(o, IdentitiesOf(env, o, seen))));
      var proved := Shown(env, c).Some? && OnRecord(env, o, seen, Shown(env, c).value);
      && (d == Discover <==> existing.None?)
      && (d == Close <==> existing.Some? && !existing.value.closed && c.closed)
      && (d == Reopen <==> existing.Some? && existing.value.closed && !c.closed && proved && o.closedAt.Some?)
      && (d == OpenUpdate <==> existing.Some? && (existing.value.closed == c.closed || (!c.closed && proved && o.closedAt.None?)))
      && (d == Repost ==> existing.Some? && existing.value.closed && !c.closed && !proved && o.closedAt.Some?)
  {
    var shown := Shown(env, c);
    if shown.Some? {
      OnRecordIs(env, o, seen, shown.value);
      assert shown.value in Comparable(shown, IdentitiesOf(env, o, seen)) <==> shown.value in IdentitiesOf(env, o, seen);
    }
  }

  // Without an occurrence to compare with, nothing open is believed about a closed posting.
  lemma NoEvidenceIsAmbiguous(env: Env, c: Candidate, existing: Posting)
    ensures var d := Decide(env, c, Some(existing), None);
      d == if existing.closed == c.closed then OpenUpdate else if c.closed then Close else AmbiguousReopen
  {
  }

  // A repost is recognised by whoever sees the same observation again, provided there is anything to
  // know it by: an identity the cleaned URL still reveals, or a date.
  lemma RepostRecognised(env: Env, c: Candidate, previous: Option<nat>, closed: bool, now: int)
    requires ValidEnv(env)
    requires env.identityOf(c.source, c.sourceId, env.canon(c.applyUrl)) == env.identityOf(c.source, c.sourceId, c.applyUrl)
    ensures IsSameRepost(env, c, NewOccurrence(env, c, Reposted, previous, closed, now)) <==> Shown(env, c).Some? || c.postedAt.Some?
    ensures !IsSameRepost(env, c, NewOccurrence(env, c, Discovered, previous, closed, now))
  {
  }

  // ----- The row -----

  // The persisted link changes only for a strictly better one, or when there is none.
  lemma LinkExactly(env: Env, job: Candidate, prior: Option<Posting>)
    requires ValidEnv(env)
    ensures var mine := env.canon(job.applyUrl);
      UrlFor(env, job, prior) ==
        if prior.None? || job.reposted then mine
        else
          var held := env.canon(prior.value.applyUrl);
          if held == "" || (mine != "" && env.rank(held) < env.rank(mine)) then mine else held
  {
  }

  // An unreposted row keeps the earliest date it was ever given.
  lemma DateExactly(env: Env, job: Candidate, prior: Option<Posting>)
    ensures var at := Upserted(env, job, prior).postedAt;
      if prior.None? || job.reposted then at == job.postedAt
      else
        && (at.None? <==> job.postedAt.None? && prior.value.postedAt.None?)
        && (at.Some? ==> at == job.postedAt || at == prior.value.postedAt)
        && (at.Some? && job.postedAt.Some? ==> at.value <= job.postedAt.value)
        && (at.Some? && prior.value.postedAt.Some? ==> at.value <= prior.value.postedAt.value)
  {
  }

  // The recorded digest is that of the state recorded beside it.
  predicate Honest(env: Env, base: string, p: Posting) {
    p.contentHash == env.digest(base, p.applyUrl, p.location, p.closed)
  }

  predicate HonestSight(env: Env, base: string, c: Candidate) {
    c.baseHash == base && c.contentHash == env.digest(base, env.canon(c.applyUrl), c.location, c.closed)
  }

  // Whatever the row ends up holding, its digest is recomputed or is already that of what it holds.
  lemma RowIsHonest(env: Env, base: string, job: Candidate, prior: Option<Posting>)
    requires ValidEnv(env) && HonestSight(env, base, job)
    ensures Honest(env, base, Upserted(env, job, prior))
  {
    UrlCanonical(env, job, prior);
  }

  lemma AmbiguousIsHonest(env: Env, base: string, c: Candidate, prior: Posting)
    requires ValidEnv(env) && c.baseHash == base && prior.closed && Honest(env, base, prior) && env.canon(prior.applyUrl) == prior.applyUrl
    ensures HonestSight(env, base, Prepare(env, c, AmbiguousReopen, Some(prior)))
  {
  }

  lemma StepIsHonest(env: Env, base: string, life: Option<Life>, c: Candidate, now: int)
    requires ValidEnv(env) && Consistent(env, life) && HonestSight(env, base, c)
    requires life.Some? ==> Honest(env, base, life.value.posting)
    ensures Honest(env, base, Step(env, life, c, now).0.posting)
  {
    var job := Prepared(env, life, c);
    if DecisionOf(env, life, c) == AmbiguousReopen { AmbiguousIsHonest(env, base, c, life.value.posting); }
    RowIsHonest(env, base, job, PostingOf(life));
  }

  // Over every run of honest observations of one job, the stored digest is that of the stored state.
  lemma {:induction false} DigestAlwaysHonest(env: Env, base: string, cs: seq<(Candidate, int)>)
    requires ValidEnv(env) && forall i :: 0 <= i < |cs| ==> HonestSight(env, base, cs[i].0)
    ensures Run(env, cs).Some? ==> Honest(env, base, Run(env, cs).value.posting)
  {
    if cs != [] {
      var init := cs[..|cs| - 1];
      DigestAlwaysHonest(env, base, init);
      RunAgrees(env, init);
      StepIsHonest(env, base, Run(env, init), cs[|cs| - 1].0, cs[|cs| - 1].1);
    }
  }

  // ----- The step -----

  function SeenAt(c: Candidate, now: int): int {
    if c.observedAt.Some? then c.observedAt.value else now
  }

  // A first sight starts the record.
  lemma FirstSightRecords(env: Env, c: Candidate, now: int)
    ensures var (life, outcome) := Step(env, None, c, now);
      && outcome == NewRole && life.posting.closed == c.closed
      && life.chain == [Occurrence(Discovered, SeenAt(c, now), c.postedAt, env.canon(c.applyUrl), c.explicit, c.source, c.sourceId,
                                   None, if c.closed then Some(SeenAt(c, now)) else None)]
      && life.events == (if c.closed then [] else [Event(0, Discovered, SeenAt(c, now))])
      && life.log == [LogEntry(None, if c.closed then Closed else Open)]
  {
  }

  // A repost adds an occurrence, an event and a transition, and takes over the posting's link and date.
  lemma RepostRecords(env: Env, life: Life, c: Candidate, now: int)
    requires ValidEnv(env) && Agrees(env, life) && DecisionOf(env, Some(life), c) == Repost
    ensures var (after, outcome) := Step(env, Some(life), c, now);
      var n := |life.chain|;
      && outcome == RoleReposted && !after.posting.closed
      && after.posting.applyUrl == env.canon(c.applyUrl) && after.posting.postedAt == c.postedAt
      && after.chain == life.chain + [Occurrence(Reposted, SeenAt(c, now), c.postedAt, env.canon(c.applyUrl), c.explicit, c.source,
                                                 c.sourceId, Some(n - 1), None)]
      && after.events == life.events + [Event(n, Reposted, SeenAt(c, now))]
      && after.log == life.log + [LogEntry(Some(Closed), Open)]
  {
    RepostCreates(env, life, c);
  }

  // Every other sight keeps the chain's length and the events, and moves the latest closure with the posting's.
  lemma OtherwiseRecords(env: Env, life: Life, c: Candidate, now: int)
    requires ValidEnv(env) && Agrees(env, life) && DecisionOf(env, Some(life), c) != Repost
    ensures var (after, outcome) := Step(env, Some(life), c, now);
      var n := |life.chain| - 1;
      var d := DecisionOf(env, Some(life), c);
      && after.events == life.events
      && (d == Close ==>
            && after.chain == life.chain[n := life.chain[n].(closedAt := Some(SeenAt(c, now)))] && after.posting.closed
            && after.log == life.log + [LogEntry(Some(Open), Closed)] && outcome == RoleClosed)
      && (d == Reopen ==>
            && after.chain == life.chain[n := life.chain[n].(closedAt := None)] && !after.posting.closed
            && after.log == life.log + [LogEntry(Some(Closed), Open)] && outcome == RoleUpdated)
      && (d != Close && d != Reopen ==>
            && after.chain == life.chain && after.log == life.log && after.posting.closed == life.posting.closed
            && outcome == (if after.posting.contentHash != life.posting.contentHash then RoleUpdated else NoOp))
  {
    RepostCreates(env, life, c);
  }

  // The row always takes over the observation's company, title, season and type.
  lemma NamesFollow(env: Env, life: Option<Life>, c: Candidate, now: int)
    ensures var p := Step(env, life, c, now).0.posting;
      p.company == c.company && p.title == c.title && p.season == c.season && p.jobType == c.jobType
  {
  }

  // ----- The location -----

  function LocationOf(life: Option<Life>): Location.Held {
    if life.None? then Location.Held(None, None) else Location.Held(Some(life.value.posting.location), life.value.posting.locationSource)
  }

  function Told(cs: seq<(Candidate, int)>): seq<Location.Observation> {
    seq(|cs|, i requires 0 <= i < |cs| => Location.Observation(cs[i].0.location, cs[i].0.locationSource))
  }

  // A sight that is not ambiguous moves the location as the sources' authority says.
  lemma LocationFollows(env: Env, life: Option<Life>, c: Candidate, now: int)
    requires DecisionOf(env, life, c) != AmbiguousReopen
    ensures LocationOf(Some(Step(env, life, c, now).0))
         == Location.Reconcile(env.text, LocationOf(life), Location.Observation(c.location, c.locationSource))
  {
  }

  predicate ClearAt(env: Env, cs: seq<(Candidate, int)>, i: nat) {
    i < |cs| && DecisionOf(env, Run(env, cs[..i]), cs[i].0) != AmbiguousReopen
  }

  ghost predicate NeverAmbiguous(env: Env, cs: seq<(Candidate, int)>) {
    forall i :: 0 <= i < |cs| ==> ClearAt(env, cs, i)
  }

  lemma ClearBefore(env: Env, cs: seq<(Candidate, int)>, m: nat, i: nat)
    requires i < m <= |cs|
    ensures ClearAt(env, cs[..m], i) == ClearAt(env, cs, i)
  {
    assert cs[..m][..i] == cs[..i];
  }

  // Over such a run the posting's location is what the whole history of sights comes to.
  lemma {:induction false} LocationIsTheHistory(env: Env, cs: seq<(Candidate, int)>)
    requires NeverAmbiguous(env, cs)
    ensures LocationOf(Run(env, cs)) == Location.Fold(env.text, Told(cs))
  {
    if cs != [] {
      var n := |cs| - 1;
      assert ClearAt(env, cs, n);
      forall i | 0 <= i < n ensures ClearAt(env, cs[..n], i) { ClearBefore(env, cs, n, i); }
      LocationIsTheHistory(env, cs[..n]);
      assert Told(cs)[..n] == Told(cs[..n]);
      LocationFollows(env, Run(env, cs[..n]), cs[n].0, cs[n].1);
    }
  }

  // ----- The record of sources -----

  // A named sight is put on record for the latest occurrence: the identity its URL reveals, or else
  // its own. Nothing else on record for any occurrence changes.
  lemma SightIsNoted(env: Env, life: Option<Life>, c: Candidate, now: int, source: string, id: string)
    requires ValidEnv(env) && Consistent(env, life)
    ensures var after := Step(env, life, c, now).0;
      var n := |after.chain| - 1;
      var before := if life.Some? && n < |life.value.seen| then life.value.seen[n] else map[];
      var revealed := env.identityOf(c.source, c.sourceId, c.applyUrl);
      && |after.seen| == n + 1 && (life.Some? ==> n <= |life.value.seen| && after.seen[..n] == life.value.seen[..n])
      && if c.source == Some(source) && c.sourceId == Some(id) && source != "" && id != "" then
           (source, id) in after.seen[n] && after.seen[n][(source, id)] == (if revealed.Some? then revealed else c.explicit)
         else
           ((source, id) in after.seen[n] <==> (source, id) in before)
           && ((source, id) in before ==> after.seen[n][(source, id)] == before[(source, id)])
  {
    StepAgrees(env, life, c, now);
    var after := Step(env, life, c, now).0;
    var n := |after.chain| - 1;
    NotedKey(env, if life.Some? && n < |life.value.seen| then life.value.seen[n] else map[], c, source, id);
    SeenExactly(env, life, c, now);
  }

  lemma NotedKey(env: Env, seen: Seen, c: Candidate, source: string, id: string)
    ensures var revealed := env.identityOf(c.source, c.sourceId, c.applyUrl);
      if c.source == Some(source) && c.sourceId == Some(id) && source != "" && id != "" then
        (source, id) in Noted(env, seen, c) && Noted(env, seen, c)[(source, id)] == (if revealed.Some? then revealed else c.explicit)
      else
        ((source, id) in Noted(env, seen, c) <==> (source, id) in seen)
        && ((source, id) in seen ==> Noted(env, seen, c)[(source, id)] == seen[(source, id)])
  {
  }

  lemma SeenExactly(env: Env, life: Option<Life>, c: Candidate, now: int)
    requires ValidEnv(env) && Consistent(env, life)
    ensures var after := Step(env, life, c, now).0;
      var n := |after.chain| - 1;
      var before := if life.Some? && n < |life.value.seen| then life.value.seen[n] else map[];
      && n >= 0 && |after.seen| == n + 1 && after.seen[n] == Noted(env, before, c)
      && (life.Some? ==> n <= |life.value.seen| && after.seen[..n] == life.value.seen[..n])
  {
    SeenLength(env, life, c, now);
    SeenAfterIs(env, life, c, |Step(env, life, c, now).0.chain|);
  }

  lemma SeenAfterIs(env: Env, life: Option<Life>, c: Candidate, length: nat)
    requires if life.Some? then length > 0 && (length == |life.value.seen| || length == |life.value.seen| + 1) else length == 1
    ensures var after := SeenAfter(env, life, c, length);
      var before := if life.Some? && length - 1 < |life.value.seen| then life.value.seen[length - 1] else map[];
      && |after| == length && after[length - 1] == Noted(env, before, c)
      && (life.Some? ==> after[..length - 1] == life.value.seen[..length - 1])
  {
  }

  lemma SeenLength(env: Env, life: Option<Life>, c: Candidate, now: int)
    requires Consistent(env, life)
    ensures var length := |Step(env, life, c, now).0.chain|;
      if life.Some? then length == |life.value.chain| || length == |life.value.chain| + 1 else length == 1
  {
  }
}
