/** How one source observation relates to a job's recorded lifecycle. */
module Classifier {
  import opened Prelude
  import Location

  datatype Identity = Identity(namespace: string, id: string)

  // What the program computes from text alone: canonical URLs and their rank, the stable identity
  // a source, its own id and a URL reveal, the direct ATS sources, digests, and location text.
  datatype Env = Env(
    canon: string -> string,
    rank: string -> int,
    identityOf: (Option<string>, Option<string>, string) -> Option<Identity>,
    direct: Option<string> -> bool,
    digest: (string, string, string, bool) -> string,
    text: Location.Text)

  ghost predicate ValidEnv(env: Env) {
    && env.canon("") == ""
    && (forall u :: env.canon(env.canon(u)) == env.canon(u))
    && Location.Sound(env.text)
  }

  // `explicit` is the namespace and external id when both are present.
  datatype Candidate = Candidate(
    baseHash: string, contentHash: string, company: int, title: string, season: int, jobType: string,
    applyUrl: string, location: string, locationSource: Option<string>, closed: bool,
    postedAt: Option<int>, observedAt: Option<int>,
    source: Option<string>, sourceId: Option<string>, explicit: Option<Identity>, reposted: bool)

  datatype Posting = Posting(
    company: int, title: string, contentHash: string, applyUrl: string, location: string,
    locationSource: Option<string>, season: int, jobType: string, closed: bool, postedAt: Option<int>)

  datatype Kind = Discovered | Reposted

  datatype Occurrence = Occurrence(
    kind: Kind, observedAt: int, postedAt: Option<int>, applyUrl: string, explicit: Option<Identity>,
    source: Option<string>, sourceId: Option<string>, previous: Option<nat>, closedAt: Option<int>)

  // Identities observed for one occurrence, by source and source id.
  type Seen = map<(string, string), Option<Identity>>

  datatype Evidence = Evidence(occurrence: Occurrence, identities: set<Identity>)

  datatype Decision = Discover | OpenUpdate | Close | Reopen | Repost | AmbiguousReopen

  function ContentHash(env: Env, base: string, url: string, location: string, closed: bool): string {
    env.digest(base, env.canon(url), location, closed)
  }

  // A direct link beats a redirect; equals keep the current winner.
  function ChooseUrl(env: Env, current: string, incoming: string): string {
    var c, i := env.canon(current), env.canon(incoming);
    if c == "" then i else if i == "" then c else if env.rank(i) > env.rank(c) then i else c
  }

  function CandidateIdentity(env: Env, c: Candidate): Option<Identity> {
    if c.explicit.Some? then c.explicit else env.identityOf(c.source, c.sourceId, c.applyUrl)
  }

  function OccurrenceIdentity(env: Env, o: Occurrence): Option<Identity> {
    if o.explicit.Some? then o.explicit else env.identityOf(o.source, o.sourceId, o.applyUrl)
  }

  function AsSet(i: Option<Identity>): set<Identity> {
    if i.None? then {} else {i.value}
  }

  // Every identity on record for an occurrence: its URL's, its own, and those sources reported.
  function IdentitiesOf(env: Env, o: Occurrence, seen: Seen): set<Identity> {
    AsSet(env.identityOf(o.source, o.sourceId, o.applyUrl)) + AsSet(o.explicit)
    + set k | k in seen && seen[k].Some? :: seen[k].value
  }

  function Comparable(incoming: Option<Identity>, identities: set<Identity>): set<Identity> {
    set i | i in identities && incoming.Some? && i.namespace == incoming.value.namespace
  }

  predicate IsRepostCandidate(env: Env, c: Candidate, existing: Posting, e: Evidence) {
    var incoming := CandidateIdentity(env, c);
    var comparable := Comparable(incoming, e.identities);
    if !existing.closed || e.occurrence.closedAt.None? || c.closed then false
    else if incoming.Some? && e.identities != {} then
      if comparable == {} || incoming.value in comparable then false
      else if c.postedAt.Some? && e.occurrence.postedAt.Some? then c.postedAt.value > e.occurrence.postedAt.value
      else true
    else
      var previous := if e.occurrence.postedAt.Some? then e.occurrence.postedAt else existing.postedAt;
      env.direct(c.source)
      && c.postedAt.Some? && previous.Some? && c.postedAt.value > previous.value
      && env.canon(c.applyUrl) != env.canon(e.occurrence.applyUrl)
  }

  function Decide(env: Env, c: Candidate, existing: Option<Posting>, evidence: Option<Evidence>): Decision {
    if existing.None? then Discover
    else if c.closed then (if existing.value.closed then OpenUpdate else Close)
    else if !existing.value.closed then OpenUpdate
    else if evidence.None? then AmbiguousReopen
    else
      var incoming := CandidateIdentity(env, c);
      if incoming.Some? && incoming.value in Comparable(incoming, evidence.value.identities) then
        (if evidence.value.occurrence.closedAt.None? then OpenUpdate else Reopen)
      else if evidence.value.occurrence.closedAt.None? then AmbiguousReopen
      else if IsRepostCandidate(env, c, existing.value, evidence.value) then Repost
      else AmbiguousReopen
  }

  // The observation as it will be persisted: an ambiguous one takes on the closed posting's state.
  function Prepare(env: Env, c: Candidate, d: Decision, existing: Option<Posting>): Candidate {
    if d.Repost? then c.(reposted := true)
    else if !d.AmbiguousReopen? || existing.None? then c.(reposted := false)
    else
      var p, url := existing.value, env.canon(existing.value.applyUrl);
      c.(applyUrl := url, location := p.location, closed := true, reposted := false,
         contentHash := if p.contentHash != "" then p.contentHash else ContentHash(env, c.baseHash, url, p.location, true))
  }

  // Another worker already created this very repost.
  predicate IsSameRepost(env: Env, c: Candidate, o: Occurrence) {
    var mine, its := CandidateIdentity(env, c), OccurrenceIdentity(env, o);
    o.kind.Reposted?
    && if mine.Some? || its.Some? then mine.Some? && mine == its
       else c.postedAt.Some? && c.postedAt == o.postedAt && env.canon(c.applyUrl) == env.canon(o.applyUrl)
  }

  // A candidate judged a repost of an occurrence is never the observation that created it.
  lemma RepostIsNew(env: Env, c: Candidate, existing: Option<Posting>, o: Occurrence, seen: Seen)
    requires Decide(env, c, existing, Some(Evidence(o, IdentitiesOf(env, o, seen)))) == Repost
    ensures !IsSameRepost(env, Prepare(env, c, Repost, existing), o)
  {
    var its := OccurrenceIdentity(env, o);
    assert its.Some? ==> its.value in IdentitiesOf(env, o, seen);
  }

  // An open observation revives a closed posting's own occurrence exactly when it shows an
  // identity on record for it.
  lemma ReopenNeedsIdentity(env: Env, c: Candidate, existing: Posting, o: Occurrence, seen: Seen)
    requires existing.closed && o.closedAt.Some?
    ensures var incoming := CandidateIdentity(env, c);
      Decide(env, c, Some(existing), Some(Evidence(o, IdentitiesOf(env, o, seen)))) == Reopen
      <==> !c.closed && incoming.Some? && incoming.value in IdentitiesOf(env, o, seen)
  {
  }
}
