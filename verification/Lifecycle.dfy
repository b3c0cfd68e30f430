/** The durable lifecycle of one logical job under the bulk write path: its posting, its chain of
    occurrences, its discovery events and its status log. */
module Lifecycle {
  import opened Prelude
  import opened Classifier
  import Location

  datatype Phase = Open | Closed
  datatype LogEntry = LogEntry(before: Option<Phase>, after: Phase)
  datatype Event = Event(occurrence: nat, kind: Kind, at: int)
  datatype Outcome = NewRole | RoleReposted | RoleClosed | RoleUpdated | NoOp

  datatype Life = Life(
    posting: Posting, chain: seq<Occurrence>, seen: seq<Seen>, log: seq<LogEntry>, events: seq<Event>)

  function PhaseOf(closed: bool): Phase {
    if closed then Closed else Open
  }

  predicate HasEvidence(life: Option<Life>) {
    life.Some? && life.value.chain != [] && |life.value.seen| == |life.value.chain|
  }

  function EvidenceOf(env: Env, life: Option<Life>): Option<Evidence> {
    if !HasEvidence(life) then None
    else
      var n := |life.value.chain| - 1;
      Some(Evidence(life.value.chain[n], IdentitiesOf(env, life.value.chain[n], life.value.seen[n])))
  }

  function PostingOf(life: Option<Life>): Option<Posting> {
    if life.None? then None else Some(life.value.posting)
  }

  function DecisionOf(env: Env, life: Option<Life>, c: Candidate): Decision {
    Decide(env, c, PostingOf(life), EvidenceOf(env, life))
  }

  function Prepared(env: Env, life: Option<Life>, c: Candidate): Candidate {
    Prepare(env, c, DecisionOf(env, life, c), PostingOf(life))
  }

  function UrlFor(env: Env, job: Candidate, prior: Option<Posting>): string {
    if prior.None? then ChooseUrl(env, "", job.applyUrl)
    else if job.reposted then env.canon(job.applyUrl)
    else ChooseUrl(env, prior.value.applyUrl, ChooseUrl(env, "", job.applyUrl))
  }

  function LocationFor(env: Env, job: Candidate, prior: Option<Posting>): Location.Held {
    Location.Reconcile(env.text,
      if prior.None? then Location.Held(None, None) else Location.Held(Some(prior.value.location), prior.value.locationSource),
      Location.Observation(job.location, job.locationSource))
  }

  function HashFor(env: Env, job: Candidate, url: string, location: string): string {
    if location != job.location then ContentHash(env, job.baseHash, url, location, job.closed)
    else if url != job.applyUrl || env.canon(job.applyUrl) != job.applyUrl
    then ContentHash(env, job.baseHash, url, job.location, job.closed)
    else job.contentHash
  }

  function Earliest(a: Option<int>, b: Option<int>): Option<int> {
    if a.None? then b else if b.None? then a else if a.value < b.value then a else b
  }

  // The row the upsert leaves behind for an effective observation.
  function Upserted(env: Env, job: Candidate, prior: Option<Posting>): Posting {
    var url, held := UrlFor(env, job, prior), LocationFor(env, job, prior);
    var location := held.location.GetOr(job.location);
    Posting(job.company, job.title, HashFor(env, job, url, location), url, location, held.source, job.season, job.jobType,
            job.closed,
            if prior.None? || job.reposted then job.postedAt else Earliest(prior.value.postedAt, job.postedAt))
  }

  function NewOccurrence(env: Env, job: Candidate, kind: Kind, previous: Option<nat>, closed: bool, now: int): Occurrence {
    var at := job.observedAt.GetOr(now);
    Occurrence(kind, at, job.postedAt, env.canon(job.applyUrl), job.explicit, job.source, job.sourceId, previous,
               if closed then Some(at) else None)
  }

  // The identity one source observation puts on record, if it names a source and an id.
  function Noted(env: Env, seen: Seen, c: Candidate): Seen {
    if c.source.None? || c.source.value == "" || c.sourceId.None? || c.sourceId.value == "" then seen
    else
      var identity := env.identityOf(c.source, c.sourceId, c.applyUrl);
      seen[(c.source.value, c.sourceId.value) := if identity.Some? then identity else c.explicit]
  }

  function WasClosed(life: Option<Life>): Option<bool> {
    if life.None? then None
    else if life.value.chain != [] then Some(life.value.chain[|life.value.chain| - 1].closedAt.Some?)
    else Some(life.value.posting.closed)
  }

  predicate CreatesRepost(env: Env, life: Option<Life>, job: Candidate, posting: Posting) {
    job.reposted && life.Some? && WasClosed(life) == Some(true) && !posting.closed && life.value.chain != []
    && !IsSameRepost(env, job, life.value.chain[|life.value.chain| - 1])
  }

  function ChainAfter(env: Env, life: Option<Life>, job: Candidate, posting: Posting, now: int): seq<Occurrence> {
    if life.None? then [NewOccurrence(env, job, Discovered, None, posting.closed, now)]
    else
      var chain := life.value.chain;
      if CreatesRepost(env, life, job, posting) then
        chain + [NewOccurrence(env, job, Reposted, Some(|chain| - 1), posting.closed, now)]
      else if chain == [] then [NewOccurrence(env, job, Discovered, None, posting.closed, now)]
      else
        var n := |chain| - 1;
        if chain[n].closedAt.None? && posting.closed then chain[n := chain[n].(closedAt := Some(job.observedAt.GetOr(now)))]
        else if chain[n].closedAt.Some? && !posting.closed then chain[n := chain[n].(closedAt := None)]
        else chain
  }

  function SeenAfter(env: Env, life: Option<Life>, c: Candidate, length: nat): seq<Seen> {
    if life.Some? && length == |life.value.seen| && length > 0
    then life.value.seen[length - 1 := Noted(env, life.value.seen[length - 1], c)]
    else (if life.Some? then life.value.seen else []) + [Noted(env, map[], c)]
  }

  function LogAfter(life: Option<Life>, posting: Posting): seq<LogEntry> {
    var was := WasClosed(life);
    var before := if was.None? then None else Some(PhaseOf(was.value));
    var log := if life.Some? then life.value.log else [];
    if before == Some(PhaseOf(posting.closed)) then log else log + [LogEntry(before, PhaseOf(posting.closed))]
  }

  function EventsAfter(env: Env, life: Option<Life>, job: Candidate, posting: Posting, now: int): seq<Event> {
    if life.None? then (if posting.closed then [] else [Event(0, Discovered, job.observedAt.GetOr(now))])
    else if CreatesRepost(env, life, job, posting)
    then life.value.events + [Event(|life.value.chain|, Reposted, job.observedAt.GetOr(now))]
    else life.value.events
  }

  function OutcomeOf(created: bool, createdRepost: bool, wasClosed: Option<bool>, closed: bool, changed: bool): Outcome {
    if created then NewRole
    else if createdRepost then RoleReposted
    else if wasClosed == Some(false) && closed then RoleClosed
    else if wasClosed == Some(true) && !closed then RoleUpdated
    else if changed then RoleUpdated
    else NoOp
  }

  // The second half of the write, once the effective observation and the upserted row are known.
  function Settled(env: Env, life: Option<Life>, c: Candidate, job: Candidate, posting: Posting, now: int): (Life, Outcome) {
    var chain := ChainAfter(env, life, job, posting, now);
    (Life(posting, chain, SeenAfter(env, life, c, |chain|), LogAfter(life, posting), EventsAfter(env, life, job, posting, now)),
     OutcomeOf(life.None?, CreatesRepost(env, life, job, posting), WasClosed(life), posting.closed,
               life.Some? && life.value.posting.contentHash != posting.contentHash))
  }

  // One observation through the bulk path.
  function Step(env: Env, life: Option<Life>, c: Candidate, now: int): (Life, Outcome) {
    var job := Prepared(env, life, c);
    Settled(env, life, c, job, Upserted(env, job, PostingOf(life)), now)
  }

  // ----- What every step keeps -----

  predicate ChainOk(chain: seq<Occurrence>) {
    && chain != []
    && chain[0].kind == Discovered && chain[0].previous == None
    && (forall i :: 0 < i < |chain| ==> chain[i].kind == Reposted && chain[i].previous == Some(i - 1))
    && (forall i :: 0 <= i < |chain| - 1 ==> chain[i].closedAt.Some?)
  }

  // The log is a gapless history of real transitions ending in the current phase.
  predicate LogOk(log: seq<LogEntry>, closed: bool) {
    && log != [] && log[0].before == None && log[|log| - 1].after == PhaseOf(closed)
    && (forall i :: 0 < i < |log| ==> log[i].before == Some(log[i - 1].after) && log[i].before != Some(log[i].after))
  }

  // One event per occurrence, except for a first occurrence that was discovered already closed.
  predicate EventsOk(events: seq<Event>, chain: seq<Occurrence>, discoveredOpen: bool) {
    var skipped := if discoveredOpen then 0 else 1;
    && |events| + skipped == |chain|
    && (forall i {:trigger events[i]} :: 0 <= i < |events| ==>
          events[i].occurrence == i + skipped && events[i].kind == chain[i + skipped].kind
          && events[i].at == chain[i + skipped].observedAt)
  }

  ghost predicate Agrees(env: Env, life: Life) {
    && ChainOk(life.chain)
    && |life.seen| == |life.chain|
    && (life.posting.closed <==> life.chain[|life.chain| - 1].closedAt.Some?)
    && LogOk(life.log, life.posting.closed)
    && EventsOk(life.events, life.chain, life.log[0].after == Open)
    && env.canon(life.posting.applyUrl) == life.posting.applyUrl
  }

  ghost predicate Consistent(env: Env, life: Option<Life>) {
    life.Some? ==> Agrees(env, life.value)
  }

  lemma UrlCanonical(env: Env, job: Candidate, prior: Option<Posting>)
    requires ValidEnv(env)
    ensures env.canon(UrlFor(env, job, prior)) == UrlFor(env, job, prior)
  {
  }

  lemma ChainKept(env: Env, life: Option<Life>, job: Candidate, posting: Posting, now: int)
    requires life.Some? ==> ChainOk(life.value.chain)
    ensures var chain := ChainAfter(env, life, job, posting, now);
      ChainOk(chain) && (chain[|chain| - 1].closedAt.Some? <==> posting.closed)
  {
  }

  lemma LogKept(life: Option<Life>, posting: Posting)
    requires life.Some? ==> life.value.chain != [] && LogOk(life.value.log, WasClosed(life).value)
    ensures LogOk(LogAfter(life, posting), posting.closed)
    ensures LogAfter(life, posting)[0].after == if life.Some? then life.value.log[0].after else PhaseOf(posting.closed)
  {
  }

  lemma EventsKept(env: Env, life: Option<Life>, job: Candidate, posting: Posting, now: int, discoveredOpen: bool)
    requires life.Some? ==> ChainOk(life.value.chain) && EventsOk(life.value.events, life.value.chain, discoveredOpen)
    requires life.None? ==> discoveredOpen == !posting.closed
    ensures EventsOk(EventsAfter(env, life, job, posting, now), ChainAfter(env, life, job, posting, now), discoveredOpen)
  {
  }

  lemma StepAgrees(env: Env, life: Option<Life>, c: Candidate, now: int)
    requires ValidEnv(env) && Consistent(env, life)
    ensures Agrees(env, Step(env, life, c, now).0)
  {
    var job := Prepared(env, life, c);
    UrlCanonical(env, job, PostingOf(life));
    SettledAgrees(env, life, c, job, Upserted(env, job, PostingOf(life)), now);
  }

  lemma SettledAgrees(env: Env, life: Option<Life>, c: Candidate, job: Candidate, posting: Posting, now: int)
    requires Consistent(env, life) && env.canon(posting.applyUrl) == posting.applyUrl
    ensures Agrees(env, Settled(env, life, c, job, posting, now).0)
  {
    ChainKept(env, life, job, posting, now);
    LogKept(life, posting);
    EventsKept(env, life, job, posting, now, if life.Some? then life.value.log[0].after == Open else !posting.closed);
  }

  // ----- How a posting comes back, and what an ambiguous observation may not do -----

  // From closed to open only by reopening the latest occurrence under an identity on record for
  // it, or by a repost, which always starts a new occurrence.
  lemma OpensOnlyByProof(env: Env, life: Life, c: Candidate, now: int)
    requires ValidEnv(env) && Agrees(env, life) && life.posting.closed
    ensures var after := Step(env, Some(life), c, now).0;
      var n := |life.chain| - 1;
      var incoming := CandidateIdentity(env, c);
      !after.posting.closed ==>
        (DecisionOf(env, Some(life), c) == Reopen && incoming.Some?
         && incoming.value in IdentitiesOf(env, life.chain[n], life.seen[n])
         && after.chain == life.chain[n := life.chain[n].(closedAt := None)] && after.events == life.events)
        || (DecisionOf(env, Some(life), c) == Repost && |after.chain| == |life.chain| + 1
            && after.chain[..n + 1] == life.chain && |after.events| == |life.events| + 1)
  {
    var d := DecisionOf(env, Some(life), c);
    var n := |life.chain| - 1;
    var e := Evidence(life.chain[n], IdentitiesOf(env, life.chain[n], life.seen[n]));
    assert EvidenceOf(env, Some(life)) == Some(e);
    if d == Repost { RepostIsNew(env, c, Some(life.posting), life.chain[n], life.seen[n]); }
  }

  // A repost and only a repost lengthens the chain, and it is reported as such.
  lemma RepostsExtend(env: Env, life: Life, c: Candidate, now: int)
    requires ValidEnv(env) && Agrees(env, life)
    ensures var (after, outcome) := Step(env, Some(life), c, now);
      (DecisionOf(env, Some(life), c) == Repost <==> |after.chain| > |life.chain|)
      && (DecisionOf(env, Some(life), c) == Repost <==> outcome == RoleReposted)
  {
    RepostCreates(env, life, c);
  }

  // Prepared as a repost or not, the observation creates an occurrence exactly when it was judged one.
  lemma RepostCreates(env: Env, life: Life, c: Candidate)
    requires ValidEnv(env) && Agrees(env, life)
    ensures var job := Prepared(env, Some(life), c);
      CreatesRepost(env, Some(life), job, Upserted(env, job, Some(life.posting))) <==> DecisionOf(env, Some(life), c) == Repost
  {
    var n := |life.chain| - 1;
    assert EvidenceOf(env, Some(life)) == Some(Evidence(life.chain[n], IdentitiesOf(env, life.chain[n], life.seen[n])));
    if DecisionOf(env, Some(life), c) == Repost { RepostIsNew(env, c, Some(life.posting), life.chain[n], life.seen[n]); }
  }

  // An ambiguous observation leaves closure, URL, location, occurrences, events and log alone.
  lemma AmbiguousChangesNothing(env: Env, life: Life, c: Candidate, now: int)
    requires ValidEnv(env) && Agrees(env, life) && DecisionOf(env, Some(life), c) == AmbiguousReopen
    ensures var (after, outcome) := Step(env, Some(life), c, now);
      && after.posting.closed && life.posting.closed
      && after.posting.applyUrl == life.posting.applyUrl && after.posting.location == life.posting.location
      && after.chain == life.chain && after.events == life.events && after.log == life.log
      && (life.posting.contentHash != "" ==> after.posting.contentHash == life.posting.contentHash && outcome == NoOp)
  {
    var job := Prepared(env, Some(life), c);
    assert job.applyUrl == life.posting.applyUrl && job.location == life.posting.location && job.closed && !job.reposted;
    assert UrlFor(env, job, Some(life.posting)) == life.posting.applyUrl;
  }

  // ----- Replaying an observation -----

  // Re-choosing between a chosen URL and the same incoming one settles nothing new.
  lemma UrlTwice(env: Env, current: string, incoming: string)
    requires ValidEnv(env)
    ensures var u := ChooseUrl(env, "", incoming);
      ChooseUrl(env, ChooseUrl(env, current, u), u) == ChooseUrl(env, current, u) && ChooseUrl(env, u, u) == u
  {
  }

  lemma UpsertTwice(env: Env, first: Candidate, prior: Option<Posting>)
    requires ValidEnv(env) && (first.reposted ==> prior.Some?)
    ensures var p := Upserted(env, first, prior);
      Upserted(env, first.(reposted := false), Some(p)) == p
  {
    var p := Upserted(env, first, prior);
    var second := first.(reposted := false);
    UrlTwice(env, if prior.Some? then prior.value.applyUrl else "", first.applyUrl);
    assert UrlFor(env, second, Some(p)) == p.applyUrl;
    var before := if prior.None? then Location.Held(None, None) else Location.Held(Some(prior.value.location), prior.value.locationSource);
    Location.ReconcileTwice(env.text, before, Location.Observation(first.location, first.locationSource));
    assert LocationFor(env, second, Some(p)) == LocationFor(env, first, prior);
  }

  lemma NotedTwice(env: Env, seen: Seen, c: Candidate)
    ensures Noted(env, Noted(env, seen, c), c) == Noted(env, seen, c)
  {
  }

  // What the second sight of an unambiguous observation is judged to be.
  lemma SecondDecision(env: Env, life: Option<Life>, c: Candidate, now: int)
    requires ValidEnv(env) && Consistent(env, life) && DecisionOf(env, life, c) != AmbiguousReopen
    ensures DecisionOf(env, Some(Step(env, life, c, now).0), c) == OpenUpdate
    ensures Step(env, life, c, now).0.posting.closed == c.closed
  {
    if life.Some? { assert DecisionOf(env, life, c) != Discover; }
  }

  // An observation that opens no new occurrence and leaves the posting as it is.
  lemma NothingMoves(env: Env, life: Life, job: Candidate, now: int)
    requires Agrees(env, life) && !job.reposted
    ensures ChainAfter(env, Some(life), job, life.posting, now) == life.chain
    ensures EventsAfter(env, Some(life), job, life.posting, now) == life.events
    ensures LogAfter(Some(life), life.posting) == life.log
  {
  }

  predicate AlreadyNoted(env: Env, life: Life, c: Candidate) {
    life.seen != [] && Noted(env, life.seen[|life.seen| - 1], c) == life.seen[|life.seen| - 1]
  }

  lemma SettledAgain(env: Env, life: Life, c: Candidate, job: Candidate, now: int)
    requires Agrees(env, life) && !job.reposted && AlreadyNoted(env, life, c)
    ensures Settled(env, Some(life), c, job, life.posting, now) == (life, NoOp)
  {
    NothingMoves(env, life, job, now);
    assert SeenAfter(env, Some(life), c, |life.chain|) == life.seen;
  }

  // One step notes the observation, whatever it is judged to be.
  lemma NotedByStep(env: Env, life: Option<Life>, c: Candidate, now: int)
    requires ValidEnv(env) && Consistent(env, life)
    ensures AlreadyNoted(env, Step(env, life, c, now).0, c)
  {
    StepAgrees(env, life, c, now);
    var length := |Step(env, life, c, now).0.chain|;
    if life.Some? && length == |life.value.seen| { NotedTwice(env, life.value.seen[length - 1], c); }
    else { NotedTwice(env, map[], c); }
  }

  // The row an unambiguous observation leaves is the row it would leave again.
  lemma PostingTwice(env: Env, life: Option<Life>, c: Candidate, now: int)
    requires ValidEnv(env) && Consistent(env, life) && DecisionOf(env, life, c) != AmbiguousReopen
    ensures var once := Step(env, life, c, now).0;
      var again := Prepared(env, Some(once), c);
      !again.reposted && Upserted(env, again, Some(once.posting)) == once.posting
  {
    var job, once := Prepared(env, life, c), Step(env, life, c, now).0;
    SecondDecision(env, life, c, now);
    assert Prepared(env, Some(once), c) == job.(reposted := false);
    UpsertTwice(env, job, PostingOf(life));
  }

  // Applying an unambiguous observation twice is applying it once, and the second is a no-op.
  lemma Replay(env: Env, life: Option<Life>, c: Candidate, now: int, later: int)
    requires ValidEnv(env) && Consistent(env, life) && DecisionOf(env, life, c) != AmbiguousReopen
    ensures var once := Step(env, life, c, now).0;
      Step(env, Some(once), c, later) == (once, NoOp)
  {
    var once := Step(env, life, c, now).0;
    StepAgrees(env, life, c, now);
    PostingTwice(env, life, c, now);
    NotedByStep(env, life, c, now);
    SettledAgain(env, once, c, Prepared(env, Some(once), c), later);
  }

  // ----- Replaying an ambiguous observation -----

  // What is put on record when an ambiguous observation is seen is the candidate's own identity.
  predicate NotesItself(env: Env, c: Candidate) {
    var incoming, found := CandidateIdentity(env, c), env.identityOf(c.source, c.sourceId, c.applyUrl);
    && incoming.Some? && c.source.Some? && c.source.value != "" && c.sourceId.Some? && c.sourceId.value != ""
    && (found.None? || found == incoming)
  }

  lemma AmbiguousKeepsEvidence(env: Env, life: Life, c: Candidate, now: int)
    requires ValidEnv(env) && Agrees(env, life) && DecisionOf(env, Some(life), c) == AmbiguousReopen
    ensures var once := Step(env, Some(life), c, now).0;
      var n := |life.chain| - 1;
      && Agrees(env, once) && once.chain == life.chain && once.posting.closed && life.chain[n].closedAt.Some?
      && once.seen[n] == Noted(env, life.seen[n], c)
  {
    StepAgrees(env, Some(life), c, now);
    AmbiguousChangesNothing(env, life, c, now);
  }

  lemma NotedIdentities(env: Env, o: Occurrence, seen: Seen, c: Candidate, i: Identity)
    ensures NotesItself(env, c) && Some(i) == CandidateIdentity(env, c) ==> i in IdentitiesOf(env, o, Noted(env, seen, c))
    ensures i !in IdentitiesOf(env, o, seen) && i in IdentitiesOf(env, o, Noted(env, seen, c)) ==>
      Some(i) != CandidateIdentity(env, c) || NotesItself(env, c)
  {
    if c.source.Some? && c.sourceId.Some? {
      var key, noted := (c.source.value, c.sourceId.value), Noted(env, seen, c);
      assert NotesItself(env, c) ==> key in noted && noted[key] == CandidateIdentity(env, c);
      assert forall k :: k in noted && k != key ==> k in seen && seen[k] == noted[k];
    }
  }

  // A repeat is judged a reopening exactly when the first sight put the candidate's own identity on record.
  lemma AmbiguousThenReopen(env: Env, life: Life, c: Candidate, now: int)
    requires ValidEnv(env) && Agrees(env, life) && DecisionOf(env, Some(life), c) == AmbiguousReopen
    ensures DecisionOf(env, Some(Step(env, Some(life), c, now).0), c) == Reopen <==> NotesItself(env, c)
  {
    var n := |life.chain| - 1;
    var once, incoming := Step(env, Some(life), c, now).0, CandidateIdentity(env, c);
    AmbiguousKeepsEvidence(env, life, c, now);
    ReopenNeedsIdentity(env, c, life.posting, life.chain[n], life.seen[n]);
    ReopenNeedsIdentity(env, c, once.posting, once.chain[n], once.seen[n]);
    if incoming.Some? {
      NotedIdentities(env, life.chain[n], life.seen[n], c, incoming.value);
    }
  }

  // Twice is once exactly when the repeat is judged ambiguous too; otherwise it opens the posting.
  lemma AmbiguousReplay(env: Env, life: Life, c: Candidate, now: int, later: int)
    requires ValidEnv(env) && Agrees(env, life) && DecisionOf(env, Some(life), c) == AmbiguousReopen
    ensures var once := Step(env, Some(life), c, now).0;
      Step(env, Some(once), c, later) == (once, NoOp) <==> DecisionOf(env, Some(once), c) == AmbiguousReopen
  {
    var once := Step(env, Some(life), c, now).0;
    AmbiguousKeepsEvidence(env, life, c, now);
    if DecisionOf(env, Some(once), c) == AmbiguousReopen {
      AmbiguousTwice(env, life, c, now, later);
    } else {
      OpensAgain(env, once, c, later);
    }
  }

  lemma AmbiguousTwice(env: Env, life: Life, c: Candidate, now: int, later: int)
    requires ValidEnv(env) && Agrees(env, life) && DecisionOf(env, Some(life), c) == AmbiguousReopen
    requires DecisionOf(env, Some(Step(env, Some(life), c, now).0), c) == AmbiguousReopen
    ensures var once := Step(env, Some(life), c, now).0; Step(env, Some(once), c, later) == (once, NoOp)
  {
    var once := Step(env, Some(life), c, now).0;
    StepAgrees(env, Some(life), c, now);
    AmbiguousPostingTwice(env, life, c, now);
    NotedByStep(env, Some(life), c, now);
    SettledAgain(env, once, c, Prepared(env, Some(once), c), later);
  }

  // An open observation of a closed posting that is not judged ambiguous opens it.
  lemma OpensAgain(env: Env, life: Life, c: Candidate, now: int)
    requires Agrees(env, life) && life.posting.closed && !c.closed && DecisionOf(env, Some(life), c) != AmbiguousReopen
    ensures !Step(env, Some(life), c, now).0.posting.closed
  {
  }

  lemma AmbiguousPostingTwice(env: Env, life: Life, c: Candidate, now: int)
    requires ValidEnv(env) && Agrees(env, life) && DecisionOf(env, Some(life), c) == AmbiguousReopen
    requires DecisionOf(env, Some(Step(env, Some(life), c, now).0), c) == AmbiguousReopen
    ensures var once := Step(env, Some(life), c, now).0;
      var again := Prepared(env, Some(once), c);
      !again.reposted && Upserted(env, again, Some(once.posting)) == once.posting
  {
    var job, once := Prepared(env, Some(life), c), Step(env, Some(life), c, now).0;
    AmbiguousChangesNothing(env, life, c, now);
    assert Prepared(env, Some(once), c) == job;
    UpsertTwice(env, job, Some(life.posting));
  }

  // A candidate whose own identity differs from the one its URL reveals in the same namespace.
  const SPLIT: Candidate :=
    Candidate("h", "h", 0, "t", 0, "internship", "u2", "l", None, false, None, None, Some("s"), Some("1"), Some(Identity("ns", "b")), false)

  function SplitEnv(): Env {
    Env(u => u, u => 0, (source, id, url) => if url == "u2" then Some(Identity("ns", "a")) else None, source => false,
        (b, u, l, closed) => "h", Location.Text(s => s != "", s => s))
  }

  function SplitLife(): Life {
    Life(Posting(0, "t", "h", "u1", "l", None, 0, "internship", true, None),
         [Occurrence(Discovered, 0, None, "u1", None, None, None, None, Some(0))], [map[]], [LogEntry(None, Closed)], [])
  }

  // Another way a repeat differs: the first sight records the identity of the URL, and the repeat,
  // showing another one of its namespace, passes for a repost.
  lemma AmbiguousThenRepost(now: int)
    ensures ValidEnv(SplitEnv()) && Agrees(SplitEnv(), SplitLife())
    ensures DecisionOf(SplitEnv(), Some(SplitLife()), SPLIT) == AmbiguousReopen
    ensures DecisionOf(SplitEnv(), Some(Step(SplitEnv(), Some(SplitLife()), SPLIT, now).0), SPLIT) == Repost
  {
    var once := Step(SplitEnv(), Some(SplitLife()), SPLIT, now).0;
    SplitFirst();
    AmbiguousKeepsEvidence(SplitEnv(), SplitLife(), SPLIT, now);
    SplitSecond(once.posting);
    assert EvidenceOf(SplitEnv(), Some(once)) == Some(Evidence(SplitLife().chain[0], {Identity("ns", "a")}));
  }

  lemma SplitFirst()
    ensures ValidEnv(SplitEnv()) && Agrees(SplitEnv(), SplitLife())
    ensures DecisionOf(SplitEnv(), Some(SplitLife()), SPLIT) == AmbiguousReopen
  {
    assert IdentitiesOf(SplitEnv(), SplitLife().chain[0], SplitLife().seen[0]) == {};
  }

  lemma SplitSecond(posting: Posting)
    requires posting.closed
    ensures IdentitiesOf(SplitEnv(), SplitLife().chain[0], Noted(SplitEnv(), map[], SPLIT)) == {Identity("ns", "a")}
    ensures Decide(SplitEnv(), SPLIT, Some(posting), Some(Evidence(SplitLife().chain[0], {Identity("ns", "a")}))) == Repost
  {
    var seen := Noted(SplitEnv(), map[], SPLIT);
    assert seen == map[("s", "1") := Some(Identity("ns", "a"))];
    assert seen[("s", "1")] == Some(Identity("ns", "a"));
    assert Comparable(SPLIT.explicit, {Identity("ns", "a")}) == {Identity("ns", "a")};
  }

  // ----- Every run -----

  function Run(env: Env, cs: seq<(Candidate, int)>): Option<Life> {
    if cs == [] then None
    else Some(Step(env, Run(env, cs[..|cs| - 1]), cs[|cs| - 1].0, cs[|cs| - 1].1).0)
  }

  lemma {:induction false} RunAgrees(env: Env, cs: seq<(Candidate, int)>)
    requires ValidEnv(env)
    ensures Consistent(env, Run(env, cs))
  {
    if cs != [] {
      RunAgrees(env, cs[..|cs| - 1]);
      StepAgrees(env, Run(env, cs[..|cs| - 1]), cs[|cs| - 1].0, cs[|cs| - 1].1);
    }
  }

  // Of the earlier chain everything but its last occurrence is there unchanged; of the log and the
  // events, everything.
  predicate Extends(later: Life, earlier: Life) {
    && |earlier.chain| > 0 && |later.chain| >= |earlier.chain|
    && later.chain[..|earlier.chain| - 1] == earlier.chain[..|earlier.chain| - 1]
    && (|later.chain| > |earlier.chain| ==> later.chain[|earlier.chain| - 1].closedAt.Some?)
    && earlier.log <= later.log && earlier.events <= later.events
  }

  lemma StepExtends(env: Env, life: Life, c: Candidate, now: int)
    requires ValidEnv(env) && Agrees(env, life)
    ensures Extends(Step(env, Some(life), c, now).0, life)
  {
  }

  lemma ExtendsSelf(env: Env, life: Life)
    requires Agrees(env, life)
    ensures Extends(life, life)
  {
  }

  lemma LastExtends(env: Env, cs: seq<(Candidate, int)>)
    requires ValidEnv(env) && |cs| > 1
    ensures var init := Run(env, cs[..|cs| - 1]); init.Some? && Extends(Run(env, cs).value, init.value)
  {
    var init := cs[..|cs| - 1];
    RunAgrees(env, init);
    RunIsSome(env, init);
    StepExtends(env, Run(env, init).value, cs[|cs| - 1].0, cs[|cs| - 1].1);
    RunSteps(env, cs, Run(env, init).value);
  }

  lemma RunIsSome(env: Env, cs: seq<(Candidate, int)>)
    requires cs != []
    ensures Run(env, cs).Some?
  {
  }

  lemma RunSteps(env: Env, cs: seq<(Candidate, int)>, before: Life)
    requires cs != [] && Run(env, cs[..|cs| - 1]) == Some(before)
    ensures Run(env, cs) == Some(Step(env, Some(before), cs[|cs| - 1].0, cs[|cs| - 1].1).0)
  {
  }

  // History is never rewritten: however long the run goes on, past occurrences stay as they closed.
  lemma {:induction false} HistoryStands(env: Env, cs: seq<(Candidate, int)>, k: nat)
    requires ValidEnv(env) && 0 < k <= |cs|
    ensures Run(env, cs[..k]).Some? && Run(env, cs).Some?
    ensures Extends(Run(env, cs).value, Run(env, cs[..k]).value)
    decreases |cs|
  {
    if k == |cs| {
      assert cs[..k] == cs;
      RunAgrees(env, cs);
      ExtendsSelf(env, Run(env, cs).value);
    } else {
      var init := cs[..|cs| - 1];
      assert init[..k] == cs[..k];
      HistoryStands(env, init, k);
      LastExtends(env, cs);
      ExtendsTrans(Run(env, cs).value, Run(env, init).value, Run(env, cs[..k]).value);
    }
  }

  lemma ExtendsTrans(c: Life, b: Life, a: Life)
    requires Extends(c, b) && Extends(b, a)
    ensures Extends(c, a)
  {
    var m := |a.chain| - 1;
    assert c.chain[..m] == c.chain[..|b.chain| - 1][..m] == b.chain[..|b.chain| - 1][..m] == b.chain[..m];
    if |b.chain| > |a.chain| { assert c.chain[m] == c.chain[..|b.chain| - 1][m] == b.chain[m]; }
  }
}
