# JobPing, modelled and proved in Dafny

JobPing polls job sources, keeps a durable lifecycle for every job, verifies evidence through a leased queue,
screens jobs against a private profile, and mails matches under quotas. This project models the components
whose rules must hold in every state and over every run, and proves those rules. Nothing here runs the program.

Code that changes state step by step is a class whose methods overwrite the fields; each method is proved
against a function of the old state, and the properties are proved about that function over all runs. What one step
answers and writes is also stated field by field without that function, in the `Records`, `Turns` and `Markup` files
and in the lemmas named `Exactly`. Code that only computes is a function with lemmas.

| files | component |
|---|---|
| `Prelude`, `SqlLogic`, `Tables` | optional values, units of time, Kleene logic, shared rows |
| `Screening`, `ScreeningSql`, `ScreeningRecords` | one screening policy, evaluated directly and compiled to an SQL CASE |
| `EvidenceQueue`, `EvidenceRuns`, `EvidenceRecords` | the queue row with coalescing, leases and fencing, and its runs |
| `Location`, `Classifier`, `Lifecycle`, `LifecycleRecords`, `BulkUpsert` | location authority, repost decisions, the lifecycle of a job and the bulk write |
| `Matching`, `MatchingRecords`, `Cutoff`, `Recaps`, `RecapRuns`, `RecapRecords` | matches and alerts, recap windows, and their runs |
| `Delivery`, `DeliveryTurns`, `DeliveryRuns`, `DeliveryRotation` | leased delivery under rolling quotas, its runs and its fairness |
| `TokenBucket`, `DomainLimiter`, `Leases`, `LeaseRuns` | the shared Redis bucket, the in-process limiter, stream leases |
| `Encoding` | the texts that hashes are taken of |
| `Migration` | moving notifications to occurrences and back |
| `RowScanner`, `RowMarkup`, `HtmlRows`, `Links`, `LinkMarkup` | the Markdown row scanner, HTML row joining, link labels |
| `Proxy` | the round-robin proxy pool |

`dafny verify dfyconfig.toml` checks everything.

## What the statements rest on

- Instants are whole microseconds, except in the two rate limiters, the leases and the proxy pool, where they are
  reals. Decimals and floats are reals.
- What the program computes from text alone (canonical URLs and their rank, stable identities, digests, location
  normalization, row tags) is a function-valued field of an environment. Canonicalization is idempotent and maps
  the empty URL to itself; nothing is assumed of digests.
- The agreement of the two screenings is stated for rows as the schema allows them: the two extracted restrictions
  only, a value for every restriction and every policy, and at least one bound per pay range; no accepted location is
  blank. `ScreeningSql.NullPolicyDiverges` and `ScreeningSql.BoundlessRangeDiverges` show rows without a policy's
  value, or without a bound, on which the two differ.
- Runs have a clock that never goes back. Claim and lease tokens and connection versions, which the program draws at
  random, are never drawn twice. No subscriber's id is the name of the shared account.
- The database returns rows in the order a query asks for, and its keys are unique.

## Model

| member | source | states |
|---|---|---|
| `Screening.RecentH1bSummary` | app/evidence/screening.py:20-37 | A summary exists exactly when some qualifying filing is recent enough; it carries the sum of all qualifying counts and the latest qualifying year |
| `Screening.ScanPay` | app/evidence/screening.py:151-169 | One pass over the ranges decides whether an applicable amount is stated, whether one reaches the floor, and whether one has no maximum |
| `Screening.AssessAuthorization` | app/evidence/screening.py:104-118 | The authorization questions yield an obstacle, an open question or neither exactly when restrictions and the named status say so, each filed under its own severity |
| `Screening.AssessSponsorship` | app/evidence/screening.py:119-144 | Future sponsorship is answered no exactly when it is denied and yes exactly when it is supported, by policy or by filings |
| `Screening.AssessPay` | app/evidence/screening.py:148-172 | Pay is an obstacle exactly when every applicable bound stays below the floor, and an open question exactly when it is unstated, conflicting or only a low starting amount |
| `Screening.Weigh` | app/evidence/screening.py:99-172 | Obstacles are listed exactly when one of the declared obstacles exists, open questions exactly when one of those exists |
| `Screening.Evaluate` | app/evidence/screening.py:69-176 | The bucket is the declared verdict; the reasons are exactly those that hold, obstacles first, then open questions, then passes, and one reason alone says why a job was not assessed |
| `ScreeningSql.BucketExpression` | app/evidence/screening.py:203-316 | Appending clauses kind by kind builds exactly the CASE whose meaning the lemmas below give |
| `ScreeningSql.FreshMeans` | app/evidence/screening.py:210-218 | Under three-valued logic the freshness clause is TRUE exactly when the evidence is fresh for the current target, absent row included |
| `ScreeningSql.SponsorshipMeans` | app/evidence/screening.py:242-267 | The two sponsorship clauses are never NULL and say what the direct code decides |
| `ScreeningSql.PayMeans` | app/evidence/screening.py:274-307 | The EXISTS clauses over the compensation array say what one scan over the ranges says, NULL filtering included |
| `ScreeningSql.FailuresMean` | app/evidence/screening.py:219-308 | The disjunction of failure clauses is TRUE exactly when the job is blocked |
| `ScreeningSql.ReviewsMean` | app/evidence/screening.py:220-309 | The disjunction of review clauses is TRUE exactly when something is unsettled |
| `ScreeningSql.SqlAgrees` | app/evidence/screening.py:69-316 | For every profile, well-formed row and instant the SQL CASE yields the bucket the direct evaluation yields |
| `ScreeningSql.NeverNull` | app/evidence/screening.py:308-316 | No branch condition is NULL, whatever the row holds |
| `ScreeningSql.CountsAgree` | app/evidence/api.py:108-127 | The three bucket counts are those of the jobs screened one by one and sum to the number of jobs |
| `ScreeningSql.BoundlessRangeDiverges` | app/evidence/screening.py:160-171 | A pay range without any bound, which the schema forbids, would make the SQL exclude a job the direct evaluation keeps for review |
| `ScreeningSql.NullPolicyDiverges` | app/evidence/screening.py:119-144 | A policy whose value is null, which the schema forbids, would make the SQL match a job the direct evaluation keeps for review |
| `ScreeningRecords.PayExactly` | app/evidence/screening.py:148-172 | Pay rules a job out exactly when some applicable range is bounded and every one tops out below the floor of the job's kind, and is doubtful exactly when it is conflicting, unstated, or unbounded without reaching the floor |
| `ScreeningRecords.VerdictExactly` | app/evidence/screening.py:69-176 | On the fields of profile and row alone: excluded exactly when closed or, on fresh evidence, an obstacle is stated; matched exactly when fresh evidence holds no obstacle and no doubt |
| `ScreeningRecords.SqlExactly` | app/evidence/screening.py:203-316 | The same two conditions decide the bucket the compiled SQL gives every well-formed row |
| `EvidenceQueue.EvidenceCheck.Enqueue` | app/evidence/store.py:54-131 | An enqueue coalesces, notes a recognised source's fingerprint and requeues exactly when forced or due, as the row function says |
| `EvidenceQueue.EvidenceCheck.Claim` | app/evidence/store.py:173-205 | A claim takes a due row that is queued or whose lease ran out, with a new token, a 90 second deadline and one more attempt, and otherwise changes nothing |
| `EvidenceQueue.EvidenceCheck.StoreDocuments` | app/evidence/store.py:266-305 | Documents are stored once each under distinct ids, listed in document order, and a document for another target stops the whole |
| `EvidenceQueue.EvidenceCheck.Record` | app/evidence/store.py:264-340 | A finished check writes its result in place as the row function says; listed documents change with the projection |
| `EvidenceQueue.EvidenceCheck.Finish` | app/evidence/store.py:217-341 | A finish is fenced, superseded, mismatched or recorded exactly as declared, and only a recorded one touches documents |
| `EvidenceRuns.ShapeAlways` | app/evidence/store.py:118-130 | In every run a row is running exactly when it holds a token and exactly when it holds a deadline |
| `EvidenceRuns.RunningSinceClaim` | app/evidence/store.py:173-205 | While a row runs, its token and deadline are those of the last claim, and nothing claimed, requeued or settled it since |
| `EvidenceRuns.RecordedOnlyWhileHeld` | app/evidence/store.py:242-263 | A result is recorded only under the latest claim's token, before its deadline and with no requeue since |
| `EvidenceRuns.RecordedOnce` | app/evidence/store.py:194-205 | No token records two results |
| `EvidenceRuns.CompleteIsFresh` | app/evidence/store.py:91-130 | Whenever a row is complete its projection was built from documents for its current target, by a claim made after the last target change or invalidation |
| `EvidenceRuns.ClaimsAreSpaced` | app/evidence/store.py:307-330 | Two claims with no forced requeue between them are an hour apart unless the first lease ran out unsettled |
| `EvidenceRuns.HeldUntilDeadline` | app/evidence/store.py:188-205 | A claimed row stays with its token until the deadline unless it is requeued or settled |
| `EvidenceRuns.BackfillQueues` | app/evidence/store.py:134-170 | A row selected for backfill is indeed queued by the enqueue that follows |
| `EvidenceRecords.EnqueueExactly` | app/evidence/store.py:54-131 | On the row's fields: it is queued for the target, from now and unclaimed, exactly when the target changed, a recognised source's fingerprint changed or the caller insists without one, or nobody holds it, it is available and it is unverified for a day, or for an hour under a refresh; otherwise only fingerprints change |
| `EvidenceRecords.ClaimExactly` | app/evidence/store.py:173-205 | A row is handed out exactly when it is available and queued or abandoned, for ninety seconds, and nothing else of it changes |
| `EvidenceRecords.FinishRefused` | app/evidence/store.py:242-269 | A caller without the live lease, a job that is gone, or a document for another target leaves the row untouched |
| `EvidenceRecords.FinishSuperseded` | app/evidence/store.py:251-263 | A check whose job moved on is blocked and put off for an hour, its evidence kept |
| `EvidenceRecords.FinishAnswered` | app/evidence/store.py:264-341 | Complete documents without an error replace the projection, dated now |
| `EvidenceRecords.FinishUnanswered` | app/evidence/store.py:307-327 | Any other held check becomes partial, blocked or failed exactly as documents and error say, rests an hour and fills the projection only if there was none |
| `EvidenceRecords.BackfillExactly` | app/evidence/store.py:134-170 | The backfill selects exactly the rows a plain enqueue would queue again, but for those still marked running or asked for within the hour |
| `Location.BestSourceDecides` | app/services/location_reconciliation.py:37-101 | The folded location is the last meaningful one reported by the best recognised source, with that source as provenance |
| `Location.BestExists` | app/services/location_reconciliation.py:12-57 | Once a recognised source has reported, exactly such a best source exists: higher tier first, then smaller name |
| `Location.InterleavingIrrelevant` | app/services/location_reconciliation.py:60-101 | Two histories that agree source by source give the same location and provenance, however the sources' polls interleave |
| `Location.ReconcileTwice` | app/services/location_reconciliation.py:60-101 | Seeing the same observation again changes nothing |
| `Location.ReconcileExactly` | app/services/location_reconciliation.py:37-101 | A meaningful word replaces the held one exactly when none is held or its source prevails by name, rank or tie-break; otherwise what is held stays unless it is empty |
| `Location.FirstSpeakerDecides` | app/services/location_reconciliation.py:37-101 | Where no recognised source spoke, whoever said something meaningful first, named or not, keeps the word: its latest is the result |
| `Location.NothingSaid` | app/services/location_reconciliation.py:79-95 | While nothing meaningful was said the first text that is not empty is kept, under no name |
| `Location.BoardsOutrank` | app/services/location_reconciliation.py:12-21 | Employers' boards outrank the Simplify list, that one the other lists, and those every unknown source |
| `Classifier.RepostIsNew` | app/services/repost_classifier.py:31-163 | A candidate judged a repost never satisfies the test for a repost already created |
| `LifecycleRecords.RepostExactly` | app/services/repost_classifier.py:103-137 | An open sight of a closed posting is a repost exactly when it shows a new identity in a recorded namespace, not dated at or before the occurrence, or when no identities can be compared and a direct source shows a strictly later date and another link |
| `LifecycleRecords.DecisionExactly` | app/services/repost_classifier.py:31-73 | Discovery, closing, reopening and update are decided exactly by existence, the two closed flags, a recorded identity and the occurrence's closure |
| `LifecycleRecords.RepostRecognised` | app/services/repost_classifier.py:140-163 | The occurrence a repost created is recognised as its own by the same observation exactly when it shows an identity or a date |
| `Lifecycle.ChainKept` | app/db/repository.py:1040-1084 | The chain stays one discovery followed by linked reposts, all but the last closed, and its last closure follows the posting |
| `Lifecycle.LogKept` | app/db/repository.py:1016-1036 | The status log stays a gapless history of real transitions ending in the current state |
| `Lifecycle.EventsKept` | app/db/repository.py:1046-1073 | There is one discovery event per occurrence, of its kind and instant, except for a first occurrence found already closed |
| `Lifecycle.StepAgrees` | app/db/repository.py:811-1143 | Posting, chain, observed identities, log and events agree after every observation |
| `LifecycleRecords.LinkExactly` | app/db/repository.py:902-911 | The persisted link changes only for a strictly better ranked one, for a repost, or when there was none |
| `LifecycleRecords.DateExactly` | app/db/repository.py:952-982 | A row keeps the earliest posting date it was given, a repost its own |
| `LifecycleRecords.DigestAlwaysHonest` | app/db/repository.py:912-932 | Over every run of honest observations the stored digest is that of the stored link, location and closed flag |
| `LifecycleRecords.LocationIsTheHistory` | app/db/repository.py:923-931 | Over every run without an ambiguous decision the posting's location and its source are what the whole history of sights comes to |
| `LifecycleRecords.FirstSightRecords` | app/db/repository.py:1042-1053 | A first sight writes one discovered occurrence with the observation's own date, link and identity, its event unless closed, and one log entry |
| `LifecycleRecords.RepostRecords` | app/db/repository.py:1055-1074 | A repost appends a linked open occurrence with the observation's own data, its event and a transition, and takes over link and date |
| `LifecycleRecords.OtherwiseRecords` | app/db/repository.py:1075-1111 | A closing or reopening moves the latest closure, adds a transition and is reported so; anything else changes neither chain, events nor log, and is an update exactly when the digest changed |
| `LifecycleRecords.SightIsNoted` | app/db/repository.py:1230-1256 | A named sight puts on record for the latest occurrence the identity its link reveals, or else its own, and disturbs no other record |
| `Lifecycle.OpensOnlyByProof` | app/services/repost_classifier.py:56-73 | A closed posting opens only by a reopening that shows a recorded identity, or by a repost that starts a new occurrence and event |
| `Lifecycle.RepostsExtend` | app/db/repository.py:1055-1074 | The chain grows exactly when the decision is a repost, and then and only then is a repost reported |
| `Lifecycle.AmbiguousChangesNothing` | app/services/repost_classifier.py:85-100 | An ambiguous observation leaves closure, URL, location, occurrences, events and log alone |
| `Lifecycle.SecondDecision` | app/services/repost_classifier.py:31-73 | The same observation, seen again, is judged an update or a confirmation of the state it left behind |
| `Lifecycle.Replay` | app/db/repository.py:886-1111 | Unless the first decision is ambiguous, applying an observation twice gives the same posting, occurrences, events and log as once, and the second outcome is no operation |
| `Lifecycle.AmbiguousReplay` | app/db/repository.py:886-1111 | For an observation first judged ambiguous, applying it twice is applying it once exactly when the repeat is judged ambiguous too |
| `Lifecycle.AmbiguousThenReopen` | app/db/repository.py:1233-1243 | The repeat is judged a reopening exactly when the first sight put the candidate's own identity on record: a source and its id are present and the URL reveals no other identity |
| `Lifecycle.AmbiguousThenRepost` | app/services/repost_classifier.py:121-126 | The repeat may also be judged a repost, when the URL reveals another identity of the candidate's namespace: a concrete witness |
| `Lifecycle.RunAgrees` | app/db/repository.py:811-1143 | From an empty record, every sequence of observations keeps the agreement |
| `Lifecycle.StepExtends` | app/db/repository.py:1081-1084 | An observation extends the history: only the latest occurrence may still change, log and events only grow |
| `Lifecycle.HistoryStands` | app/db/repository.py:1013-1084 | An occurrence that is not the latest is never changed again in any run |
| `BulkUpsert.JobStore.HasDuplicates` | app/db/repository.py:827-829 | A batch is refused exactly when two of its jobs share a base hash |
| `BulkUpsert.JobStore.SettleAll` | app/db/repository.py:1013-1111 | The second pass settles each job from the state captured before the batch and leaves every other job alone |
| `BulkUpsert.JobStore.Upsert` | app/db/repository.py:811-1143 | A refused batch changes nothing; an accepted one takes each job exactly one lifecycle step and answers in input order |
| `BulkUpsert.BatchReplay` | app/db/repository.py:811-1143 | Applying an accepted batch without ambiguous observations again leaves the store as it is and answers no operation throughout |
| `BulkUpsert.BatchKeepsAgreement` | app/db/repository.py:811-1143 | A store in agreement stays so through any accepted batch |
| `Matching.Matcher.IsMatched` | app/notifications/worker.py:81-88 | The existence query finds a match exactly when one is stored for the pair |
| `Matching.Matcher.MatchEvents` | app/notifications/worker.py:55-110 | The nested loops post exactly the matches and alerts the ledger function gives and mark every event processed |
| `Matching.PostedMeans` | app/notifications/worker.py:73-98 | After a pass a pair is matched exactly when it was before or the subscriber wants an event of the occurrence; no pair is matched or alerted twice |
| `Matching.AlertsAreExact` | app/notifications/worker.py:73-109 | Over a whole pass an alert is queued exactly for a pair not matched before, an occurrence open at the time, and a subscriber who asks for alerts and wants its event |
| `Matching.Replay` | app/notifications/worker.py:81-88 | Handling the same events again adds nothing, even if the processed flags were lost |
| `MatchingRecords.PairsExactly` | app/notifications/worker.py:64-98 | On the fields: a pair is listed after a pass exactly when it was, or the subscriber takes mail, had opted in by the discovery and chose type and season of an event of the occurrence |
| `MatchingRecords.RowsFromEvents` | app/notifications/worker.py:89-98 | Every new match carries the job, the kind and the discovery instant of an event of its occurrence, for a subscriber who asks for it |
| `MatchingRecords.AlertsExactly` | app/notifications/worker.py:99-109 | An alert is queued exactly for a pair not listed before, an open occurrence, and a subscriber who takes alerts and asks for the event |
| `Cutoff.NextCutoffIsNext` | app/notifications/core.py:20-25 | The next cutoff is the earliest one strictly after the instant, and at most a day away |
| `Cutoff.CaughtUpIsLatest` | app/notifications/worker.py:131-134 | Catching up ends at the last cutoff not after now, with the next one still ahead |
| `Cutoff.CatchUp` | app/notifications/worker.py:132-134 | The catch-up loop terminates and computes that cutoff |
| `Recaps.Subscriber.Merge` | app/notifications/worker.py:177-197 | Merging keeps the order of known occurrences, adds each new one once and recounts jobs, new and reposted |
| `Recaps.Subscriber.FoldAlerts` | app/notifications/worker.py:199-211 | Exactly the pending, never attempted alerts that share an occurrence with the recap are folded into it |
| `Recaps.Subscriber.CloseWindow` | app/notifications/worker.py:113-211 | Closing a due window does to the subscriber what the recap function says, and nothing is done before one is due |
| `RecapRuns.ScheduleKept` | app/notifications/worker.py:130-198 | No step makes two windows overlap or leaves a gap between windows closed without switching recaps off |
| `RecapRuns.CloseBag` | app/notifications/worker.py:135-197 | Closing a window files each of its matches in exactly one recap and disturbs no other recap's matches |
| `RecapRuns.ContentKept` | app/notifications/worker.py:148-197 | Every recap lists matches of its own window, with total = new + reposted = both list lengths, at most one recap unsent and all keys distinct |
| `RecapRuns.ReachableOk` | app/notifications/worker.py:113-211 | All of this holds in every reachable state |
| `RecapRuns.EachMatchOnce` | app/notifications/worker.py:135-197 | A match present when its window closes is in exactly one recap, once, then and in every later state |
| `RecapRuns.AttemptedStands` | app/notifications/worker.py:152-196 | A recap once attempted keeps its occurrences, jobs, counts, window and payload in every later state of every run |
| `RecapRuns.AlertsFolded` | app/notifications/worker.py:199-211 | No pending, never attempted alert outlives the recap that covers one of its matches |
| `RecapRecords.WindowExactly` | app/notifications/worker.py:130-198 | A window closes at the due cutoff or the last local eight in the evening since that is not in the future, and the next closes the evening after |
| `RecapRecords.AlertsExactly` | app/notifications/worker.py:199-211 | From matches and window: an alert is folded exactly when it is pending, never attempted and lists an occurrence discovered in the closed window; every other alert stays as it is |
| `RecapRecords.RecapsExactly` | app/notifications/worker.py:135-197 | In every reachable state the window's matches, in order, join the oldest recap still waiting or get one of their own, with exact lists, counts, window and due time; no other recap moves |
| `Delivery.NotificationWorker.TakeTurn` | app/notifications/worker.py:306-334 | A candidate's turn puts it aside or claims it, check by check in the program's order, as the turn function says |
| `Delivery.NotificationWorker.Admit` | app/notifications/worker.py:333-364 | Quota, recipient, credentials and payload are settled in this order and the claim is written in place |
| `Delivery.NotificationWorker.Claim` | app/notifications/worker.py:268-365 | Candidates take turns until one is claimed, the rest stay as they are |
| `Delivery.TurnShape` | app/notifications/worker.py:305-364 | A turn rewrites at most its candidate and that candidate's subscriber, and being put aside changes nothing a quota or a recipient depends on |
| `DeliveryTurns.ClaimedExactly` | app/notifications/worker.py:305-364 | A candidate is claimed exactly when it is wanted, its connection and sender stand, a retry is under 23 hours, a new alert is open and under a day old, a first attempt is funded, the recipient is confirmed, and key and body exist |
| `DeliveryTurns.ClaimWrites` | app/notifications/worker.py:360-364 | A claim leases the item for two minutes, counts the attempt and fixes payload, account, version and first attempt |
| `DeliveryTurns.EarlyRefusals` | app/notifications/worker.py:307-333 | The first check that fails before the quota decides whether the item is cancelled, to be reconciled, expired or left |
| `DeliveryTurns.LateRefusals` | app/notifications/worker.py:334-359 | Quota and an unanswered recipient check postpone by five minutes; a failed recipient loses verification and the item; missing key or content marks the subscriber alone |
| `DeliveryTurns.TurnRests` | app/notifications/worker.py:275-277 | After its turn an item can be considered again after two minutes if claimed, five if postponed, never if settled, at once if its subscriber cannot send |
| `DeliveryTurns.TurnsInOrder` | app/notifications/worker.py:305-365 | Candidates take turns in order, each on the state the ones before left, until the first that can be claimed |
| `DeliveryTurns.OnlyConfirmedAreMailed` | app/notifications/worker.py:305-348 | Whatever a pass claims goes to a recipient confirmed by that pass and wanted at its start |
| `DeliveryRotation.OneIsAhead` | app/notifications/worker.py:293-304 | Of two deliveries exactly one is ahead: recaps first, then the recipient charged longest ago, then age, then id |
| `DeliveryRotation.NobodyIsOvertaken` | app/notifications/worker.py:293-365 | Whatever is claimed, every candidate ahead of it had its own turn in that pass |
| `DeliveryRotation.ServedBeforeTwice` | app/notifications/worker.py:283-365 | A recipient charged once is not claimed again, whatever happens in between, before every waiting recap of a recipient not charged since has had its turn |
| `DeliveryRuns.GrantMeans` | app/notifications/worker.py:315-364 | A claim keeps a payload once there is one, its account and version are the current connection's, a retry comes within 23 hours, and a first attempt had budget |
| `DeliveryRuns.StepGood` | app/notifications/worker.py:214-365 | Every step keeps quotas and attempt records, and no step alters an attempt |
| `DeliveryRuns.QuotasHold` | app/notifications/worker.py:214-248 | In every reachable state no closed 24 hours hold more than 90 first attempts of an account, and no 31 days more than 2900 |
| `DeliveryRuns.RetriesAreIdentical` | app/notifications/worker.py:315-364 | Two claims of one delivery, whatever happens between them, carry the same payload under the same account and version, the later one less than 23 hours after the first attempt |
| `DeliveryRuns.RecapsKeepRoom` | app/notifications/worker.py:245-248 | The first attempt of anything but a recap leaves the day room for one recap per recap subscriber of the account, and the month room for thirty-one |
| `DeliveryRuns.RecapsAreNotStarved` | app/notifications/worker.py:224-248 | After the last other first attempt, while no recap subscriber joins the account and each has at most one recap attempted, a subscriber still without one is refused by neither the daily nor the monthly count |
| `TokenBucket.SharedCounter.Decide` | app/request_limits/scripts.py:3-21 | One execution refills, admits or computes the delay, and rewrites hash and expiry in place |
| `TokenBucket.WindowBound` | app/request_limits/scripts.py:11-19 | Over any closed window a bucket grants at most its capacity plus the refill of the window |
| `TokenBucket.DropShowsUnlessFull` | app/request_limits/scripts.py:8-20 | Losing the hash is invisible to the next decision and state exactly when the bucket had refilled by then |
| `TokenBucket.FullByExpiry` | app/request_limits/scripts.py:20-20 | By the time the key may expire, the bucket has refilled |
| `TokenBucket.LifeIsLeast` | app/request_limits/scripts.py:20-20 | The key's lifetime is the least whole number of seconds, at least one, after which every bucket is full again |
| `TokenBucket.ExpiryIsInvisible` | app/request_limits/scripts.py:3-21 | Over any run, no reply reveals whether Redis dropped the hash |
| `TokenBucket.AdmissionBound` | app/request_limits/scripts.py:3-21 | Whatever Redis drops, admissions in [s, t] number at most burst + rate * (t - s) |
| `TokenBucket.RetryIsExact` | app/request_limits/scripts.py:12-18 | The returned delay is the least whole number of seconds after which the caller is admitted, however many others are refused meanwhile |
| `DomainLimiter.Tank.Attempt` | app/utils/rate_limiter.py:69-77 | The locked section refills in place and takes the tokens, or says how long to sleep |
| `DomainLimiter.Tank.Draw` | app/utils/rate_limiter.py:68-77 | An undisturbed caller sleeps at most once, and not at all when the tokens are there |
| `DomainLimiter.SettledExactly` | app/utils/rate_limiter.py:68-77 | An undisturbed caller pays exactly its cost, at once or at the very instant enough has flowed in, later only by what it oversleeps |
| `DomainLimiter.Limiter.Locate` | app/utils/rate_limiter.py:79-88 | A visit finds or creates the domain's own bucket, moves it to the end and forgets at most the domain visited longest ago |
| `DomainLimiter.Limiter.Acquire` | app/utils/rate_limiter.py:58-77 | Errors come in the program's order and change nothing; otherwise the domain alone pays, after at most one sleep |
| `DomainLimiter.VisitMeans` | app/utils/rate_limiter.py:79-88 | A visit leaves the domain cached last, changes nobody's tokens and evicts only the oldest domain of a full cache |
| `DomainLimiter.DomainsAreApart` | app/utils/rate_limiter.py:58-88 | While a domain stays cached its callers are granted exactly what one bucket of their own would grant |
| `DomainLimiter.RecentStays` | app/utils/rate_limiter.py:79-88 | A domain is not evicted while fewer than max_domains others are visited after it |
| `DomainLimiter.DomainBound` | app/utils/rate_limiter.py:58-88 | From a visit on, with fewer than max_domains others visited, the domain's callers get at most capacity + rate * (t - s) |
| `Leases.LeaseStore.Acquire` | app/request_limits/scripts.py:23-37 | Both sets are swept key by key, the limits checked, and the entry put in both or in neither |
| `Leases.LeaseStore.Renew` | app/request_limits/scripts.py:39-51 | Both entries are pushed back, or neither when one is missing or has run out |
| `Leases.LeaseStore.Release` | app/request_limits/scripts.py:53-56 | The entry is removed from both sets |
| `Leases.StepSafe` | app/request_limits/scripts.py:23-56 | Every step keeps limits, the match between the sets and the margin before key expiry |
| `Leases.LeasesWithinLimits` | app/request_limits/scripts.py:28-32 | At every instant of every run live leases per address and overall stay within their limits |
| `Leases.GlobalIsUnion` | app/request_limits/scripts.py:33-36 | The live global set is the disjoint union of the addresses' live sets, with equal expiries |
| `LeaseRuns.GrantedIffUnlimited` | app/request_limits/scripts.py:27-32 | A lease is granted exactly when no enforced limit is reached by leases that have not run out; a limit of zero is not enforced |
| `LeaseRuns.GrantRecords` | app/request_limits/scripts.py:27-37 | A grant writes the token into both sets until a lease from now, lets both keys live two leases, sweeps what has run out and touches no other key |
| `LeaseRuns.RefusalOnlySweeps` | app/request_limits/scripts.py:27-32 | A refusal enters the token nowhere and moves no deadline |
| `LeaseRuns.RenewalRecords` | app/request_limits/scripts.py:39-51 | A renewal is granted exactly to a token unexpired in both sets and gives it a lease from now in both; otherwise nothing changes |
| `LeaseRuns.ReleasedNowhere` | app/request_limits/scripts.py:53-56 | After its release a token is entered under no key, in every reachable state |
| `LeaseRuns.LeaseLasts` | app/request_limits/scripts.py:23-56 | Over every run an unreleased lease keeps its entry and its expiry is never brought forward |
| `LeaseRuns.FullIsRefused` | app/request_limits/scripts.py:28-36 | Once as many leases as the limit were granted to an address, or overall, within one lease's time and none released, the next request is refused |
| `LeaseRuns.HeldWasGranted` | app/request_limits/scripts.py:33-36 | Every live lease was granted under its key by some step of the run and not released since |
| `Leases.RenewedIffLive` | app/request_limits/scripts.py:39-51 | A lease is renewed exactly while it is live in the global set |
| `Leases.KeyExpiryIsInvisible` | app/request_limits/scripts.py:33-36 | Redis dropping a key at its own expiry removes no live lease, now or later |
| `Leases.LeaseStands` | app/request_limits/scripts.py:23-56 | Nothing but its own renewal or release touches a live lease |
| `Encoding.RoundTrip` | app/services/hasher.py:176-176 | Decoding length-prefixed fields gives the fields back, whatever characters they hold |
| `Encoding.IdentityIsExact` | app/services/hasher.py:50-62 | Two identity texts are equal exactly when company and title normalize alike |
| `Encoding.StateIsExact` | app/services/hasher.py:163-177 | Two state texts are equal exactly when canonical digest, URL, location and closed flag agree |
| `Encoding.TextsReadBack` | app/services/hasher.py:50-177 | Decoded, the texts list normalized company and title, and digest, URL, location and closed flag, in this order; a state has a text exactly when its digest is accepted |
| `Encoding.FieldIs` | app/services/hasher.py:176-176 | A field is its length in decimal without leading zeros, a colon and the field |
| `Migration.Backfill` | alembic/versions/0006_reposted_job_lifecycle.py:68-84 | Every job gets one first occurrence, numbered in order, and the dictionary finds it |
| `Migration.BackfilledIs` | alembic/versions/0006_reposted_job_lifecycle.py:68-84 | A backfilled occurrence is of the discovered kind, carries the job's own link and instants, and is closed exactly when the job is, since its last update |
| `Migration.MovedIs` | alembic/versions/0006_reposted_job_lifecycle.py:166-205 | A moved event or match points at its job's own occurrence, is of the discovered kind and is otherwise what it was |
| `Migration.MoveEvents` | alembic/versions/0006_reposted_job_lifecycle.py:166-176 | Every event moves to its job's occurrence, row by row |
| `Migration.MoveMatches` | alembic/versions/0006_reposted_job_lifecycle.py:194-205 | Every match moves to its job's occurrence and keeps its id |
| `Migration.Upgrade` | alembic/versions/0006_reposted_job_lifecycle.py:68-205 | Occurrences, events and matches are moved through one dictionary |
| `Migration.Downgrade` | alembic/versions/0006_reposted_job_lifecycle.py:265-353 | Events and matches are restored through the jobs that the occurrence table names |
| `Migration.MoveDelivery` | alembic/versions/0006_reposted_job_lifecycle.py:229-250 | A delivery gets its jobs' occurrences, unknown entries skipped, with total = new + reposted |
| `Migration.DeliveredIs` | alembic/versions/0006_reposted_job_lifecycle.py:229-250 | A delivery's occurrences are those of its known jobs, one for each entry, in the same order |
| `Migration.RestoreEvents` | alembic/versions/0006_reposted_job_lifecycle.py:292-307 | Reading events in order, the downgrade keeps the first of every job |
| `Migration.RestoreMatches` | alembic/versions/0006_reposted_job_lifecycle.py:337-353 | Reading matches in order, the downgrade keeps the first of every subscriber and job |
| `Migration.EventsKeepEarliest` | alembic/versions/0006_reposted_job_lifecycle.py:292-307 | Of any events the downgrade keeps exactly the earliest of every job by discovery time and then occurrence |
| `Migration.MatchesKeepEarliest` | alembic/versions/0006_reposted_job_lifecycle.py:337-353 | Of any matches the downgrade keeps exactly the earliest of every subscriber and job by discovery time and then id |
| `Migration.RestoredKeysDiffer` | alembic/versions/0006_reposted_job_lifecycle.py:265-353 | The restored rows meet the old primary and unique keys |
| `Migration.NobodyIsLost` | alembic/versions/0006_reposted_job_lifecycle.py:292-353 | No job with an event, and no subscriber and job with a match, is left without a row |
| `Migration.EventsRoundTrip` | alembic/versions/0006_reposted_job_lifecycle.py:68-307 | Downgrade after upgrade restores exactly the event rows there were |
| `Migration.MatchesRoundTrip` | alembic/versions/0006_reposted_job_lifecycle.py:68-353 | Downgrade after upgrade restores exactly the match rows there were, ids included |
| `RowScanner.SplitRow` | app/scrapers/markdown_parser.py:154-197 | The single pass splits a row as the scanner function says |
| `RowScanner.PiecesJoin` | app/scrapers/markdown_parser.py:168-194 | Pieces and the pipes between them make up the text: nothing is lost, whatever it holds |
| `RowScanner.RowRoundTrip` | app/scrapers/markdown_parser.py:154-197 | A row written from cells that are trimmed, hold no structural pipe and leave the scanner neutral is read back whole, but for an empty last cell |
| `RowScanner.CellsTrimmed` | app/scrapers/markdown_parser.py:189-194 | Every cell comes back trimmed |
| `RowMarkup.MarkupRoundTrip` | app/scrapers/markdown_parser.py:154-197 | Cells written with escapes, tags and nested link targets, pipes inside all three, are read back cell by cell |
| `RowMarkup.OpenRowRoundTrip` | app/scrapers/markdown_parser.py:193-197 | The closing pipe may be missing after a last cell that is not empty |
| `HtmlRows.Coalesce` | app/scrapers/markdown_parser.py:86-117 | The buffering pass joins exactly the rows a look-ahead would join |
| `HtmlRows.RowsAccounted` | app/scrapers/markdown_parser.py:86-117 | Splitting the output on newlines gives the input lines and kinds; a joined line is one complete row |
| `HtmlRows.RowsJoin` | app/scrapers/markdown_parser.py:86-117 | The shortest run of lines of one kind that opens a row and closes as many as it opens becomes one line |
| `HtmlRows.RowsLeave` | app/scrapers/markdown_parser.py:86-117 | A row never closed by lines of its kind leaves them as they are, as does a line that opens none |
| `Links.BalancedUrlEnd` | app/scrapers/markdown_parser.py:276-286 | The scan finds the first unescaped closing parenthesis with everything before it balanced |
| `Links.ReplaceLinksWithLabels` | app/scrapers/markdown_parser.py:254-273 | Every link found one after the other is replaced by its label |
| `Links.LinksRoundTrip` | app/scrapers/markdown_parser.py:254-286 | Text written as spans is shown with each link reduced to its label and nothing else changed |
| `LinkMarkup.LinksReadBack` | app/scrapers/markdown_parser.py:254-286 | However targets are escaped and nested, written links are reduced to their labels and nothing else changes |
| `LinkMarkup.NothingToReplace` | app/scrapers/markdown_parser.py:254-286 | Without an opening bracket, a turn from label to target, or a closing parenthesis the text stays as it is |
| `Proxy.ProxyManager.Acquire` | app/scrapers/proxy.py:144-158 | Nobody is served exactly when every endpoint is cooling down; otherwise the first cooled one from the cursor is, revived if dead, and the cursor moves past it |
| `Proxy.ProxyManager.ReportFailure` | app/scrapers/proxy.py:168-179 | A failure is counted, and a throttling one starts the doubled cooldown; unknown endpoints are refused |
| `Proxy.ProxyManager.ReportSuccess` | app/scrapers/proxy.py:160-166 | A success clears the endpoint's failures and cooldown and no other endpoint's |
| `Proxy.FailureRecords` | app/scrapers/proxy.py:168-179 | A failure is counted; one with status 403, 429 or 503 also cools the endpoint down for the delay of its streak and gives it up exactly at the configured length |
| `Proxy.ServiceRecords` | app/scrapers/proxy.py:144-158 | The endpoint served is ready, starts a new streak if it had been given up, and stands just before the cursor; no other changes |
| `Proxy.StreakCools` | app/scrapers/proxy.py:168-179 | n throttled answers in a row cool an endpoint down for the nth delay from the last one, and give it up exactly when n reaches the configured length |
| `Proxy.DelayDoubles` | app/scrapers/proxy.py:172-179 | The cooldown starts at the base, doubles with every further throttled failure and stops at the cap |
| `Proxy.WaitIsBounded` | app/scrapers/proxy.py:144-158 | An endpoint ready all along is passed over fewer times than its distance from the cursor |
| `Proxy.EveryoneIsServed` | app/scrapers/proxy.py:144-158 | In a pool of n an endpoint ready at each of n acquisitions is served by one of them, whatever is reported about the others |
| `Proxy.PoolRecovers` | app/scrapers/proxy.py:144-179 | Left alone for the longest cooldown, a nonempty pool serves somebody, whatever happened before |

## Left out

- HTTP, Redis and SQL drivers, Firebase, Resend, Playwright, MCP transport, templates and the command line: their results are arbitrary inputs here.
- Regular expressions for policies and pay, URL parsing and SHA-256: abstract functions, as said above.
- Reason texts shown beside a bucket: reduced to codes, whose severity is modelled.
- `save_job_posting_with_outcome`: a second write path that does not refine the bulk one; only the bulk path is modelled.
- Lifecycle.Replay: covers observations first judged other than ambiguous; for ambiguous ones `Lifecycle.AmbiguousReplay` says exactly when a repeat changes nothing, and a repeat may be judged a reopening or a repost.
- Lifecycle.AmbiguousChangesNothing: does not speak of the location's provenance, which an ambiguous observation may change.
- LifecycleRecords.LocationIsTheHistory: speaks of runs without an ambiguous decision, which may change the location's provenance.
- DeliveryRotation.ServedBeforeTwice: is about waiting recaps; alerts and test mails stand behind every recap.
- BulkUpsert.JobStore.Upsert: takes the batch alone; a rival transaction inserting the same job between the first read and the write, and the company upsert, are not modelled.
- Job details, evidence enqueued by a write, real-time events and `updated_at`: not part of a lifecycle step here.
- Postings created before occurrences existed: the repair branch is in the step function, but no run starts from one.
- The pick of one row among many by `claim`, and row locks: runs are over one row, each transaction a step.
- RecapRuns.EachMatchOnce: a match inserted after its window has closed is outside the claim, as it is outside the program's windows.
- Recaps.Subscriber.CloseWindow: does not look at verification, suppression and unprocessed events, which the program asks about first; runs may close any due window, so what is proved holds whenever the program does.
- Cutoff.NextCutoffIsNext: the offset from UTC is fixed, so the days on which daylight saving changes are not covered.
- Delivery.NotificationWorker.Claim: takes the candidates in any order; `DeliveryRotation` states the order the program sorts them in, and the limit of 500 is not modelled.
- What a provider answers after a claim (`send_one`, webhooks): any status, delay and error may be reported in a run.
- Shadow and off modes of the request limits: nothing is enforced there, so there is nothing to bound.
- A caller of the in-process limiter that still holds an evicted bucket: it draws on that bucket alone, which no longer belongs to the domain.
- DomainLimiter.Limiter.Acquire: speaks of a caller not disturbed while it sleeps; runs with rivals are in the lemmas over events.
- Indexes, identity sequences and column changes of the migration: schema only.
- Application checkpoints, analytics, CRUD routes and the scheduler wrapper: they would only add easy members.
