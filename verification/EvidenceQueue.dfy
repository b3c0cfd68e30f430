/** The durable evidence queue: one row per job occurrence, with coalescing enqueues, expiring
    claims and fencing tokens. The functions say what one transaction does to the row; the class
    overwrites the row's fields the way the program does. */
module EvidenceQueue {
  import opened Prelude

  datatype Target = Target(
    url: string, location: string, company: string, title: string,
    namespace: Option<string>, externalId: Option<string>)

  datatype Status = Queued | Running | Complete | Partial | Blocked | Failed

  datatype Document = Document(identity: Target, sourceUrl: string, checksum: string, complete: bool)

  // The facts reconciled from exactly these documents, normalised for this location.
  datatype Projection = Projection(documents: seq<Document>, location: string)

  datatype Row = Row(
    target: Target,
    status: Status,
    requestedAt: int,
    availableAt: int,
    leaseToken: Option<nat>,
    leaseUntil: Option<int>,
    checkedAt: Option<int>,
    verifiedAt: Option<int>,
    projection: Option<Projection>,
    checksums: map<string, string>,
    errorCode: Option<string>,
    attempts: nat)

  // An observation made by a named source, reduced to the fingerprint of its details.
  datatype Observation = Observation(source: string, fingerprint: string)

  const RECOGNIZED: set<string> :=
    {"greenhouse", "lever", "workday", "amazon", "meta", "simplify", "github_markdown", "applyguy_internships", "applyguy_new_grad"}
  const BARRIERS: set<string> := {"verification_barrier", "employer_not_reviewed", "identity_mismatch", "role_scope_unverified"}
  const LEASE: int := 90 * SECOND

  function NewRow(target: Target, now: int): Row {
    Row(target, Queued, now, now, None, None, None, None, None, map[], None, 0)
  }

  predicate Fingerprints(seen: Option<Observation>) {
    seen.Some? && seen.value.source in RECOGNIZED
  }

  // A recognised source decides by its fingerprint alone; otherwise the caller's flag stands.
  predicate Invalidated(r: Row, invalidate: bool, seen: Option<Observation>) {
    if Fingerprints(seen)
    then seen.value.source !in r.checksums || r.checksums[seen.value.source] != seen.value.fingerprint
    else invalidate
  }

  predicate Expired(r: Row, now: int) {
    r.verifiedAt.None? || r.verifiedAt.value <= now - 24 * HOUR
  }

  predicate Recent(r: Row, now: int) {
    r.verifiedAt.Some? && r.verifiedAt.value > now - HOUR
  }

  predicate Active(r: Row, now: int) {
    r.status == Queued || (r.status == Running && r.leaseUntil.Some? && r.leaseUntil.value > now)
  }

  predicate Due(r: Row, refresh: bool, now: int) {
    !Active(r, now) && r.availableAt <= now && (Expired(r, now) || (refresh && !Recent(r, now)))
  }

  predicate Forced(r: Row, target: Target, invalidate: bool, seen: Option<Observation>) {
    r.target != target || Invalidated(r, invalidate, seen)
  }

  function Noted(r: Row, seen: Option<Observation>): Row {
    if Fingerprints(seen) then r.(checksums := r.checksums[seen.value.source := seen.value.fingerprint]) else r
  }

  function Requeued(r: Row, target: Target, now: int): Row {
    r.(target := target, status := Queued, requestedAt := now, availableAt := now,
       leaseToken := None, leaseUntil := None, errorCode := None)
  }

  function EnqueueRow(row: Option<Row>, open: bool, target: Target, refresh: bool, invalidate: bool,
                      seen: Option<Observation>, now: int): Option<Row>
  {
    if !open then row
    else
      var r := row.GetOr(NewRow(target, now));
      Some(if Forced(r, target, invalidate, seen) || Due(r, refresh, now) then Requeued(Noted(r, seen), target, now)
           else Noted(r, seen))
  }

  predicate Claimable(r: Row, now: int) {
    r.availableAt <= now
    && (r.status == Queued || (r.status == Running && r.leaseUntil.Some? && r.leaseUntil.value <= now))
  }

  function ClaimRow(r: Row, token: nat, now: int): Row {
    if Claimable(r, now)
    then r.(status := Running, leaseToken := Some(token), leaseUntil := Some(now + LEASE), attempts := r.attempts + 1)
    else r
  }

  // Fenced: the caller no longer holds the row. Superseded: it does, but the job moved on.
  // Mismatched: a document belongs to another target and the transaction rolls back.
  datatype Outcome = Fenced | Superseded | Mismatched | Recorded

  // The job as the finishing transaction finds it: its target, and whether this occurrence is
  // still its latest one and open.
  datatype JobNow = Missing | Found(target: Target, current: bool)

  predicate Holds(r: Row, token: nat, now: int) {
    r.leaseToken == Some(token) && r.status == Running && r.leaseUntil.Some? && r.leaseUntil.value > now
  }

  predicate Mismatch(documents: seq<Document>, target: Target) {
    exists d :: d in documents && d.identity != target
  }

  function FinishOutcome(row: Option<Row>, token: nat, target: Target, job: JobNow, documents: seq<Document>, now: int): Outcome {
    if row.None? || job.Missing? || !Holds(row.value, token, now) then Fenced
    else if !job.current || target != job.target || row.value.target != target then Superseded
    else if Mismatch(documents, target) then Mismatched
    else Recorded
  }

  predicate Conclusive(documents: seq<Document>, error: Option<string>) {
    error.None? && documents != [] && forall d :: d in documents ==> d.complete
  }

  function Released(r: Row): Row {
    r.(leaseToken := None, leaseUntil := None)
  }

  function VerifiedRow(s: Row, data: Projection, now: int): Row {
    s.(projection := Some(data), status := Complete, errorCode := None, verifiedAt := Some(now), availableAt := now)
  }

  function UnresolvedRow(s: Row, data: Projection, error: Option<string>, now: int): Row {
    var any := data.documents != [];
    s.(status := if any then Partial else if error.Some? && error.value in BARRIERS then Blocked else Failed,
       errorCode := Some(error.GetOr("incomplete_documents")),
       availableAt := now + HOUR,
       projection := if s.projection.None? && any then Some(data) else s.projection)
  }

  function RecordedRow(r: Row, target: Target, documents: seq<Document>, error: Option<string>, now: int): Row {
    var data := Projection(documents, target.location);
    var s := Released(r).(checkedAt := Some(now));
    if Conclusive(documents, error) then VerifiedRow(s, data, now) else UnresolvedRow(s, data, error, now)
  }

  function FinishRow(row: Option<Row>, token: nat, target: Target, job: JobNow, documents: seq<Document>,
                     error: Option<string>, now: int): Option<Row>
  {
    match FinishOutcome(row, token, target, job, documents, now)
    case Fenced => row
    case Mismatched => row
    case Superseded => Some(Released(row.value).(status := Blocked, errorCode := Some("target_changed"), availableAt := now + HOUR))
    case Recorded => Some(RecordedRow(row.value, target, documents, error, now))
  }

  // ----- The row, overwritten in place -----

  class EvidenceCheck {
    var target: Target
    var status: Status
    var requestedAt: int
    var availableAt: int
    var leaseToken: Option<nat>
    var leaseUntil: Option<int>
    var checkedAt: Option<int>
    var verifiedAt: Option<int>
    var projection: Option<Projection>
    var checksums: map<string, string>
    var errorCode: Option<string>
    var attempts: nat
    // Stored documents by source URL and checksum; `documentIds` names the ones last projected.
    var stored: map<(string, string), nat>
    var documentIds: seq<nat>

    function View(): Row
      reads this
    {
      Row(target, status, requestedAt, availableAt, leaseToken, leaseUntil, checkedAt, verifiedAt,
          projection, checksums, errorCode, attempts)
    }

    constructor (target: Target, now: int)
      ensures View() == NewRow(target, now) && stored == map[] && documentIds == []
    {
      this.target, status := target, Queued;
      requestedAt, availableAt := now, now;
      leaseToken, leaseUntil, checkedAt, verifiedAt, projection := None, None, None, None, None;
      checksums, errorCode, attempts := map[], None, 0;
      stored, documentIds := map[], [];
    }

    // Records a recognised source's fingerprint; says whether the row is invalidated.
    method Note(invalidate: bool, seen: Option<Observation>) returns (invalidated: bool)
      modifies this`checksums
      ensures invalidated == Invalidated(old(View()), invalidate, seen)
      ensures View() == Noted(old(View()), seen)
    {
      invalidated := invalidate;
      if Fingerprints(seen) {
        var source := seen.value.source;
        invalidated := source !in checksums || checksums[source] != seen.value.fingerprint;
        if invalidated { checksums := checksums[source := seen.value.fingerprint]; }
        assert checksums == old(checksums)[source := seen.value.fingerprint];
      }
    }

    method Requeue(target: Target, now: int)
      modifies this`target, this`status, this`requestedAt, this`availableAt, this`leaseToken, this`leaseUntil, this`errorCode
      ensures View() == Requeued(old(View()), target, now)
    {
      this.target, status := target, Queued;
      requestedAt, availableAt := now, now;
      leaseToken, leaseUntil, errorCode := None, None, None;
    }

    method Enqueue(open: bool, target: Target, refresh: bool, invalidate: bool, seen: Option<Observation>, now: int)
      modifies this
      ensures Some(View()) == EnqueueRow(Some(old(View())), open, target, refresh, invalidate, seen, now)
      ensures stored == old(stored) && documentIds == old(documentIds)
    {
      if !open { return; }
      var changed := this.target != target;
      var invalidated := Note(invalidate, seen);
      var due := IsDue(refresh, now);
      if changed || invalidated || due {
        Requeue(target, now);
      }
    }

    method IsDue(refresh: bool, now: int) returns (due: bool)
      ensures due == Due(View(), refresh, now)
    {
      var expired := verifiedAt.None? || verifiedAt.value <= now - 24 * HOUR;
      var recent := verifiedAt.Some? && verifiedAt.value > now - HOUR;
      var active := status == Queued || (status == Running && leaseUntil.Some? && leaseUntil.value > now);
      due := !active && availableAt <= now && (expired || (refresh && !recent));
    }

    method Claim(token: nat, now: int) returns (claimed: Option<(nat, Target)>)
      modifies this`status, this`leaseToken, this`leaseUntil, this`attempts
      ensures View() == ClaimRow(old(View()), token, now)
      ensures claimed == if Claimable(old(View()), now) then Some((token, target)) else None
    {
      if availableAt > now || !(status == Queued || (status == Running && leaseUntil.Some? && leaseUntil.value <= now)) {
        return None;
      }
      status, leaseToken, leaseUntil := Running, Some(token), Some(now + LEASE);
      attempts := attempts + 1;
      return Some((token, target));
    }

    // Stores each document once and lists the ids in document order; stops at a foreign document.
    method StoreDocuments(target: Target, documents: seq<Document>, already: map<(string, string), nat>)
      returns (ok: bool, table: map<(string, string), nat>, ids: seq<nat>)
      ensures ok <==> !Mismatch(documents, target)
      ensures ok ==> StoredAs(documents, ids, table)
      ensures forall k :: k in already ==> k in table && table[k] == already[k]
      ensures OneIdEach(already) ==> OneIdEach(table)
    {
      table, ids, ok := already, [], true;
      for n := 0 to |documents|
        invariant forall d :: d in documents[..n] ==> d.identity == target
        invariant StoredAs(documents[..n], ids, table)
        invariant forall k :: k in already ==> k in table && table[k] == already[k]
        invariant OneIdEach(already) ==> OneIdEach(table)
      {
        var d := documents[n];
        if d.identity != target {
          ok := false;
          assert Mismatch(documents, target) by { assert d in documents; }
          return;
        }
        var key := (d.sourceUrl, d.checksum);
        if key !in table {
          var id := NextId(table);
          table := table[key := id];
        }
        ids := ids + [table[key]];
      }
      assert documents[..|documents|] == documents;
    }

    // The claim is given up: the job no longer is what was claimed.
    method Supersede(now: int)
      modifies this`status, this`errorCode, this`leaseToken, this`leaseUntil, this`availableAt
      ensures View() == Released(old(View())).(status := Blocked, errorCode := Some("target_changed"), availableAt := now + HOUR)
    {
      status, errorCode := Blocked, Some("target_changed");
      leaseToken, leaseUntil := None, None;
      availableAt := now + HOUR;
    }

    // Writes the result of a finished check; `ids` are the stored documents' ids.
    method Record(target: Target, documents: seq<Document>, ids: seq<nat>, error: Option<string>, now: int)
      modifies this`checkedAt, this`leaseToken, this`leaseUntil, this`status, this`errorCode, this`availableAt,
               this`projection, this`documentIds, this`verifiedAt
      ensures View() == RecordedRow(old(View()), target, documents, error, now)
      ensures documentIds ==
        if Conclusive(documents, error) || (old(projection).None? && documents != []) then ids else old(documentIds)
    {
      CheckIn(now);
      var unresolved := error.Some? || documents == [] || exists d | d in documents :: !d.complete;
      assert unresolved <==> !Conclusive(documents, error);
      if unresolved {
        RecordUnresolved(Projection(documents, target.location), ids, error, now);
      } else {
        RecordVerified(Projection(documents, target.location), ids, now);
      }
    }

    method CheckIn(now: int)
      modifies this`checkedAt, this`leaseToken, this`leaseUntil
      ensures View() == Released(old(View())).(checkedAt := Some(now))
    {
      checkedAt := Some(now);
      leaseToken, leaseUntil := None, None;
    }

    method RecordVerified(data: Projection, ids: seq<nat>, now: int)
      modifies this`status, this`errorCode, this`verifiedAt, this`availableAt, this`projection, this`documentIds
      ensures View() == VerifiedRow(old(View()), data, now) && documentIds == ids
    {
      projection, documentIds := Some(data), ids;
      status, errorCode := Complete, None;
      verifiedAt, availableAt := Some(now), now;
    }

    // Verified evidence, when there is any, survives a check that ends without an answer.
    method RecordUnresolved(data: Projection, ids: seq<nat>, error: Option<string>, now: int)
      modifies this`status, this`errorCode, this`availableAt, this`projection, this`documentIds
      ensures View() == UnresolvedRow(old(View()), data, error, now)
      ensures documentIds == if old(projection).None? && data.documents != [] then ids else old(documentIds)
    {
      status := if data.documents != [] then Partial else if error.Some? && error.value in BARRIERS then Blocked else Failed;
      errorCode := Some(error.GetOr("incomplete_documents"));
      availableAt := now + HOUR;
      if projection.None? && data.documents != [] {
        projection, documentIds := Some(data), ids;
      }
    }

    // Stores the documents of a check still held and current, and records its result.
    method Conclude(target: Target, documents: seq<Document>, error: Option<string>, now: int) returns (ok: bool)
      modifies this
      ensures ok <==> !Mismatch(documents, target)
      ensures View() == if ok then RecordedRow(old(View()), target, documents, error, now) else old(View())
      ensures !ok ==> stored == old(stored) && documentIds == old(documentIds)
      ensures forall k :: k in old(stored) ==> k in stored && stored[k] == old(stored)[k]
      ensures old(OneIdEach(stored)) ==> OneIdEach(stored)
      ensures projection != old(projection) ==> StoredAs(documents, documentIds, stored)
    {
      var table, ids;
      ok, table, ids := StoreDocuments(target, documents, stored);
      if !ok { return; }
      stored := table;
      Record(target, documents, ids, error, now);
    }

    method Finish(token: nat, target: Target, job: JobNow, documents: seq<Document>, error: Option<string>, now: int)
      returns (outcome: Outcome)
      modifies this
      ensures outcome == FinishOutcome(Some(old(View())), token, target, job, documents, now)
      ensures Some(View()) == FinishRow(Some(old(View())), token, target, job, documents, error, now)
      ensures outcome != Recorded ==> stored == old(stored) && documentIds == old(documentIds)
      ensures forall k :: k in old(stored) ==> k in stored && stored[k] == old(stored)[k]
      ensures old(OneIdEach(stored)) ==> OneIdEach(stored)
      ensures projection != old(projection) ==> StoredAs(documents, documentIds, stored)
    {
      if job.Missing? || leaseToken != Some(token) || status != Running || leaseUntil.None? || leaseUntil.value <= now {
        return Fenced;
      }
      if !job.current || target != job.target || this.target != target {
        Supersede(now);
        return Superseded;
      }
      var ok := Conclude(target, documents, error, now);
      outcome := if ok then Recorded else Mismatched;
    }
  }

  // Document by document, the id its source URL and checksum are stored under.
  ghost predicate StoredAs(documents: seq<Document>, ids: seq<nat>, stored: map<(string, string), nat>) {
    |ids| == |documents|
    && forall i :: 0 <= i < |documents| ==>
         (documents[i].sourceUrl, documents[i].checksum) in stored
         && stored[(documents[i].sourceUrl, documents[i].checksum)] == ids[i]
  }

  ghost predicate OneIdEach(stored: map<(string, string), nat>) {
    forall a, b :: a in stored && b in stored && stored[a] == stored[b] ==> a == b
  }

  // A row id no stored document has, as an autoincrement column supplies one.
  method NextId(stored: map<(string, string), nat>) returns (id: nat)
    ensures forall k :: k in stored ==> stored[k] < id
  {
    id := 0;
    var left := stored;
    while left != map[]
      invariant forall k :: k in stored ==> k in left || stored[k] < id
      invariant forall k :: k in left ==> k in stored && left[k] == stored[k]
      decreases |left|
    {
      var k :| k in left;
      if left[k] >= id { id := left[k] + 1; }
      assert |left - {k}| == |left| - 1 by { assert (left - {k}).Keys == left.Keys - {k}; }
      left := left - {k};
    }
  }
}
