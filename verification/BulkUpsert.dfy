/** The bulk write: one pass prepares every observation of a batch, a second upserts the rows and
    settles their occurrences. Together they apply one lifecycle step per logical job. */
module BulkUpsert {
  import opened Prelude
  import opened Classifier
  import opened Lifecycle

  predicate DistinctHashes(jobs: seq<Candidate>) {
    forall i, j :: 0 <= i < j < |jobs| ==> jobs[i].baseHash != jobs[j].baseHash
  }

  class JobStore {
    var lives: map<string, Life>

    constructor ()
      ensures lives == map[]
    {
      lives := map[];
    }

    // The duplicate check, by set size as the program does it.
    method HasDuplicates(jobs: seq<Candidate>) returns (b: bool)
      ensures b <==> !DistinctHashes(jobs)
    {
      var seen: set<string> := {};
      for i := 0 to |jobs|
        invariant DistinctHashes(jobs[..i])
        invariant forall h :: h in seen <==> exists k :: 0 <= k < i && jobs[k].baseHash == h
      {
        if jobs[i].baseHash in seen { return true; }
        seen := seen + {jobs[i].baseHash};
      }
      return false;
    }

    // First pass: the effective observation and the row it will leave, job by job.
    method PrepareAll(env: Env, jobs: seq<Candidate>) returns (effective: seq<Candidate>, rows: seq<Posting>)
      ensures |effective| == |rows| == |jobs|
      ensures forall k :: 0 <= k < |jobs| ==> PreparedAt(env, At(lives, jobs[k].baseHash), jobs[k], effective[k], rows[k])
    {
      effective, rows := [], [];
      for i := 0 to |jobs|
        invariant |effective| == |rows| == i
        invariant forall k :: 0 <= k < i ==> PreparedAt(env, At(lives, jobs[k].baseHash), jobs[k], effective[k], rows[k])
      {
        var life := At(lives, jobs[i].baseHash);
        var decision := Decide(env, jobs[i], PostingOf(life), EvidenceOf(env, life));
        var job := Prepare(env, jobs[i], decision, PostingOf(life));
        effective := effective + [job];
        rows := rows + [Upserted(env, job, PostingOf(life))];
      }
    }

    // Second pass: occurrences, events and log of each upserted row.
    method SettleAll(env: Env, jobs: seq<Candidate>, effective: seq<Candidate>, rows: seq<Posting>, now: int)
      returns (outcomes: seq<Outcome>)
      requires |effective| == |rows| == |jobs| && DistinctHashes(jobs)
      modifies this
      ensures |outcomes| == |jobs|
      ensures forall k :: 0 <= k < |jobs| ==>
        SettledAt(env, old(At(lives, jobs[k].baseHash)), jobs[k], effective[k], rows[k], now, At(lives, jobs[k].baseHash), outcomes[k])
      ensures forall h :: (forall k :: 0 <= k < |jobs| ==> jobs[k].baseHash != h) ==> At(lives, h) == old(At(lives, h))
    {
      outcomes := [];
      for i := 0 to |jobs|
        invariant |outcomes| == i
        invariant forall h :: (forall k :: 0 <= k < i ==> jobs[k].baseHash != h) ==> At(lives, h) == old(At(lives, h))
        invariant forall k :: 0 <= k < i ==>
          SettledAt(env, old(At(lives, jobs[k].baseHash)), jobs[k], effective[k], rows[k], now, At(lives, jobs[k].baseHash), outcomes[k])
      {
        var hash := jobs[i].baseHash;
        ghost var before := lives;
        var life := At(lives, hash);
        assert life == old(At(lives, hash));
        var settled := Settled(env, life, jobs[i], effective[i], rows[i], now);
        lives := lives[hash := settled.0];
        outcomes := outcomes + [settled.1];
        assert forall h :: h != hash ==> At(lives, h) == At(before, h);
        assert SettledAt(env, life, jobs[i], effective[i], rows[i], now, At(lives, hash), outcomes[i]);
      }
    }

    // A rejected batch changes nothing. An accepted one takes each of its jobs one lifecycle step
    // from where it stood before the batch, answers in input order and leaves other jobs alone.
    method Upsert(env: Env, jobs: seq<Candidate>, now: int) returns (r: Option<seq<Outcome>>)
      modifies this
      ensures r.None? <==> !DistinctHashes(jobs)
      ensures r.None? ==> lives == old(lives)
      ensures r.Some? ==> Applied(env, old(lives), jobs, now, lives, r.value)
    {
      var duplicated := HasDuplicates(jobs);
      if duplicated { return None; }
      var effective, rows := PrepareAll(env, jobs);
      var outcomes := SettleAll(env, jobs, effective, rows, now);
      forall k | 0 <= k < |jobs|
        ensures StepAt(env, old(At(lives, jobs[k].baseHash)), jobs[k], now, At(lives, jobs[k].baseHash), outcomes[k])
      {
        TwoPassesAreAStep(env, old(At(lives, jobs[k].baseHash)), jobs[k], effective[k], rows[k], now, At(lives, jobs[k].baseHash), outcomes[k]);
      }
      return Some(outcomes);
    }
  }

  function At(lives: map<string, Life>, hash: string): Option<Life> {
    if hash in lives then Some(lives[hash]) else None
  }

  predicate PreparedAt(env: Env, life: Option<Life>, c: Candidate, job: Candidate, row: Posting) {
    job == Prepare(env, c, Decide(env, c, PostingOf(life), EvidenceOf(env, life)), PostingOf(life))
    && row == Upserted(env, job, PostingOf(life))
  }

  predicate SettledAt(env: Env, life: Option<Life>, c: Candidate, job: Candidate, row: Posting, now: int,
                      after: Option<Life>, outcome: Outcome)
  {
    after.Some? && (after.value, outcome) == Settled(env, life, c, job, row, now)
  }

  predicate StepAt(env: Env, life: Option<Life>, c: Candidate, now: int, after: Option<Life>, outcome: Outcome) {
    after.Some? && (after.value, outcome) == Step(env, life, c, now)
  }

  lemma TwoPassesAreAStep(env: Env, life: Option<Life>, c: Candidate, job: Candidate, row: Posting, now: int,
                          after: Option<Life>, outcome: Outcome)
    requires PreparedAt(env, life, c, job, row) && SettledAt(env, life, c, job, row, now, after, outcome)
    ensures StepAt(env, life, c, now, after, outcome)
  {
  }

  // What an accepted batch does to the store: one step for each of its jobs, nothing to any other.
  ghost predicate Applied(env: Env, before: map<string, Life>, jobs: seq<Candidate>, now: int, after: map<string, Life>, outcomes: seq<Outcome>) {
    && |outcomes| == |jobs|
    && (forall k :: 0 <= k < |jobs| ==>
          StepAt(env, At(before, jobs[k].baseHash), jobs[k], now, At(after, jobs[k].baseHash), outcomes[k]))
    && (forall h :: (forall k :: 0 <= k < |jobs| ==> jobs[k].baseHash != h) ==> At(after, h) == At(before, h))
  }

  ghost predicate StoreAgrees(env: Env, lives: map<string, Life>) {
    forall h :: Consistent(env, At(lives, h))
  }

  // A store every job of which agrees with itself stays so through any accepted batch.
  lemma BatchKeepsAgreement(env: Env, before: map<string, Life>, jobs: seq<Candidate>, now: int, after: map<string, Life>, outcomes: seq<Outcome>)
    requires ValidEnv(env) && Applied(env, before, jobs, now, after, outcomes)
    requires StoreAgrees(env, before)
    ensures StoreAgrees(env, after)
  {
    forall h ensures Consistent(env, At(after, h)) {
      assert Consistent(env, At(before, h));
      if k :| 0 <= k < |jobs| && jobs[k].baseHash == h {
        assert StepAt(env, At(before, h), jobs[k], now, At(after, h), outcomes[k]);
        SteppedAgrees(env, At(before, h), jobs[k], now, At(after, h), outcomes[k]);
      } else {
        assert At(after, h) == At(before, h);
      }
    }
  }

  lemma SteppedAgrees(env: Env, life: Option<Life>, c: Candidate, now: int, after: Option<Life>, outcome: Outcome)
    requires ValidEnv(env) && Consistent(env, life) && StepAt(env, life, c, now, after, outcome)
    ensures Consistent(env, after)
  {
    StepAgrees(env, life, c, now);
  }

  // A batch seen again, after one without ambiguous observations, changes nothing and says so.
  lemma BatchReplay(env: Env, before: map<string, Life>, jobs: seq<Candidate>, now: int, once: map<string, Life>, first: seq<Outcome>,
                    later: int, twice: map<string, Life>, second: seq<Outcome>)
    requires ValidEnv(env) && StoreAgrees(env, before)
    requires forall k :: 0 <= k < |jobs| ==> Unambiguous(env, At(before, jobs[k].baseHash), jobs[k])
    requires Applied(env, before, jobs, now, once, first) && Applied(env, once, jobs, later, twice, second)
    ensures twice == once && forall k :: 0 <= k < |jobs| ==> second[k] == NoOp
  {
    forall k | 0 <= k < |jobs| ensures At(twice, jobs[k].baseHash) == At(once, jobs[k].baseHash) && second[k] == NoOp {
      var hash := jobs[k].baseHash;
      assert Consistent(env, At(before, hash));
      assert StepAt(env, At(before, hash), jobs[k], now, At(once, hash), first[k]);
      assert StepAt(env, At(once, hash), jobs[k], later, At(twice, hash), second[k]);
      Replay(env, At(before, hash), jobs[k], now, later);
    }
    forall h ensures At(twice, h) == At(once, h) {
      if k :| 0 <= k < |jobs| && jobs[k].baseHash == h {
        assert At(twice, jobs[k].baseHash) == At(once, jobs[k].baseHash);
      }
    }
    SameStore(twice, once);
  }

  predicate Unambiguous(env: Env, life: Option<Life>, c: Candidate) {
    DecisionOf(env, life, c) != AmbiguousReopen
  }

  lemma SameStore(a: map<string, Life>, b: map<string, Life>)
    requires forall h :: At(a, h) == At(b, h)
    ensures a == b
  {
    assert forall h :: h in a <==> At(a, h).Some?;
    assert forall h :: h in b <==> At(b, h).Some?;
    forall h | h in a ensures h in b && a[h] == b[h] { assert At(a, h) == At(b, h); }
    forall h | h in b ensures h in a { assert At(a, h) == At(b, h); }
    assert a.Keys == b.Keys;
  }
}
