/** The daily recap cutoff: eight in the evening, local time, at a fixed offset from UTC. */
module Cutoff {
  import opened Prelude

  const EVENING: int := 20 * HOUR

  function NextCutoff(after: int, offset: int): int {
    var local := after + offset;
    var cutoff := local / DAY * DAY + EVENING;
    (if cutoff <= local then cutoff + DAY else cutoff) - offset
  }

  predicate IsCutoff(instant: int, offset: int) {
    (instant + offset - EVENING) % DAY == 0
  }

  lemma {:induction false} MultiplesStep(k: int, m: int, d: int)
    requires d > 0 && k < m
    ensures k * d <= (m - 1) * d
    decreases m - k
  {
    if k < m - 1 {
      MultiplesStep(k + 1, m, d);
      assert (k + 1) * d == k * d + d;
    }
  }

  // The earliest cutoff strictly after an instant, at most a day away.
  lemma NextCutoffIsNext(after: int, offset: int)
    ensures after < NextCutoff(after, offset) <= after + DAY
    ensures IsCutoff(NextCutoff(after, offset), offset)
    ensures forall c :: IsCutoff(c, offset) && c > after ==> c >= NextCutoff(after, offset)
  {
    var next := NextCutoff(after, offset);
    var m := (next + offset - EVENING) / DAY;
    assert next + offset - EVENING == m * DAY && (m - 1) * DAY == m * DAY - DAY;
    forall c | IsCutoff(c, offset) && c > after ensures c >= next {
      var k := (c + offset - EVENING) / DAY;
      assert c + offset - EVENING == k * DAY;
      if k < m { MultiplesStep(k, m, DAY); }
    }
  }

  // The last cutoff not after `now`, starting from one that is due.
  function CaughtUp(end: int, offset: int, now: int): int
    decreases now - end
  {
    NextCutoffIsNext(end, offset);
    if NextCutoff(end, offset) <= now then CaughtUp(NextCutoff(end, offset), offset, now) else end
  }

  // No cutoff is left between the result and now, none on the way is skipped past.
  lemma {:induction false} CaughtUpIsLatest(end: int, offset: int, now: int)
    requires end <= now
    ensures end <= CaughtUp(end, offset, now) <= now < NextCutoff(CaughtUp(end, offset, now), offset)
    ensures forall c :: IsCutoff(c, offset) && end < c <= now ==> c <= CaughtUp(end, offset, now)
    ensures CaughtUp(end, offset, now) == end || IsCutoff(CaughtUp(end, offset, now), offset)
    decreases now - end
  {
    NextCutoffIsNext(end, offset);
    if NextCutoff(end, offset) <= now {
      CaughtUpIsLatest(NextCutoff(end, offset), offset, now);
    }
  }

  method CatchUp(due: int, offset: int, now: int) returns (end: int)
    ensures end == CaughtUp(due, offset, now)
  {
    end := due;
    while NextCutoff(end, offset) <= now
      invariant CaughtUp(end, offset, now) == CaughtUp(due, offset, now)
      decreases now - end
    {
      NextCutoffIsNext(end, offset);
      end := NextCutoff(end, offset);
    }
  }
}
