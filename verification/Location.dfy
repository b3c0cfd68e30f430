/** Which source's word on a posting's location counts, over any history of observations. */
module Location {
  import opened Prelude

  // Text normalisation is left to the caller: what conveys a location, and a source's folded name.
  datatype Text = Text(meaningful: string -> bool, fold: string -> string)

  ghost predicate Sound(t: Text) {
    !t.meaningful("") && forall s :: t.fold(t.fold(s)) == t.fold(s)
  }

  const TIERS: map<string, nat> := map[
    "applyguy_internships" := 1, "applyguy_new_grad" := 1, "simplify_github" := 2, "amazon_jobs" := 3,
    "greenhouse" := 3, "lever" := 3, "meta_careers" := 3, "workday" := 3]

  function Tier(name: string): nat {
    if name in TIERS then TIERS[name] else 0
  }

  predicate Meaningful(t: Text, location: Option<string>) {
    location.Some? && t.meaningful(location.value)
  }

  function SourceName(t: Text, source: Option<string>): Option<string> {
    if source.None? || t.fold(source.value) == "" then None else Some(t.fold(source.value))
  }

  predicate SourceWins(t: Text, candidate: Option<string>, current: Option<string>) {
    var c, held := SourceName(t, candidate), SourceName(t, current);
    if c.None? then held.None?
    else if held.None? then c.value in TIERS
    else if c == held then true
    else if Tier(c.value) != Tier(held.value) then Tier(c.value) > Tier(held.value)
    else if Tier(c.value) == 0 then false
    else Less(c.value, held.value)
  }

  datatype Held = Held(location: Option<string>, source: Option<string>)
  datatype Observation = Observation(location: string, source: Option<string>)

  function Kept(held: Held, o: Observation): Held {
    Held(Some(if held.location.Some? && held.location.value != "" then held.location.value else o.location), held.source)
  }

  // The effective location and source once `o` is seen.
  function Reconcile(t: Text, held: Held, o: Observation): Held {
    var incoming := Held(Some(o.location), SourceName(t, o.source));
    if !t.meaningful(o.location) then Kept(held, o)
    else if !Meaningful(t, held.location) then incoming
    else if SourceWins(t, incoming.source, held.source) then incoming
    else Kept(held, o)
  }

  function Fold(t: Text, os: seq<Observation>): Held {
    if os == [] then Held(None, None) else Reconcile(t, Fold(t, os[..|os| - 1]), os[|os| - 1])
  }

  // ----- The authority order -----

  predicate Better(a: string, b: string) {
    Tier(a) > Tier(b) || (Tier(a) == Tier(b) && Less(a, b))
  }

  lemma BetterTrans(a: string, b: string, c: string)
    requires Better(a, b) && Better(b, c)
    ensures Better(a, c)
  {
    if Tier(a) == Tier(b) == Tier(c) { LessTrans(a, b, c); }
  }

  // ----- The fold -----

  predicate From(t: Text, o: Observation, name: string) {
    t.meaningful(o.location) && SourceName(t, o.source) == Some(name)
  }

  // The meaningful locations one source reported, in order.
  function Reported(t: Text, os: seq<Observation>, name: string): seq<string> {
    if os == [] then []
    else
      Reported(t, os[..|os| - 1], name)
      + (if From(t, os[|os| - 1], name) then [os[|os| - 1].location] else [])
  }

  ghost predicate Best(t: Text, os: seq<Observation>, name: string) {
    && Tier(name) > 0 && Reported(t, os, name) != []
    && forall other :: Tier(other) > 0 && Reported(t, os, other) != [] ==> other == name || Better(name, other)
  }

  // A meaningful held location carries the name of a source that reported one, if any did.
  lemma {:induction false} HeldWasReported(t: Text, os: seq<Observation>)
    requires Sound(t) && Meaningful(t, Fold(t, os).location)
    ensures var source := Fold(t, os).source;
      SourceName(t, source) == source && (source.Some? ==> Reported(t, os, source.value) != [])
  {
    var o, before := os[|os| - 1], Fold(t, os[..|os| - 1]);
    if Meaningful(t, before.location) {
      HeldWasReported(t, os[..|os| - 1]);
    }
    var name := SourceName(t, o.source);
    assert name.Some? ==> SourceName(t, name) == name;
    if t.meaningful(o.location) && name.Some? { assert From(t, o, name.value); }
  }

  lemma Recognized(name: string)
    ensures name in TIERS <==> Tier(name) > 0
  {
  }

  const BOARDS: set<string> := {"amazon_jobs", "greenhouse", "lever", "meta_careers", "workday"}

  const LISTS: set<string> := {"applyguy_internships", "applyguy_new_grad"}

  // Employers' own boards are equals and outrank every list; the Simplify list outranks the others, which
  // are equals, and those outrank any unknown source, none of which has a rank.
  lemma BoardsOutrank(a: string, b: string)
    ensures a in BOARDS ==> Tier(a) >= Tier(b) && (Tier(a) == Tier(b) <==> b in BOARDS)
    ensures a == "simplify_github" && b !in BOARDS ==> Tier(a) >= Tier(b) && (Tier(a) == Tier(b) <==> b == a)
    ensures a in LISTS && b !in BOARDS && b != "simplify_github" ==> Tier(a) >= Tier(b) && (Tier(a) == Tier(b) <==> b in LISTS)
    ensures a !in BOARDS && a !in LISTS && a != "simplify_github" ==> Tier(a) == 0
  {
    TierIs(a);
    TierIs(b);
  }

  lemma TierIs(name: string)
    ensures Tier(name) == if name in BOARDS then 3 else if name == "simplify_github" then 2 else if name in LISTS then 1 else 0
  {
  }

  // A recognised source replaces what a weaker source, itself or nobody said.
  lemma StepTakes(t: Text, held: Held, o: Observation, name: string)
    requires Sound(t) && From(t, o, name) && Tier(name) > 0
    requires Meaningful(t, held.location) ==> SourceName(t, held.source) == held.source
    requires Meaningful(t, held.location) && held.source.Some? && Tier(held.source.value) > 0 ==>
      held.source.value == name || Better(name, held.source.value)
    ensures Reconcile(t, held, o) == Held(Some(o.location), Some(name))
  {
    Recognized(name);
    assert SourceName(t, Some(name)) == Some(name);
  }

  // What a recognised source said stands against blanks, unknowns and weaker sources.
  lemma StepKeeps(t: Text, held: Held, o: Observation, name: string)
    requires Sound(t) && Meaningful(t, held.location) && held.source == Some(name) == SourceName(t, Some(name)) && Tier(name) > 0
    requires t.meaningful(o.location) ==>
      var c := SourceName(t, o.source);
      c.Some? ==> c.value != name && (Tier(c.value) > 0 ==> Better(name, c.value))
    ensures Reconcile(t, held, o) == held
  {
    if t.meaningful(o.location) {
      var c := SourceName(t, o.source);
      assert SourceName(t, c) == c;
      if c.Some? { LessTotal(name, c.value); }
    }
  }

  // The best recognised source's latest meaningful word is the result.
  lemma {:induction false} BestSourceDecides(t: Text, os: seq<Observation>, name: string)
    requires Sound(t) && Best(t, os, name)
    ensures Fold(t, os) == Held(Some(Last(Reported(t, os, name))), Some(name))
  {
    var init, o := os[..|os| - 1], os[|os| - 1];
    var before := Fold(t, init);
    Monotone(t, os);
    if From(t, o, name) {
      if Meaningful(t, before.location) { HeldWasReported(t, init); }
      StepTakes(t, before, o, name);
    } else {
      assert Best(t, init, name);
      BestSourceDecides(t, init, name);
      LastReportedMeans(t, init, name);
      var c := SourceName(t, o.source);
      if t.meaningful(o.location) && c.Some? { assert Reported(t, os, c.value) != []; }
      StepKeeps(t, before, o, name);
    }
  }

  function Last(s: seq<string>): string
    requires s != []
  {
    s[|s| - 1]
  }

  lemma Monotone(t: Text, os: seq<Observation>)
    requires os != []
    ensures forall name :: Reported(t, os[..|os| - 1], name) != [] ==> Reported(t, os, name) != []
  {
  }

  lemma {:induction false} LastReportedMeans(t: Text, os: seq<Observation>, name: string)
    requires Reported(t, os, name) != []
    ensures t.meaningful(Last(Reported(t, os, name)))
    ensures Sound(t) ==> SourceName(t, Some(name)) == Some(name)
  {
    var o := os[|os| - 1];
    if !From(t, o, name) {
      LastReportedMeans(t, os[..|os| - 1], name);
    }
  }

  // Who has spoken after one more observation.
  lemma SpokenNext(t: Text, os: seq<Observation>, name: string)
    requires os != []
    ensures Reported(t, os, name) != [] <==> Reported(t, os[..|os| - 1], name) != [] || From(t, os[|os| - 1], name)
  {
  }

  // The best source of a longer history is the best one before or the one that spoke last.
  lemma BestNext(t: Text, os: seq<Observation>, best: string)
    requires os != [] && Best(t, os[..|os| - 1], best)
    ensures exists name :: Best(t, os, name)
  {
    var init, c := os[..|os| - 1], SourceName(t, os[|os| - 1].source);
    forall x ensures Reported(t, os, x) != [] <==> Reported(t, init, x) != [] || From(t, os[|os| - 1], x) { SpokenNext(t, os, x); }
    if c.Some? && From(t, os[|os| - 1], c.value) && Tier(c.value) > 0 && Better(c.value, best) {
      forall x | Tier(x) > 0 && Reported(t, os, x) != [] && x != c.value ensures Better(c.value, x) {
        if x != best { BetterTrans(c.value, best, x); }
      }
      assert Best(t, os, c.value);
    } else {
      if c.Some? { LessTotal(c.value, best); }
      assert Best(t, os, best);
    }
  }

  // Some source is best as soon as a recognised one has said something meaningful.
  lemma {:induction false} BestExists(t: Text, os: seq<Observation>, some: string)
    requires Tier(some) > 0 && Reported(t, os, some) != []
    ensures exists name :: Best(t, os, name)
  {
    var init, o := os[..|os| - 1], os[|os| - 1];
    if other :| Tier(other) > 0 && Reported(t, init, other) != [] {
      BestExists(t, init, other);
      var best :| Best(t, init, best);
      BestNext(t, os, best);
    } else {
      assert From(t, o, some);
      assert Best(t, os, some);
    }
  }

  // The order in which different sources are polled does not matter: equal histories source by
  // source give the same location and the same provenance.
  lemma InterleavingIrrelevant(t: Text, a: seq<Observation>, b: seq<Observation>, some: string)
    requires Sound(t)
    requires Tier(some) > 0 && Reported(t, a, some) != []
    requires forall name :: Tier(name) > 0 ==> Reported(t, a, name) == Reported(t, b, name)
    ensures Fold(t, a) == Fold(t, b)
  {
    BestExists(t, a, some);
    var best :| Best(t, a, best);
    assert Best(t, b, best);
    BestSourceDecides(t, a, best);
    BestSourceDecides(t, b, best);
  }

  // ----- One step -----

  // A meaningful word replaces the held location exactly when none is held, or its source is the holder,
  // is recognised over a nameless holder, ranks higher, or comes first by name among recognised equals.
  lemma ReconcileExactly(t: Text, held: Held, o: Observation)
    requires Sound(t)
    ensures var mine := if o.source.Some? && t.fold(o.source.value) != "" then Some(t.fold(o.source.value)) else None;
      var its := if held.source.Some? && t.fold(held.source.value) != "" then Some(t.fold(held.source.value)) else None;
      var spoken := held.location.Some? && t.meaningful(held.location.value);
      var prevails :=
        || mine == its
        || (mine.Some? && its.None? && Tier(mine.value) > 0)
        || (mine.Some? && its.Some? && Tier(mine.value) > Tier(its.value))
        || (mine.Some? && its.Some? && Tier(mine.value) == Tier(its.value) > 0 && Less(mine.value, its.value));
      Reconcile(t, held, o) ==
        if t.meaningful(o.location) && (!spoken || prevails) then Held(Some(o.location), mine)
        else Held(Some(if held.location.Some? && held.location.value != "" then held.location.value else o.location), held.source)
  {
    if o.source.Some? { Recognized(t.fold(o.source.value)); }
  }

  // Seeing the same observation again changes nothing.
  lemma ReconcileTwice(t: Text, held: Held, o: Observation)
    requires Sound(t)
    ensures Reconcile(t, Reconcile(t, held, o), o) == Reconcile(t, held, o)
  {
  }

  // ----- Histories without a recognised source -----

  // The meaningful locations said under one name, or under none.
  function Said(t: Text, os: seq<Observation>, who: Option<string>): seq<string> {
    if os == [] then []
    else
      var o := os[|os| - 1];
      Said(t, os[..|os| - 1], who) + (if t.meaningful(o.location) && SourceName(t, o.source) == who then [o.location] else [])
  }

  // Who said something meaningful first.
  function Speaker(t: Text, os: seq<Observation>): Option<Option<string>> {
    if os == [] then None
    else
      var o, before := os[|os| - 1], Speaker(t, os[..|os| - 1]);
      if before.Some? then before else if t.meaningful(o.location) then Some(SourceName(t, o.source)) else None
  }

  predicate Unranked(t: Text, os: seq<Observation>) {
    forall i :: 0 <= i < |os| && t.meaningful(os[i].location) ==> SourceName(t, os[i].source).None? || Tier(SourceName(t, os[i].source).value) == 0
  }

  // Among unranked sources whoever spoke first keeps the word, named or not: its latest is the result.
  lemma {:induction false} FirstSpeakerDecides(t: Text, os: seq<Observation>)
    requires Sound(t) && Unranked(t, os) && Speaker(t, os).Some?
    ensures var who := Speaker(t, os).value;
      SourceName(t, who) == who && Said(t, os, who) != [] && t.meaningful(Last(Said(t, os, who)))
      && Fold(t, os) == Held(Some(Last(Said(t, os, who))), who)
  {
    var init, o := os[..|os| - 1], os[|os| - 1];
    var mine := SourceName(t, o.source);
    assert SourceName(t, mine) == mine;
    if Speaker(t, init).Some? {
      FirstSpeakerDecides(t, init);
    } else {
      NothingSaid(t, init);
    }
  }

  // While nothing meaningful was said, the first text that is not empty is kept, under no name.
  lemma {:induction false} NothingSaid(t: Text, os: seq<Observation>)
    requires Sound(t) && Speaker(t, os).None?
    ensures Fold(t, os).source == None && !Meaningful(t, Fold(t, os).location)
    ensures Fold(t, os).location == if os == [] then None else Some(FirstText(os))
  {
    if os != [] { NothingSaid(t, os[..|os| - 1]); }
  }

  function FirstText(os: seq<Observation>): string {
    if os == [] then ""
    else if FirstText(os[..|os| - 1]) != "" then FirstText(os[..|os| - 1]) else os[|os| - 1].location
  }
}
