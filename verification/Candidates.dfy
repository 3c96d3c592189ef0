/** Who may be offered a booking, and in which order. */
module Candidates {
  import opened Domain
  import opened Worlds

  /** What the outside world measured between a property and one contractor; no route when directions are unavailable. */
  datatype Leg = Leg(straight: Option<Distance>, route: Option<Distance>)

  /** Readings taken during one dispatch attempt: the property's coordinates, the legs, the live catalogue total. */
  datatype Reading = Reading(located: bool, legs: map<UserId, Leg>, catalogueTotal: Cents)

  datatype Measurement = Measurement(distance: Distance, source: DistanceSource)

  datatype Candidate = Candidate(user: UserId, distance: Distance, source: DistanceSource)

  const FRESHNESS: int := 300 * SECOND

  function LegOf(r: Reading, user: UserId): Leg {
    if user in r.legs then r.legs[user] else Leg(None, None)
  }

  /** Road distance, or the straight line where the deployment explicitly allows it. */
  function MeasureDistance(leg: Leg, settings: Settings): (measured: Option<Measurement>)
    ensures measured.None? <==> leg.route.None? && (leg.straight.None? || !settings.allowHaversine)
    ensures measured.Some? && measured.value.source.Route? ==> leg.route == Some(measured.value.distance)
    ensures measured.Some? && measured.value.source.Haversine? ==>
              settings.allowHaversine && leg.route.None? && leg.straight == Some(measured.value.distance)
  {
    match leg.route
    case Some(d) => Some(Measurement(d, Route))
    case None =>
      if settings.allowHaversine && leg.straight.Some? then Some(Measurement(leg.straight.value, Haversine)) else None
  }

  /** The database filter: available, active, allowed to work, not yet offered this round, not the customer. */
  predicate Listed(w: World, b: BookingId, p: Profile)
    requires b in w.bookings
  {
    && p.available
    && p.user in w.users
    && w.users[p.user].isActive
    && w.users[p.user].status.Active?
    && (w.users[p.user].role.Contractor? || w.users[p.user].isContractor)
    && !w.users[p.user].role.Admin?
    && p.user !in Offered(w, b)
    && p.user != w.bookings[b].customer
  }

  predicate IsFresh(w: World, p: Profile) {
    p.locatedAt.Some? && w.now - p.locatedAt.value <= FRESHNESS
  }

  predicate WithinLimit(w: World, d: Distance) {
    w.settings.maxDistance == 0 || d <= w.settings.maxDistance
  }

  /** The cheap test on the straight line, made before the directions provider is asked. */
  predicate TooFarInAStraightLine(w: World, leg: Leg) {
    leg.straight.Some? && !WithinLimit(w, leg.straight.value)
  }

  /** The plain specification of one candidate: no cheap test. */
  function PlainCandidate(w: World, b: BookingId, r: Reading, p: Profile): Option<Candidate>
    requires b in w.bookings
  {
    var measured := MeasureDistance(LegOf(r, p.user), w.settings);
    if Listed(w, b, p) && IsFresh(w, p) && measured.Some? && WithinLimit(w, measured.value.distance) && p.eligible then
      Some(Candidate(p.user, measured.value.distance, measured.value.source))
    else
      None
  }

  function FastCandidate(w: World, b: BookingId, r: Reading, p: Profile): Option<Candidate>
    requires b in w.bookings
  {
    if TooFarInAStraightLine(w, LegOf(r, p.user)) then None else PlainCandidate(w, b, r, p)
  }

  function Gather(w: World, b: BookingId, r: Reading, ps: seq<Profile>, fast: bool): seq<Candidate>
    requires b in w.bookings
  {
    if ps == [] then []
    else
      var last := ps[|ps| - 1];
      var c := if fast then FastCandidate(w, b, r, last) else PlainCandidate(w, b, r, last);
      Gather(w, b, r, ps[..|ps| - 1], fast) + if c.Some? then [c.value] else []
  }

  function Insert(c: Candidate, sorted: seq<Candidate>): (inserted: seq<Candidate>)
    ensures |inserted| == |sorted| + 1
  {
    if sorted == [] || c.distance <= sorted[0].distance then [c] + sorted
    else [sorted[0]] + Insert(c, sorted[1..])
  }

  /** A stable sort by distance. */
  function SortByDistance(cs: seq<Candidate>): seq<Candidate> {
    if cs == [] then [] else Insert(cs[0], SortByDistance(cs[1..]))
  }

  ghost predicate Sorted(cs: seq<Candidate>) {
    forall i, j :: 0 <= i < j < |cs| ==> cs[i].distance <= cs[j].distance
  }

  function FindCandidates(w: World, b: BookingId, r: Reading): seq<Candidate>
    requires b in w.bookings
  {
    if r.located then SortByDistance(Gather(w, b, r, w.profiles, true)) else []
  }

  lemma {:induction false} InsertAddsOne(c: Candidate, cs: seq<Candidate>)
    ensures multiset(Insert(c, cs)) == multiset(cs) + multiset{c}
  {
    if cs != [] && c.distance > cs[0].distance {
      InsertAddsOne(c, cs[1..]);
      assert cs == [cs[0]] + cs[1..];
    }
  }

  lemma {:induction false} InsertKeepsOrder(c: Candidate, cs: seq<Candidate>)
    requires Sorted(cs)
    ensures Sorted(Insert(c, cs))
    ensures Insert(c, cs)[0].distance == if cs == [] || c.distance <= cs[0].distance then c.distance else cs[0].distance
  {
    if cs != [] && c.distance > cs[0].distance {
      InsertKeepsOrder(c, cs[1..]);
    }
  }

  /** Sorting orders by distance and neither loses nor invents a candidate. */
  lemma {:induction false} SortSorts(cs: seq<Candidate>)
    ensures Sorted(SortByDistance(cs))
    ensures multiset(SortByDistance(cs)) == multiset(cs)
  {
    if cs != [] {
      SortSorts(cs[1..]);
      InsertKeepsOrder(cs[0], SortByDistance(cs[1..]));
      InsertAddsOne(cs[0], SortByDistance(cs[1..]));
      assert cs == [cs[0]] + cs[1..];
    }
  }

  function AtDistance(cs: seq<Candidate>, d: Distance): seq<Candidate> {
    if cs == [] then []
    else (if cs[0].distance == d then [cs[0]] else []) + AtDistance(cs[1..], d)
  }

  lemma {:induction false} InsertIsStable(c: Candidate, cs: seq<Candidate>, d: Distance)
    requires Sorted(cs)
    ensures AtDistance(Insert(c, cs), d) == AtDistance([c] + cs, d)
  {
    assert ([c] + cs)[1..] == cs;
    if cs != [] && c.distance > cs[0].distance {
      InsertIsStable(c, cs[1..], d);
      assert ([c] + cs[1..])[1..] == cs[1..];
      assert ([cs[0]] + Insert(c, cs[1..]))[1..] == Insert(c, cs[1..]);
    }
  }

  /** Equally near contractors keep the order of the profile table. */
  lemma {:induction false} SortIsStable(cs: seq<Candidate>, d: Distance)
    ensures AtDistance(SortByDistance(cs), d) == AtDistance(cs, d)
  {
    if cs != [] {
      SortSorts(cs[1..]);
      SortIsStable(cs[1..], d);
      InsertIsStable(cs[0], SortByDistance(cs[1..]), d);
      assert ([cs[0]] + SortByDistance(cs[1..]))[1..] == SortByDistance(cs[1..]);
    }
  }

  /** A gathered candidate is exactly a profile that passes every test. */
  lemma {:induction false} GatherFinds(w: World, b: BookingId, r: Reading, ps: seq<Profile>, fast: bool, c: Candidate)
    requires b in w.bookings
    ensures c in Gather(w, b, r, ps, fast) <==>
            exists p :: p in ps && (if fast then FastCandidate(w, b, r, p) else PlainCandidate(w, b, r, p)) == Some(c)
  {
    hide FastCandidate, PlainCandidate;
    if ps != [] {
      var n := |ps| - 1;
      GatherFinds(w, b, r, ps[..n], fast, c);
      assert ps == ps[..n] + [ps[n]];
      assert forall p :: p in ps <==> p in ps[..n] || p == ps[n];
    }
  }

  lemma SameElements<T>(a: seq<T>, b: seq<T>, x: T)
    requires multiset(a) == multiset(b)
    ensures x in a <==> x in b
  {
    assert x in a <==> x in multiset(a);
    assert x in b <==> x in multiset(b);
  }

  /** The list holds exactly the admissible contractors, nearest first. */
  lemma CandidatesAreTheAdmissible(w: World, b: BookingId, r: Reading, c: Candidate)
    requires b in w.bookings && r.located
    ensures Sorted(FindCandidates(w, b, r))
    ensures c in FindCandidates(w, b, r) <==>
            exists p :: p in w.profiles && FastCandidate(w, b, r, p) == Some(c)
  {
    var gathered := Gather(w, b, r, w.profiles, true);
    SortSorts(gathered);
    GatherFinds(w, b, r, w.profiles, true, c);
    SameElements(gathered, SortByDistance(gathered), c);
  }

  /** The contractor offered comes from the profile table, passes every test, and nobody admissible is nearer. */
  lemma HeadIsNearest(w: World, b: BookingId, r: Reading)
    requires b in w.bookings && FindCandidates(w, b, r) != []
    ensures var head := FindCandidates(w, b, r)[0];
            && (exists p :: p in w.profiles && PlainCandidate(w, b, r, p) == Some(head))
            && forall p :: p in w.profiles && FastCandidate(w, b, r, p).Some? ==>
                             head.distance <= FastCandidate(w, b, r, p).value.distance
  {
    var all := FindCandidates(w, b, r);
    CandidatesAreTheAdmissible(w, b, r, all[0]);
    forall p | p in w.profiles && FastCandidate(w, b, r, p).Some?
      ensures all[0].distance <= FastCandidate(w, b, r, p).value.distance
    {
      CandidatesAreTheAdmissible(w, b, r, FastCandidate(w, b, r, p).value);
    }
  }

  /** An otherwise admissible contractor whose road is reported shorter than the straight line, the limit in between. */
  predicate RoadCutsAcross(w: World, b: BookingId, r: Reading, p: Profile)
    requires b in w.bookings
  {
    var leg := LegOf(r, p.user);
    && Listed(w, b, p) && IsFresh(w, p) && p.eligible
    && w.settings.maxDistance != 0 && leg.straight.Some? && leg.route.Some?
    && leg.route.value <= w.settings.maxDistance < leg.straight.value
  }

  /** The cheap test and the full one disagree about exactly those. */
  lemma DroppedIff(w: World, b: BookingId, r: Reading, p: Profile)
    requires b in w.bookings
    ensures FastCandidate(w, b, r, p) != PlainCandidate(w, b, r, p) <==> RoadCutsAcross(w, b, r, p)
  {
  }

  lemma {:induction false} FastGatherIsShorter(w: World, b: BookingId, r: Reading, ps: seq<Profile>)
    requires b in w.bookings
    ensures |Gather(w, b, r, ps, true)| <= |Gather(w, b, r, ps, false)|
    ensures Gather(w, b, r, ps, true) == Gather(w, b, r, ps, false) <==>
            forall p :: p in ps ==> !RoadCutsAcross(w, b, r, p)
    ensures Gather(w, b, r, ps, true) != Gather(w, b, r, ps, false) ==>
              |Gather(w, b, r, ps, true)| < |Gather(w, b, r, ps, false)|
  {
    if ps != [] {
      var n := |ps| - 1;
      FastGatherIsShorter(w, b, r, ps[..n]);
      assert ps == ps[..n] + [ps[n]];
      assert forall p :: p in ps <==> p in ps[..n] || p == ps[n];
      DroppedIff(w, b, r, ps[n]);
    }
  }

  /** The cheap test leaves the result as it is exactly when no admissible contractor's road cuts across the limit. */
  lemma PrefilterExact(w: World, b: BookingId, r: Reading)
    requires b in w.bookings && r.located
    ensures FindCandidates(w, b, r) == SortByDistance(Gather(w, b, r, w.profiles, false)) <==>
            forall p :: p in w.profiles ==> !RoadCutsAcross(w, b, r, p)
  {
    FastGatherIsShorter(w, b, r, w.profiles);
    SortSorts(Gather(w, b, r, w.profiles, true));
    SortSorts(Gather(w, b, r, w.profiles, false));
    if FindCandidates(w, b, r) == SortByDistance(Gather(w, b, r, w.profiles, false)) {
      assert |multiset(Gather(w, b, r, w.profiles, true))| == |multiset(Gather(w, b, r, w.profiles, false))|;
    }
  }

  /** Roads are never shorter than the straight line, so in practice the cheap test is free. */
  lemma PrefilterIsHarmless(w: World, b: BookingId, r: Reading)
    requires b in w.bookings && r.located
    requires forall u :: u in r.legs && r.legs[u].straight.Some? && r.legs[u].route.Some? ==>
                           r.legs[u].straight.value <= r.legs[u].route.value
    ensures FindCandidates(w, b, r) == SortByDistance(Gather(w, b, r, w.profiles, false))
  {
    PrefilterExact(w, b, r);
  }
}
