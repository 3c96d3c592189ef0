/** The dispatch engine: candidate search, the offer to the nearest one, and the rescue of stranded bookings. */
module DispatchService {
  import opened Domain
  import opened Worlds
  import opened Candidates
  import opened Protocol
  import opened Databases
  import TravelPricing
  import opened Safety

  /** Appends the admissible profiles, then sorts them nearest first. */
  method FindAll(db: Database, b: BookingId, r: Reading) returns (candidates: seq<Candidate>)
    requires b in db.bookings
    ensures candidates == FindCandidates(db.Value(), b, r)
    ensures Sorted(candidates)
    ensures r.located ==>
              multiset(candidates) == multiset(Gather(db.Value(), b, r, db.profiles, true))
  {
    if !r.located {
      return [];
    }
    ghost var w := db.Value();
    var excluded := Offered(db.Value(), b);
    var limit := db.settings.maxDistance;
    candidates := [];
    for i := 0 to |db.profiles|
      invariant candidates == Gather(w, b, r, db.profiles[..i], true)
    {
      var profile := db.profiles[i];
      assert db.profiles[..i + 1][..i] == db.profiles[..i];
      assert Gather(w, b, r, db.profiles[..i + 1], true)
          == candidates + if FastCandidate(w, b, r, profile).Some? then [FastCandidate(w, b, r, profile).value] else [];
      var listed := profile.available && profile.user in db.users && db.users[profile.user].isActive
                    && db.users[profile.user].status.Active? && db.users[profile.user].HasContractorAccess()
                    && profile.user !in excluded && profile.user != db.bookings[b].customer;
      if !listed || profile.locatedAt.None? || db.now - profile.locatedAt.value > FRESHNESS {
        continue;
      }
      var leg := LegOf(r, profile.user);
      if limit != 0 && leg.straight.Some? && leg.straight.value > limit {
        continue;
      }
      var measured := MeasureDistance(leg, db.settings);
      if measured.None? || (limit != 0 && measured.value.distance > limit) || !profile.eligible {
        continue;
      }
      candidates := candidates + [Candidate(profile.user, measured.value.distance, measured.value.source)];
    }
    assert db.profiles[..|db.profiles|] == db.profiles;
    SortSorts(candidates);
    candidates := SortByDistance(candidates);
  }

  /** Prices the offer to the chosen contractor, guards the ceiling, and saves the offer and the booking. */
  method Propose(db: Database, b: BookingId, r: Reading, nearest: Candidate) returns (made: Option<OfferId>)
    requires b in db.bookings
    modifies db
    ensures var w := old(db.Value());
            var offer := NewOffer(w, b, r, nearest);
            if ExceedsCeiling(w.bookings[b], offer) then made.None? && db.Value() == w
            else made == Some(w.nextOffer)
                 && db.Value() == PutBooking(PutOffer(w, w.nextOffer, offer), b,
                                             w.bookings[b].(lastAttemptAt := Some(w.now), updatedAt := w.now,
                                                            dispatch := Searching)).(nextOffer := w.nextOffer + 1)
  {
    var now := db.now;
    var booking := db.bookings[b];
    var services := FrozenServicesTotal(booking, r);
    var (total, fee) := TravelPricing.FinalTotal(services, nearest.distance, db.config);
    if booking.maxTotal.Some? && total > booking.maxTotal.value {
      return None;
    }
    var ttl := if db.config.offerTtlSeconds != 0 then db.config.offerTtlSeconds else OFFER_TTL_MINUTES * 60;
    var expiresAt := now + ttl * SECOND;
    if booking.scheduledAt.Some? && booking.scheduledAt.value < expiresAt {
      expiresAt := booking.scheduledAt.value;
    }
    var id := db.nextOffer;
    db.nextOffer := id + 1;
    db.offers := db.offers[id := Offer(b, nearest.user, OfferStatus.Pending, None, booking.round, nearest.distance,
                                       nearest.source, services, fee, total, total, db.config.version, now, expiresAt,
                                       None)];
    db.bookings := db.bookings[b := booking.(dispatch := Searching, lastAttemptAt := Some(now), updatedAt := now)];
    made := Some(id);
  }

  /** One dispatch attempt under the lock of its booking. */
  method Assign(db: Database, b: BookingId, r: Reading) returns (made: Option<OfferId>)
    requires b in db.bookings
    modifies db
    ensures (db.Value(), made) == old(AssignNextContractor(db.Value(), b, r))
  {
    hide FindCandidates, HasLiveOffer, IsReserved, NewOffer, ExceedsCeiling;
    var booking := db.bookings[b];
    if !booking.status.Pending? {
      return None;
    }
    if HasLiveOffer(db.Value(), b) {
      return None;
    }
    if IsReserved(db.Value(), b) {
      return None;
    }
    var candidates := [];
    if !VisitPassed(booking, db.now) {
      candidates := FindAll(db, b, r);
    }
    if candidates == [] {
      booking := booking.(dispatch := NoContractor, lastAttemptAt := Some(db.now), updatedAt := db.now);
      db.bookings := db.bookings[b := booking];
      return None;
    }
    made := Propose(db, b, r, candidates[0]);
  }

  // ---- What an attempt achieves ----------------------------------------------

  function AfterAttempt(w: World, b: BookingId, dispatch: DispatchStatus): Booking
    requires b in w.bookings
  {
    w.bookings[b].(lastAttemptAt := Some(w.now), updatedAt := w.now, dispatch := dispatch)
  }

  /** The booking has one offer more, stored under this id. */
  predicate OfferedAs(w: World, w': World, b: BookingId, o: Offer, id: OfferId)
    requires b in w.bookings && b in w'.bookings
  {
    && id !in OffersOf(w, b)
    && FolderOf(w', b) == FolderOf(w, b).(booking := AfterAttempt(w, b, Searching), offers := OffersOf(w, b)[id := o])
  }

  /**
   * Everything stored about the booking is what one attempt, decided in w, makes of it: nothing if it is passed over
   * or meets the ceiling, the mark that nobody is left, or exactly the decided offer, under some new id.
   */
  ghost predicate Dispatched(w: World, w': World, b: BookingId, r: Reading) {
    && b in w.bookings && b in w'.bookings
    && match Decide(w, b, r)
       case Skipped => SameFolder(w, w', b)
       case CeilingBreached => SameFolder(w, w', b)
       case NobodyLeft => FolderOf(w', b) == FolderOf(w, b).(booking := AfterAttempt(w, b, NoContractor))
       case Offering(o) => exists id: OfferId :: OfferedAs(w, w', b, o, id)
  }

  /** Nothing a dispatch decision reads changed, other than the rows of bookings. */
  predicate SameSurroundings(w: World, w': World) {
    && w'.now == w.now && w'.settings == w.settings && w'.users == w.users
    && w'.profiles == w.profiles && w'.config == w.config
  }

  lemma {:induction false} GatherIsLocal(w: World, w': World, b: BookingId, r: Reading, ps: seq<Profile>)
    requires b in w.bookings && b in w'.bookings && w'.bookings[b] == w.bookings[b] && Offered(w', b) == Offered(w, b)
    requires SameSurroundings(w, w')
    ensures Gather(w', b, r, ps, true) == Gather(w, b, r, ps, true)
  {
    if ps != [] {
      GatherIsLocal(w, w', b, r, ps[..|ps| - 1]);
    }
  }

  /** The queries about one booking read only its own rows. */
  lemma QueriesAreLocal(w: World, w': World, b: BookingId)
    requires SameFolder(w, w', b) && w'.now == w.now
    ensures HasLiveOffer(w', b) == HasLiveOffer(w, b) && IsReserved(w', b) == IsReserved(w, b)
    ensures Offered(w', b) == Offered(w, b)
  {
    assert forall id :: id in OffersOf(w, b) <==> id in w.offers && w.offers[id].booking == b;
    assert forall id :: id in OffersOf(w', b) <==> id in w'.offers && w'.offers[id].booking == b;
    assert forall id :: id in OffersOf(w, b) ==> OffersOf(w', b)[id] == w.offers[id] == w'.offers[id];
  }

  /** A dispatch decision depends on the rows of its own booking: other bookings do not matter. */
  lemma DecideIsLocal(w: World, w': World, b: BookingId, r: Reading)
    requires SameFolder(w, w', b) && SameSurroundings(w, w')
    ensures Decide(w', b, r) == Decide(w, b, r)
  {
    QueriesAreLocal(w, w', b);
    GatherIsLocal(w, w', b, r, w.profiles);
  }

  /** An offer is answerable from the moment it is made until its time is up or the visit begins, whichever is first. */
  lemma OfferLifetime(w: World, b: BookingId, r: Reading, c: Candidate, t: Time)
    requires b in w.bookings && !VisitPassed(w.bookings[b], w.now) && t >= w.now
    ensures NewOffer(w, b, r, c).IsActionable(w.now)
    ensures NewOffer(w, b, r, c).IsActionable(t) <==>
            t < w.now + TtlSeconds(w.config) * SECOND && !VisitPassed(w.bookings[b], t)
  {
  }

  /** The offer made is the cheapest any admissible contractor could have been made. */
  lemma NearestIsCheapest(w: World, b: BookingId, r: Reading, p: Profile)
    requires b in w.bookings && Decide(w, b, r).Offering? && p in w.profiles && FastCandidate(w, b, r, p).Some?
    ensures Decide(w, b, r).offer.total <= NewOffer(w, b, r, FastCandidate(w, b, r, p).value).total
  {
    HeadIsNearest(w, b, r);
    TravelPricing.NearerIsCheaper(FrozenServicesTotal(w.bookings[b], r), FindCandidates(w, b, r)[0].distance,
                                  FastCandidate(w, b, r, p).value.distance, w.config);
  }

  /** An attempt does to its booking what was decided for it in any database with the same rows and surroundings. */
  lemma AttemptDispatches(w: World, w': World, b: BookingId, r: Reading)
    requires KeysOk(w') && SameFolder(w, w', b) && SameSurroundings(w, w')
    ensures Dispatched(w, AssignNextContractor(w', b, r).0, b, r)
  {
    DecideIsLocal(w, w', b, r);
    hide Decide;
    var done := AssignNextContractor(w', b, r).0;
    match Decide(w', b, r)
    case Skipped =>
    case CeilingBreached =>
    case NobodyLeft => assert OffersOf(done, b) == OffersOf(w', b);
    case Offering(o) =>
      assert w'.nextOffer !in OffersOf(w, b);
      OfferedToThis(w', b, r);
      assert OffersOf(done, b) == OffersOf(w', b)[w'.nextOffer := o];
      assert OfferedAs(w, done, b, o, w'.nextOffer);
  }

  lemma OfferedToThis(w: World, b: BookingId, r: Reading)
    requires b in w.bookings && Decide(w, b, r).Offering?
    ensures Decide(w, b, r).offer.booking == b
  {
  }

  /**
   * The booking has a live offer, is held, is marked as having nobody left or is no longer pending; only the ceiling
   * can leave it waiting.
   */
  predicate Concluded(w: World, w': World, b: BookingId, r: Reading)
    requires b in w.bookings && b in w'.bookings
  {
    || !w'.bookings[b].status.Pending? || HasLiveOffer(w', b) || IsReserved(w', b)
    || w'.bookings[b].dispatch.NoContractor? || Decide(w, b, r).CeilingBreached?
  }

  /** Every attempt concludes the search for now. */
  lemma AttemptsConclude(w: World, w': World, b: BookingId, r: Reading)
    requires Dispatched(w, w', b, r) && w'.now == w.now
    ensures Concluded(w, w', b, r)
    ensures Decide(w, b, r).Offering? ==> HasLiveOffer(w', b)
    ensures Decide(w, b, r).NobodyLeft? ==> w'.bookings[b].dispatch.NoContractor?
  {
    match Decide(w, b, r)
    case Skipped => QueriesAreLocal(w, w', b);
    case CeilingBreached =>
    case NobodyLeft => assert FolderOf(w', b).booking == AfterAttempt(w, b, NoContractor);
    case Offering(o) =>
      OfferLifetime(w, b, r, FindCandidates(w, b, r)[0], w.now);
      var id: OfferId :| OfferedAs(w, w', b, o, id);
      assert id in FolderOf(w', b).offers;
      assert id in w'.offers && w'.offers[id] == o;
  }

  lemma UnheldIsAttempted(w: World, b: BookingId, r: Reading)
    requires b in w.bookings && w.bookings[b].status.Pending? && !HasLiveOffer(w, b) && !IsReserved(w, b)
    ensures !Decide(w, b, r).Skipped?
  {
    hide FindCandidates, HasLiveOffer, IsReserved;
  }

  lemma DispatchedIsLocal(w: World, w1: World, w2: World, b: BookingId, r: Reading)
    requires Dispatched(w, w1, b, r) && SameFolder(w1, w2, b)
    ensures Dispatched(w, w2, b, r)
  {
    hide Decide, OffersOf;
    if Decide(w, b, r).Offering? {
      var id: OfferId :| OfferedAs(w, w1, b, Decide(w, b, r).offer, id);
      assert OfferedAs(w, w2, b, Decide(w, b, r).offer, id);
    }
  }

  /** Decided in one database or in another with the same rows and surroundings, an attempt is the same attempt. */
  lemma DispatchedFromEither(w: World, w1: World, w2: World, b: BookingId, r: Reading)
    requires SameFolder(w, w1, b) && SameSurroundings(w, w1) && Dispatched(w1, w2, b, r)
    ensures Dispatched(w, w2, b, r)
  {
    DecideIsLocal(w, w1, b, r);
    hide Decide, OffersOf;
    if Decide(w, b, r).Offering? {
      var id: OfferId :| OfferedAs(w1, w2, b, Decide(w, b, r).offer, id);
      assert OffersOf(w, b) == FolderOf(w, b).offers == OffersOf(w1, b);
      assert OfferedAs(w, w2, b, Decide(w, b, r).offer, id);
    }
  }

  lemma AssignKeepsSurroundings(w: World, b: BookingId, r: Reading)
    requires b in w.bookings
    ensures SameSurroundings(w, AssignNextContractor(w, b, r).0)
    ensures AssignNextContractor(w, b, r).0.inFlight == w.inFlight
  {
  }
}
