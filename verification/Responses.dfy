/** What accepting, declining, cancelling and rescheduling achieve, in a consistent database. */
module Responses {
  import opened Domain
  import opened Worlds
  import opened Candidates
  import opened Protocol
  import opened Safety
  import opened DispatchService
  import Scheduling

  /** The account may answer this offer: a contractor with a profile, and the one addressed. */
  predicate MayAnswer(w: World, user: UserId, id: OfferId) {
    && user in w.users && w.users[user].HasContractorAccess() && HasProfile(w, user)
    && id in w.offers && w.offers[id].contractor == user
  }

  lemma OthersStandBack(w: World, id: OfferId, other: OfferId)
    requires Inv(w) && id in w.offers && w.offers[id].Engages(w.now)
    requires other in w.offers && other != id && w.offers[other].booking == w.offers[id].booking
    ensures !w.offers[other].Engages(w.now)
  {
    var f := FolderOf(w, w.offers[id].booking);
    assert AtMostOneEngaged(w.now, f.offers);
    assert f.offers[id].Engages(w.now) && f.offers[other] == w.offers[other];
  }

  /** In a consistent database an answerable offer is on a pending booking, unreserved, before the visit. */
  lemma AnswerableOffer(w: World, id: OfferId)
    requires Inv(w) && id in w.offers && w.offers[id].IsActionable(w.now)
    ensures var b := w.offers[id].booking;
            b in w.bookings && w.bookings[b].status.Pending? && !IsReserved(w, b) && !VisitPassed(w.bookings[b], w.now)
  {
    var b := w.offers[id].booking;
    OfferIsOk(w, id);
    forall other | other in w.offers && w.offers[other].booking == b && other != id
      ensures !w.offers[other].Engages(w.now)
    {
      OthersStandBack(w, id, other);
    }
  }

  /**
   * Acceptance succeeds exactly for the addressee of an offer that is still answerable or already held: the checks
   * on the booking's status, on other reservations, on the visit and on one's own booking never decide anything.
   */
  lemma AcceptExactly(w: World, user: UserId, id: OfferId)
    requires Inv(w)
    ensures AcceptOffer(w, user, id).1.Done? <==> MayAnswer(w, user, id) && w.offers[id].Engages(w.now)
  {
    if id in w.offers {
      OfferIsOk(w, id);
      if w.offers[id].IsActionable(w.now) {
        AnswerableOffer(w, id);
      }
    }
  }

  /** Refusal succeeds exactly for the addressee of an answerable offer whose follow-up attempt does not raise. */
  lemma DeclineExactly(w: World, user: UserId, id: OfferId, r: Option<Reading>)
    requires Inv(w)
    ensures DeclineOffer(w, user, id, r).1.Done? <==>
            MayAnswer(w, user, id) && w.offers[id].IsActionable(w.now) && r.Some?
  {
    hide AssignNextContractor, Consistent, IsReserved;
    if id in w.offers {
      OfferIsOk(w, id);
      if w.offers[id].IsActionable(w.now) {
        AnswerableOffer(w, id);
        UnheldAfterClosing(w, id);
      }
    }
  }

  /** A refusal that goes through is the closing of the offer followed by one dispatch attempt. */
  lemma DeclineCascades(w: World, user: UserId, id: OfferId, r: Option<Reading>)
    requires Inv(w) && DeclineOffer(w, user, id, r).1.Done?
    ensures id in w.offers && w.offers[id].booking in w.bookings && r.Some?
    ensures DeclineOffer(w, user, id, r).0
         == AssignNextContractor(PutOffer(w, id, DeclinedOffer(w.offers[id], w.now)), w.offers[id].booking, r.value).0
  {
    DeclineExactly(w, user, id, r);
    UnheldAfterClosing(w, id);
    hide AssignNextContractor, Inv, IsReserved, HasLiveOffer;
  }

  lemma UnheldAfterClosing(w: World, id: OfferId)
    requires Inv(w) && id in w.offers && w.offers[id].IsActionable(w.now)
    ensures var closed := PutOffer(w, id, DeclinedOffer(w.offers[id], w.now));
            !HasLiveOffer(closed, w.offers[id].booking) && !IsReserved(closed, w.offers[id].booking)
  {
    var b := w.offers[id].booking;
    forall j | j in w.offers && w.offers[j].booking == b && j != id ensures !w.offers[j].Engages(w.now) {
      OthersStandBack(w, id, j);
    }
  }

  /**
   * A refusal is never a dead end: in the same step the booking gets a live offer to somebody else, or is marked as
   * having nobody left; only the price ceiling can leave it waiting.
   */
  lemma DeclinePassesOn(w: World, user: UserId, id: OfferId, r: Option<Reading>)
    requires Inv(w) && DeclineOffer(w, user, id, r).1.Done?
    ensures r.Some? && id in w.offers
    ensures var b := w.offers[id].booking;
            var closed := PutOffer(w, id, DeclinedOffer(w.offers[id], w.now));
            var w' := DeclineOffer(w, user, id, r).0;
            && Dispatched(closed, w', b, r.value)
            && (HasLiveOffer(w', b) || w'.bookings[b].dispatch.NoContractor? || Decide(closed, b, r.value).CeilingBreached?)
            && id in w'.offers && w'.offers[id] == DeclinedOffer(w.offers[id], w.now)
            && forall j :: j in w'.offers && w'.offers[j].booking == b && w'.offers[j].IsActionable(w'.now) ==>
                             w'.offers[j].contractor != user
  {
    var b := w.offers[id].booking;
    var closed := PutOffer(w, id, DeclinedOffer(w.offers[id], w.now));
    OfferIsOk(w, id);
    DeclineExactly(w, user, id, r);
    DeclineCascades(w, user, id, r);
    UnheldAfterClosing(w, id);
    AnswerableOffer(w, id);
    CloseKeepsInv(w, id, DeclinedOffer(w.offers[id], w.now));
    NotToTheSameAgain(closed, b, r.value, user, id);
    AssignKeepsSurroundings(closed, b, r.value);
    hide Consistent, Dispatched, HasLiveOffer, IsReserved, DeclineOffer, AssignNextContractor, FindCandidates;
    AttemptDispatches(closed, closed, b, r.value);
    AttemptsConclude(closed, DeclineOffer(w, user, id, r).0, b, r.value);
  }

  lemma NotToTheSameAgain(closed: World, b: BookingId, r: Reading, user: UserId, id: OfferId)
    requires b in closed.bookings && id in closed.offers && closed.offers[id].booking == b
    requires closed.offers[id].contractor == user && closed.offers[id].round == closed.bookings[b].round
    requires !HasLiveOffer(closed, b)
    ensures var w' := AssignNextContractor(closed, b, r).0;
            && id in w'.offers && (id != closed.nextOffer ==> w'.offers[id] == closed.offers[id])
            && forall j :: j in w'.offers && w'.offers[j].booking == b && w'.offers[j].IsActionable(w'.now) ==>
                             w'.offers[j].contractor != user
  {
    if Decide(closed, b, r).Offering? {
      ChosenIsAdmissible(closed, b, r);
      assert user in Offered(closed, b);
    }
  }

  lemma CancelledOne(w: World, b: BookingId, id: OfferId)
    requires b in w.bookings && id in w.offers
    ensures var w' := Cancelling(w, b);
            && w'.bookings[b].status.Cancelled? && w'.bookings[b].cancelledAt == Some(w.now)
            && w'.offers.Keys == w.offers.Keys
            && w'.offers[id] == if w.offers[id].booking == b && IsOpen(w.offers[id])
                                then ClosedByCancellation(w.offers[id], w.now) else w.offers[id]
  {
  }

  lemma CancellingIsPending(w: World, actor: Option<UserId>, b: BookingId)
    requires CancelBooking(w, actor, b).1.Done?
    ensures b in w.bookings && w.bookings[b].status.Pending? && CancelBooking(w, actor, b).0 == Cancelling(w, b)
  {
    hide Cancelling;
  }

  /** A cancellation nobody interrupts closes every open offer of the booking as cancelled, and touches nothing else. */
  lemma CancelClosesOffers(w: World, actor: Option<UserId>, b: BookingId, id: OfferId)
    requires Inv(w) && CancelBooking(w, actor, b).1.Done? && id in w.offers
    ensures var w' := CancelBooking(w, actor, b).0;
            && OnlyTouches(w, w', b) && w'.bookings[b].status.Cancelled? && w'.bookings[b].cancelledAt == Some(w.now)
            && w'.offers.Keys == w.offers.Keys
            && (w'.offers[id] != w.offers[id] <==> w.offers[id].booking == b && IsOpen(w.offers[id]))
            && (w'.offers[id] != w.offers[id] ==>
                  w'.offers[id].status.Expired? && w'.offers[id].closeReason == Some(CloseReason.BookingCancelled)
                  && w'.offers[id].respondedAt == Some(w.now))
  {
    hide Inv, OnlyTouches, CancelBooking, Cancelling;
    CancellingIsPending(w, actor, b);
    CancellingKeepsInv(w, b);
    CancelledOne(w, b, id);
  }

  /** A rescheduled booking is searched for again from scratch, at an admissible time that is still to come. */
  lemma RescheduleStartsOver(w: World, user: UserId, b: BookingId, when: Option<Time>, zone: string, r: Reading)
    requires Inv(w) && RescheduleBooking(w, user, b, when, zone).1.Done?
    ensures var w' := RescheduleBooking(w, user, b, when, zone).0;
            && b in w'.bookings && OffersOf(w', b) == map[] && !Decide(w', b, r).Skipped?
            && w'.bookings[b].scheduledAt == when && !VisitPassed(w'.bookings[b], w'.now)
            && Scheduling.OpenAt(if when.Some? then when.value else w.now, w.bookings[b].utcOffset,
                                 Scheduling.ServiceWindow(w.config.hours))
  {
    hide Decide, Inv;
    UnofferedIsSearched(RescheduleBooking(w, user, b, when, zone).0, b, r);
  }

  lemma NoOffersYet(w: World, b: BookingId)
    requires Inv(w)
    ensures b !in w.bookings ==> forall id :: id in w.offers ==> w.offers[id].booking != b
  {
  }

  /** The slot of a new booking is open, and a planned visit keeps the lead time. */
  lemma CreationKeepsHours(w: World, b: BookingId, user: UserId, q: Request)
    requires b !in w.bookings && LookedUp(w, q) && CreateBooking(w, b, user, q).1.Done?
    ensures var w' := CreateBooking(w, b, user, q).0;
            && w' == PutBooking(EndCall(w, q), b, NewBooking(w, user, q))
            && b in w'.bookings && w'.bookings[b].scheduledAt == q.when && !VisitPassed(w'.bookings[b], w'.now)
            && (q.when.Some? ==> w.now + w.settings.minLeadMinutes * MINUTE <= q.when.value)
            && Scheduling.OpenAt(if q.when.Some? then q.when.value else w.now, q.offset,
                                 Scheduling.ServiceWindow(w.config.hours))
  {
    hide RequestedSelectionError, CustomerError;
  }

  lemma UnofferedIsSearched(w: World, b: BookingId, r: Reading)
    requires b in w.bookings && w.bookings[b].status.Pending?
    requires forall id :: id in w.offers ==> w.offers[id].booking != b
    ensures OffersOf(w, b) == map[] && !Decide(w, b, r).Skipped?
  {
    hide FindCandidates, NewOffer;
  }

  /** A new booking is open for the search at once, under the ceiling of the customer's own quote, which is now used. */
  lemma CreationStartsSearch(w: World, b: BookingId, user: UserId, q: Request, r: Reading)
    requires Inv(w) && b !in w.bookings && LookedUp(w, q) && CreateBooking(w, b, user, q).1.Done?
    ensures var w' := CreateBooking(w, b, user, q).0;
            && b in w'.bookings && OffersOf(w', b) == map[] && !Decide(w', b, r).Skipped?
            && w'.bookings[b].quote == QuoteOf(w, q)
            && (q.quote.Some? ==>
                  var quote := QuoteOf(w, q).value;
                  && quote.customer == user && quote.property == q.property && IsUsed(w', quote.id)
                  && q.quote.value !in w'.inFlight.looked && w'.bookings[b].maxTotal == Some(quote.maximumTotal))
  {
    NoOffersYet(w, b);
    CreationKeepsHours(w, b, user, q);
    CreationIsOwn(w, b, user, q);
    hide Inv, CreateBooking, CreationError, IsUsed, Foreign;
    UnofferedIsSearched(PutBooking(EndCall(w, q), b, NewBooking(w, user, q)), b, r);
    if q.quote.Some? {
      UsedBy(PutBooking(EndCall(w, q), b, NewBooking(w, user, q)), b);
    }
  }

  lemma CreationIsOwn(w: World, b: BookingId, user: UserId, q: Request)
    requires b !in w.bookings && LookedUp(w, q) && CreateBooking(w, b, user, q).1.Done?
    ensures !Foreign(QuoteOf(w, q), user, q.property)
    ensures q.quote.Some? ==> QuoteOf(w, q).value.customer == user && QuoteOf(w, q).value.property == q.property
  {
    hide RequestedSelectionError, SlotOf, CustomerError;
  }

  lemma UsedBy(w: World, b: BookingId)
    requires b in w.bookings && w.bookings[b].quote.Some?
    ensures IsUsed(w, w.bookings[b].quote.value.id)
  {
  }
}
