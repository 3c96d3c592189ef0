/** How a contractor answers an offer, under the locks of the booking and then the offer. */
module OfferService {
  import opened Domain
  import opened Worlds
  import opened Candidates
  import opened Protocol
  import opened Databases
  import DispatchService

  method Accept(db: Database, user: UserId, id: OfferId) returns (outcome: Outcome)
    modifies db
    ensures (db.Value(), outcome) == old(AcceptOffer(db.Value(), user, id))
  {
    var refusal := ResponderError(db.Value(), user, id);
    if refusal.Some? {
      return Refused(refusal.value);
    }
    var offer := db.offers[id];
    var booking := db.bookings[offer.booking];
    if offer.IsReserved() {
      return Done;
    }
    if !offer.IsActionable(db.now) {
      return Refused(OfferNotActionable);
    }
    if !booking.status.Pending? {
      return Refused(OfferNotActionable);
    }
    if IsReserved(db.Value(), offer.booking) {
      return Refused(OfferNotActionable);
    }
    if booking.scheduledAt.Some? && booking.scheduledAt.value <= db.now {
      return Refused(OfferNotActionable);
    }
    db.offers := db.offers[id := offer.(status := AcceptedPendingPayment, respondedAt := Some(db.now))];
    outcome := Done;
  }

  /** Without a reading the dispatch attempt raises, and the transaction is rolled back. */
  method Decline(db: Database, user: UserId, id: OfferId, r: Option<Reading>) returns (outcome: Outcome)
    modifies db
    ensures (db.Value(), outcome) == old(DeclineOffer(db.Value(), user, id, r))
  {
    var refusal := ResponderError(db.Value(), user, id);
    if refusal.Some? {
      return Refused(refusal.value);
    }
    var offer := db.offers[id];
    if !offer.IsActionable(db.now) || !db.bookings[offer.booking].status.Pending? {
      return Refused(OfferNotActionable);
    }
    var saved := db.Value();
    db.offers := db.offers[id := offer.(status := Declined, closeReason := Some(DeclinedByContractor),
                                        respondedAt := Some(db.now))];
    outcome := Done;
    if IsReserved(db.Value(), offer.booking) {
      return;
    }
    if r.None? {
      db.Restore(saved);
      return Refused(DispatchFailed);
    }
    var next := DispatchService.Assign(db, offer.booking, r.value);
  }
}
