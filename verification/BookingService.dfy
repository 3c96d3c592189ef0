/** What a customer does: ask for a quote, book, reschedule, cancel. */
module BookingService {
  import opened Domain
  import opened Worlds
  import opened Protocol
  import opened Databases
  import Quotes
  import Scheduling
  import TravelPricing

  /** Stores a new quote for one of the customer's properties; `located` says whether the property has coordinates. */
  method CreateQuote(db: Database, id: QuoteId, user: UserId, property: nat, owner: Option<UserId>, located: bool,
                     catalogue: Quotes.Catalogue, entries: seq<Quotes.Entry>)
    returns (result: Quotes.Result<Quote, Error>)
    requires id !in db.quotes
    modifies db
    ensures old(QuotingError(db.Value(), user, owner, located, catalogue, entries))
         == if result.Ok? then None else Some(result.error)
    ensures result.Err? ==> db.Value() == old(db.Value())
    ensures result.Ok? ==>
              var q := result.value;
              && old(MayIssue(db.Value(), q)) && db.Value() == old(Next(db.Value(), Issue(q)))
              && q.id == id && q.customer == user && q.property == property
              && |q.lines| == |entries|
              && forall i :: 0 <= i < |entries| ==> Quotes.LineOf(catalogue, entries[i], q.lines[i])
  {
    var refusal := CustomerError(db.Value(), user);
    if refusal.Some? {
      return Quotes.Err(refusal.value);
    }
    refusal := PropertyError(user, owner);
    if refusal.Some? {
      return Quotes.Err(refusal.value);
    }
    if !located {
      return Quotes.Err(NotServiceable);
    }
    Quotes.AcceptedIffFreezable(catalogue, entries, false);
    var frozen := Quotes.FreezeSelections(catalogue, entries);
    if frozen.Err? {
      return Quotes.Err(BadSelection(frozen.error));
    }
    var quote := Quote(id, user, property, frozen.value.lines, frozen.value.total,
                       TravelPricing.MaximumTotal(frozen.value.total, db.config), db.config.currency,
                       db.config.version, db.now + Quotes.QUOTE_TTL);
    db.quotes := db.quotes[id := quote];
    result := Quotes.Ok(quote);
  }

  /** The first check a request for a quote fails. */
  function QuotingError(w: World, user: UserId, owner: Option<UserId>, located: bool, catalogue: Quotes.Catalogue,
                        entries: seq<Quotes.Entry>): Option<Error> {
    if CustomerError(w, user).Some? then CustomerError(w, user)
    else if PropertyError(user, owner).Some? then PropertyError(user, owner)
    else if !located then Some(NotServiceable)
    else
      var problem := Quotes.SelectionError(catalogue, entries, false);
      if problem.Some? then Some(BadSelection(problem.value)) else None
  }

  /** First half of a request that names a quote: nothing is locked, so another request may find the same one. */
  method FindQuote(db: Database, call: nat, user: UserId, id: QuoteId, property: nat) returns (outcome: Outcome)
    requires call !in db.inFlight.looked
    modifies db
    ensures (db.Value(), outcome) == old(LookUpQuote(db.Value(), call, user, id, property))
  {
    var refusal := CustomerError(db.Value(), user);
    if refusal.Some? {
      return Refused(refusal.value);
    }
    if id !in db.quotes {
      return Refused(BadQuote(Quotes.QuoteNotFound));
    }
    var quote := db.quotes[id];
    if quote.customer != user {
      return Refused(BadQuote(Quotes.QuoteNotFound));
    }
    if quote.expiresAt <= db.now {
      return Refused(BadQuote(Quotes.QuoteExpired));
    }
    if IsUsed(db.Value(), id) {
      return Refused(BadQuote(Quotes.QuoteAlreadyUsed));
    }
    if quote.property != property {
      return Refused(BadQuote(Quotes.WrongProperty));
    }
    db.inFlight := db.inFlight.(looked := db.inFlight.looked[call := id]);
    outcome := Done;
  }

  /** Second half: validates everything, with the quote found earlier, then writes the booking. */
  method Create(db: Database, b: BookingId, user: UserId, q: Request) returns (outcome: Outcome)
    requires b !in db.bookings && LookedUp(db.Value(), q)
    modifies db
    ensures (db.Value(), outcome) == old(CreateBooking(db.Value(), b, user, q))
  {
    var quote: Option<Quote> := None;
    if q.quote.Some? {
      quote := Some(db.quotes[db.inFlight.looked[q.quote.value]]);
    }
    ghost var looked := db.Value();
    if q.quote.Some? {
      db.inFlight := db.inFlight.(looked := db.inFlight.looked - {q.quote.value});
    }
    assert db.Value() == EndCall(looked, q);
    var refusal := CustomerError(db.Value(), user);
    if refusal.Some? {
      return Refused(refusal.value);
    }
    if q.reviewDue {
      return Refused(ReviewRequired);
    }
    refusal := PropertyError(user, q.owner);
    if refusal.Some? {
      return Refused(refusal.value);
    }
    if !q.inUse {
      return Refused(PropertyInactive);
    }
    if quote.Some? && (quote.value.customer != user || quote.value.property != q.property) {
      return Refused(BadQuote(Quotes.WrongProperty));
    }
    refusal := RequestedSelectionError(quote, q);
    if refusal.Some? {
      return Refused(refusal.value);
    }
    var slot := SlotOf(db.Value(), q.when, q.offset);
    if slot.Rejected? {
      return Refused(OutsideSchedule(slot.error));
    }
    if !q.homeDetailsOk {
      return Refused(InvalidHomeDetails);
    }
    var booking := Booking(user, q.property, q.zone, BookingStatus.Pending, Searching, slot.at, q.offset, db.now, None,
                           db.now, None, 1, quote,
                           if quote.Some? then Some(quote.value.maximumTotal) else None,
                           if quote.Some? then Some(quote.value.version) else None, None, None);
    db.bookings := db.bookings[b := booking];
    outcome := Done;
  }

  method Reschedule(db: Database, user: UserId, b: BookingId, when: Option<Time>, zone: string) returns (outcome: Outcome)
    modifies db
    ensures (db.Value(), outcome) == old(RescheduleBooking(db.Value(), user, b, when, zone))
  {
    var refusal := OwnerError(db.Value(), user, b);
    if refusal.Some? {
      return Refused(refusal.value);
    }
    var booking := db.bookings[b];
    if !Reschedulable(db.Value(), b) {
      return Refused(BookingNotReschedulable);
    }
    if zone != "" && zone != booking.zone {
      return Refused(TimezoneMismatch);
    }
    var slot := SlotOf(db.Value(), when, booking.utcOffset);
    if slot.Rejected? {
      return Refused(OutsideSchedule(slot.error));
    }
    if slot.at.None? {
      booking := booking.(requestedAt := db.now);
    }
    db.offers := map id | id in db.offers && db.offers[id].booking != b :: db.offers[id];
    booking := booking.(scheduledAt := slot.at, dispatch := Searching, updatedAt := db.now);
    db.bookings := db.bookings[b := booking];
    outcome := Done;
  }

  /** First half of a cancellation: under the lock of the booking, up to the list of open offers. */
  method BeginCancelling(db: Database, user: Option<UserId>, b: BookingId) returns (outcome: Outcome)
    modifies db
    ensures (db.Value(), outcome) == old(BeginCancel(db.Value(), user, b))
  {
    if user.Some? {
      var refusal := OwnerError(db.Value(), user.value, b);
      if refusal.Some? {
        return Refused(refusal.value);
      }
    } else if b !in db.bookings {
      return Refused(BookingNotFound);
    }
    if !db.bookings[b].status.Pending? {
      return Refused(BookingNotCancellable);
    }
    if b in db.payments && !Uncharged(db.payments[b]) {
      return Refused(CancellationRequiresSupport);
    }
    var affected := set id | id in db.offers && db.offers[id].booking == b && IsOpen(db.offers[id]);
    db.inFlight := db.inFlight.(closing := db.inFlight.closing[b := Closing(affected, db.now)]);
    outcome := Done;
  }

  /** Second half: it closes what is on the list, without asking for its status again. */
  method FinishCancelling(db: Database, b: BookingId)
    requires Locked(db.Value(), b) && b in db.Value().bookings
    modifies db
    ensures db.Value() == old(FinishCancel(db.Value(), b))
  {
    var affected, now := db.inFlight.closing[b].affected, db.inFlight.closing[b].at;
    db.offers := map id | id in db.offers ::
      if id in affected then
        db.offers[id].(status := Expired, closeReason := Some(CloseReason.BookingCancelled), respondedAt := Some(now))
      else db.offers[id];
    var booking := db.bookings[b].(status := Cancelled, cancelledAt := Some(now), updatedAt := db.now);
    db.bookings := db.bookings[b := booking];
    db.inFlight := db.inFlight.(closing := db.inFlight.closing - {b});
  }

  /** Both halves, with nothing in between. */
  method Cancel(db: Database, user: Option<UserId>, b: BookingId) returns (outcome: Outcome)
    requires !Locked(db.Value(), b)
    modifies db
    ensures (db.Value(), outcome) == old(CancelBooking(db.Value(), user, b))
  {
    hide CancelError, FinishCancel, Cancelling;
    ghost var w := db.Value();
    outcome := BeginCancelling(db, user, b);
    if outcome.Done? {
      CancelAtOnce(w, user, b);
      FinishCancelling(db, b);
    }
  }
}
