/** Opening a charge, settling it, and assigning the contractor once it has succeeded. */
module PaymentService {
  import opened Domain
  import opened Worlds
  import opened Protocol
  import opened Databases

  /** The record is opened and charged in one transaction; without an answer the provider raised. */
  method Charge(db: Database, b: BookingId, answer: Option<Answer>) returns (outcome: Outcome)
    modifies db
    ensures (db.Value(), outcome) == old(StartCharge(db.Value(), b, answer))
  {
    if b !in db.bookings {
      return Refused(BookingNotFound);
    }
    var reserving := ReservingIds(db.Value(), b);
    if reserving == {} {
      return Refused(MissingPrice);
    }
    if b in db.payments {
      if db.payments[b].status.Succeeded? {
        return Refused(PaymentAlreadyExists);
      }
      return Done;
    }
    var payment := Payment(db.offers[Latest(reserving)].total, Processing, None);
    if answer.Some? {
      payment := payment.(status := StatusAfter(answer.value));
    }
    db.payments := db.payments[b := payment];
    outcome := Done;
  }

  /** A retry, the answer to one, a confirmed action, a report of the provider, a reconciliation or a refund. */
  method Settle(db: Database, b: BookingId, e: PaymentEvent)
    modifies db
    ensures db.Value() == old(SettlePayment(db.Value(), b, e))
  {
    if b !in db.payments || !MayHappen(db.Value(), b, e) {
      return;
    }
    var payment := db.payments[b];
    var owed := Awaited(db.Value(), b);
    match e {
      case Retried(_) =>
        payment := payment.(status := Processing, amount := db.offers[Latest(ReservingIds(db.Value(), b))].total);
        owed := owed + 1;
      case RetryAnswered(answer) =>
        if answer.Some? {
          payment := payment.(status := StatusAfter(answer.value));
        }
        owed := owed - 1;
      case ActionConfirmed(result) => payment := payment.(status := StatusAfter(result));
      case ReportedSucceeded => payment := payment.(status := Succeeded);
      case ReportedFailed => payment := payment.(status := Failed);
      case Reconciled(success) =>
        payment := payment.(status := if success then Succeeded else Failed);
        if success && payment.paidAt.None? {
          payment := payment.(paidAt := Some(db.now));
        }
      case FullyRefunded => payment := payment.(status := Refunded);
    }
    db.payments := db.payments[b := payment];
    if e.Retried? || e.RetryAnswered? {
      db.inFlight := db.inFlight.(retrying := db.inFlight.retrying[b := owed]);
    }
  }

  method Confirm(db: Database, b: BookingId) returns (outcome: Outcome)
    modifies db
    ensures (db.Value(), outcome) == old(ConfirmPayment(db.Value(), b))
  {
    if b !in db.payments {
      return Refused(PaymentNotFound);
    }
    if b !in db.bookings {
      return Refused(BookingNotFound);
    }
    var payment := db.payments[b];
    var booking := db.bookings[b];
    if !booking.status.Pending? {
      return Done;
    }
    if !payment.status.Succeeded? {
      return Refused(PaymentNotSuccessful);
    }
    var reserving := ReservingIds(db.Value(), b);
    if reserving == {} {
      return Refused(OfferNoLongerReserved);
    }
    var id := Latest(reserving);
    if payment.paidAt.None? {
      payment := payment.(paidAt := Some(db.now));
    }
    db.payments := db.payments[b := payment];
    var offer := db.offers[id].(status := Accepted);
    db.offers := db.offers[id := offer];
    booking := booking.(status := Confirmed, assignee := Some(offer.contractor), computedPrice := Some(offer.total),
                        dispatch := Assigned, version := Some(offer.version), updatedAt := db.now);
    db.bookings := db.bookings[b := booking];
    outcome := Done;
  }
}
