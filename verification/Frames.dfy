/** Which parts of the database each step may write. */
module Frames {
  import opened Domain
  import opened Worlds
  import opened Candidates
  import opened Protocol
  import PricingHistory

  /** A step changes nothing but what is named here; only creation adds a booking. */
  predicate Writes(w: World, w': World, s: Step) {
    match s
    case Tick(_) => w' == w.(now := w'.now)
    case Environment(_, _) => w' == w.(users := w'.users, profiles := w'.profiles)
    case BeginSave(_, _) => w' == w.(inFlight := w.inFlight.(saving := w'.inFlight.saving))
    case EndSave(_) => w' == w.(config := w'.config, inFlight := w.inFlight.(saving := w'.inFlight.saving))
    case Issue(_) => w' == w.(quotes := w'.quotes)
    case FindQuote(_, _, _, _) => w' == w.(inFlight := w.inFlight.(looked := w'.inFlight.looked))
    case Create(_, _, _) => w' == w.(bookings := w'.bookings, inFlight := w.inFlight.(looked := w'.inFlight.looked))
    case Dispatch(_, _) => RowsWritten(w, w')
    case Accept(_, _) => w' == w.(offers := w'.offers)
    case Decline(_, _, _) => RowsWritten(w, w')
    case Expire(_, _) => w' == w.(offers := w'.offers)
    case Reschedule(_, _, _, _) => RowsWritten(w, w')
    case StartCancel(_, _) => w' == w.(inFlight := w.inFlight.(closing := w'.inFlight.closing))
    case EndCancel(_) => RowsWritten(w, w'.(inFlight := w'.inFlight.(closing := w.inFlight.closing)))
    case Charge(_, _) => w' == w.(payments := w'.payments)
    case Settle(_, _) =>
      w' == w.(payments := w'.payments, inFlight := w.inFlight.(retrying := w'.inFlight.retrying))
    case Confirm(_) => RowsWritten(w, w'.(payments := w.payments))
  }

  /** Bookings and offers, and nothing else. */
  predicate RowsWritten(w: World, w': World) {
    w' == w.(bookings := w'.bookings, offers := w'.offers, nextOffer := w'.nextOffer)
    && w'.bookings.Keys == w.bookings.Keys
  }

  lemma AttemptWrites(w: World, b: BookingId, r: Reading)
    requires b in w.bookings
    ensures RowsWritten(w, AssignNextContractor(w, b, r).0)
  {
    hide Decide;
  }

  lemma ResponsesWrite(w: World, user: UserId, id: OfferId, r: Option<Reading>)
    ensures AcceptOffer(w, user, id).0 == w.(offers := AcceptOffer(w, user, id).0.offers)
    ensures RowsWritten(w, DeclineOffer(w, user, id, r).0)
  {
    hide AssignNextContractor, IsReserved, VisitPassed;
    if DeclineOffer(w, user, id, r).0 != w && r.Some? {
      AttemptWrites(PutOffer(w, id, DeclinedOffer(w.offers[id], w.now)), w.offers[id].booking, r.value);
    }
  }

  lemma ChangesWrite(w: World, user: UserId, b: BookingId, when: Option<Time>, zone: string)
    ensures RowsWritten(w, RescheduleBooking(w, user, b, when, zone).0)
  {
    hide SlotOf, Reschedulable;
  }

  lemma CancellingWrites(w: World, actor: Option<UserId>, b: BookingId)
    ensures var w' := BeginCancel(w, actor, b).0;
            w' == w.(inFlight := w.inFlight.(closing := w'.inFlight.closing))
    ensures Locked(w, b) && b in w.bookings ==>
              RowsWritten(w, FinishCancel(w, b).(inFlight := w.inFlight))
              && FinishCancel(w, b).inFlight == w.inFlight.(closing := w.inFlight.closing - {b})
  {
    hide CancelError;
  }

  lemma ChargeWrites(w: World, b: BookingId, answer: Option<Answer>)
    ensures StartCharge(w, b, answer).0 == w.(payments := StartCharge(w, b, answer).0.payments)
  {
  }

  lemma SettleWrites(w: World, b: BookingId, e: PaymentEvent)
    ensures var w' := SettlePayment(w, b, e);
            w' == w.(payments := w'.payments, inFlight := w.inFlight.(retrying := w'.inFlight.retrying))
  {
    hide MayHappen;
  }

  lemma ConfirmWrites(w: World, b: BookingId)
    ensures RowsWritten(w, ConfirmPayment(w, b).0.(payments := w.payments))
  {
  }

  lemma CreationWrites(w: World, b: BookingId, user: UserId, q: Request)
    requires b !in w.bookings && LookedUp(w, q)
    ensures var w' := CreateBooking(w, b, user, q).0;
            w' == w.(bookings := w'.bookings, inFlight := w.inFlight.(looked := w'.inFlight.looked))
  {
    hide CreationError, NewBooking;
  }

  lemma LookUpWrites(w: World, call: nat, user: UserId, id: QuoteId, property: nat)
    requires call !in w.inFlight.looked
    ensures var w' := LookUpQuote(w, call, user, id, property).0;
            w' == w.(inFlight := w.inFlight.(looked := w'.inFlight.looked))
  {
    hide QuoteError, CustomerError;
  }

  /** Steps that write no booking and no offer. */
  predicate IsElsewhere(s: Step) {
    s.Tick? || s.Environment? || s.BeginSave? || s.EndSave? || s.Issue? || s.FindQuote?
  }

  predicate IsDispatchSide(s: Step) { s.Dispatch? || s.Accept? || s.Decline? || s.Expire? }

  predicate IsPaymentSide(s: Step) { s.Charge? || s.Settle? || s.Confirm? }

  lemma ElsewhereWrites(w: World, s: Step)
    requires IsElsewhere(s)
    ensures Writes(w, Next(w, s), s)
  {
    hide LookUpQuote, PricingHistory.Stored, EnvironmentMay, MayIssue;
    match s
    case FindQuote(call, user, id, property) =>
      if call !in w.inFlight.looked { LookUpWrites(w, call, user, id, property); }
    case Tick(_) =>
    case Environment(_, _) =>
    case BeginSave(_, _) =>
    case EndSave(_) =>
    case Issue(_) =>
  }

  lemma DispatchSideWrites(w: World, s: Step)
    requires IsDispatchSide(s)
    ensures Writes(w, Next(w, s), s)
  {
    hide AssignNextContractor, AcceptOffer, DeclineOffer;
    match s
    case Dispatch(b, r) => if b in w.bookings { AttemptWrites(w, b, r); }
    case Accept(user, id) => ResponsesWrite(w, user, id, None);
    case Decline(user, id, r) => ResponsesWrite(w, user, id, r);
    case Expire(_, _) =>
  }

  lemma PaymentSideWrites(w: World, s: Step)
    requires IsPaymentSide(s)
    ensures Writes(w, Next(w, s), s)
  {
    hide StartCharge, SettlePayment, ConfirmPayment;
    match s
    case Charge(b, answer) => ChargeWrites(w, b, answer);
    case Settle(b, e) => SettleWrites(w, b, e);
    case Confirm(b) => ConfirmWrites(w, b);
  }

  lemma CustomerSideWrites(w: World, s: Step)
    requires s.Create? || s.Reschedule? || s.StartCancel? || s.EndCancel?
    ensures Writes(w, Next(w, s), s)
  {
    hide CreateBooking, RescheduleBooking, BeginCancel, FinishCancel, LookedUp;
    match s
    case Create(b, user, q) => if b !in w.bookings && LookedUp(w, q) { CreationWrites(w, b, user, q); }
    case Reschedule(user, b, when, zone) => ChangesWrite(w, user, b, when, zone);
    case StartCancel(actor, b) => CancellingWrites(w, actor, b);
    case EndCancel(b) => CancellingWrites(w, None, b);
  }

  lemma StepWrites(w: World, s: Step)
    ensures Writes(w, Next(w, s), s)
  {
    hide Next, Writes;
    if IsElsewhere(s) {
      ElsewhereWrites(w, s);
    } else if IsDispatchSide(s) {
      DispatchSideWrites(w, s);
    } else if IsPaymentSide(s) {
      PaymentSideWrites(w, s);
    } else {
      CustomerSideWrites(w, s);
    }
  }
}
