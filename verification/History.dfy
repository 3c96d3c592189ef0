/** What can and cannot change between two moments of a run. */
module History {
  import opened Domain
  import opened Worlds
  import opened Candidates
  import opened Frames
  import opened Protocol
  import opened Safety

  // ---- How rows evolve -------------------------------------------------------

  predicate SameTerms(o: Offer, o': Offer) {
    && o'.booking == o.booking && o'.contractor == o.contractor && o'.round == o.round
    && o'.distance == o.distance && o'.source == o.source
    && o'.servicesTotal == o.servicesTotal && o'.travelFee == o.travelFee
    && o'.total == o.total && o'.earnings == o.earnings && o'.version == o.version
    && o'.offeredAt == o.offeredAt && o'.expiresAt == o.expiresAt
  }

  /** A timed-out offer is closed a second time, by the cancellation that had read it as open. */
  predicate Rewritten(o: Offer, o': Offer) {
    && o.status.Expired? && o.closeReason == Some(TimedOut)
    && o' == o.(closeReason := Some(CloseReason.BookingCancelled), respondedAt := o'.respondedAt)
  }

  /** The frozen terms never change, and nothing reopens; a closed row stays as it is unless it is rewritten. */
  predicate OfferEvolves(o: Offer, o': Offer) {
    && SameTerms(o, o')
    && match o.status
       case Pending => true
       case AcceptedPendingPayment =>
         o' == o || o' == o.(status := Accepted)
         || (o'.status.Expired? && o'.closeReason == Some(CloseReason.BookingCancelled))
       case _ => o' == o || Rewritten(o, o')
  }

  /** The agreement with the customer never changes; a confirmed or cancelled booking stays so. */
  predicate BookingEvolves(k: Booking, k': Booking) {
    && k'.customer == k.customer && k'.property == k.property
    && k'.maxTotal == k.maxTotal && k'.quote == k.quote && k'.round == k.round
    && (k.status.Cancelled? ==> k' == k)
    && (k.status.Confirmed? ==> k' == k)
  }

  /** Issued quotes stay as they are. */
  ghost predicate QuotesKept(w: World, w': World) {
    forall id :: id in w.quotes ==> id in w'.quotes && w'.quotes[id] == w.quotes[id]
  }

  /** A known id names the same offer for ever, a deleted row does not come back, and only a cancellation rewrites one. */
  ghost predicate OffersEvolve(w: World, w': World) {
    && w.nextOffer <= w'.nextOffer
    && forall id :: id in w'.offers && id < w.nextOffer ==>
                      && id in w.offers && OfferEvolves(w.offers[id], w'.offers[id])
                      && (Rewritten(w.offers[id], w'.offers[id]) ==> IsCancelled(w', w.offers[id].booking))
  }

  ghost predicate BookingsEvolve(w: World, w': World) {
    && w.bookings.Keys <= w'.bookings.Keys
    && forall b :: b in w.bookings ==> BookingEvolves(w.bookings[b], w'.bookings[b])
  }

  predicate IsCancelled(w: World, b: BookingId) { b in w.bookings && w.bookings[b].status.Cancelled? }

  /** A cancelled booking keeps exactly the offers it had. */
  ghost predicate CancelledFrozen(w: World, w': World) {
    && (forall id :: id in w.offers && IsCancelled(w, w.offers[id].booking) ==>
                       id in w'.offers && w'.offers[id] == w.offers[id])
    && (forall id :: id in w'.offers && IsCancelled(w, w'.offers[id].booking) ==>
                       id in w.offers && w'.offers[id] == w.offers[id])
  }

  /** The amount is fixed, and the moment of payment is written once. */
  predicate PaymentEvolves(p: Payment, p': Payment) {
    p'.amount == p.amount && (p.paidAt.Some? ==> p'.paidAt == p.paidAt)
  }

  ghost predicate PaymentsEvolve(w: World, w': World) {
    forall b :: b in w.payments ==> b in w'.payments && PaymentEvolves(w.payments[b], w'.payments[b])
  }

  /** What every step and every run keeps between its two ends. */
  ghost predicate Evolves(w: World, w': World) {
    && w.now <= w'.now
    && w.users.Keys <= w'.users.Keys
    && QuotesKept(w, w')
    && OffersEvolve(w, w')
    && BookingsEvolve(w, w')
    && CancelledFrozen(w, w')
    && PaymentsEvolve(w, w')
  }

  lemma OffersEvolveOn(w0: World, w1: World, w2: World, id: OfferId)
    requires Evolves(w0, w1) && Evolves(w1, w2) && id in w2.offers && id < w0.nextOffer
    ensures id in w0.offers && OfferEvolves(w0.offers[id], w2.offers[id])
    ensures Rewritten(w0.offers[id], w2.offers[id]) ==> IsCancelled(w2, w0.offers[id].booking)
  {
    hide CancelledFrozen, QuotesKept, PaymentsEvolve;
    assert id in w1.offers && OfferEvolves(w0.offers[id], w1.offers[id]) && OfferEvolves(w1.offers[id], w2.offers[id]);
    assert forall b :: IsCancelled(w1, b) ==> IsCancelled(w2, b);
  }

  lemma BookingsEvolveTransitive(w0: World, w1: World, w2: World)
    requires Evolves(w0, w1) && Evolves(w1, w2)
    ensures BookingsEvolve(w0, w2) && CancelledFrozen(w0, w2)
  {
    hide OffersEvolve, QuotesKept, PaymentsEvolve;
    forall b | b in w0.bookings ensures BookingEvolves(w0.bookings[b], w2.bookings[b]) {
      assert BookingEvolves(w0.bookings[b], w1.bookings[b]);
    }
    assert forall b :: IsCancelled(w0, b) ==> IsCancelled(w1, b);
  }

  lemma EvolvesTransitive(w0: World, w1: World, w2: World)
    requires Evolves(w0, w1) && Evolves(w1, w2)
    ensures Evolves(w0, w2)
  {
    BookingsEvolveTransitive(w0, w1, w2);
    forall id | id in w2.offers && id < w0.nextOffer
      ensures id in w0.offers && OfferEvolves(w0.offers[id], w2.offers[id])
      ensures Rewritten(w0.offers[id], w2.offers[id]) ==> IsCancelled(w2, w0.offers[id].booking)
    {
      OffersEvolveOn(w0, w1, w2, id);
    }
    hide OfferEvolves, Rewritten, BookingsEvolve, CancelledFrozen;
  }

  // ---- Each step -------------------------------------------------------------

  /** Nothing but the clock, accounts, profiles and prices moved. */
  lemma QuietStepEvolves(w: World, w': World)
    requires KeysOk(w)
    requires w'.offers == w.offers && w'.bookings == w.bookings && w'.payments == w.payments
    requires w'.now >= w.now && w'.nextOffer == w.nextOffer
    requires w.users.Keys <= w'.users.Keys && QuotesKept(w, w')
    ensures Evolves(w, w')
  {
  }

  /** One offer row is written, and perhaps the row of its booking, which was still pending. */
  lemma WriteEvolves(w: World, id: OfferId, o: Offer, booking: Booking, next: OfferId)
    requires KeysOk(w) && o.booking in w.bookings && w.nextOffer <= next
    requires if id in w.offers then OfferEvolves(w.offers[id], o) && !Rewritten(w.offers[id], o) else id == w.nextOffer
    requires w.bookings[o.booking].status.Cancelled? ==> id in w.offers && o == w.offers[id]
    requires BookingEvolves(w.bookings[o.booking], booking)
    ensures Evolves(w, PutBooking(PutOffer(w, id, o), o.booking, booking).(nextOffer := next))
  {
  }

  lemma BookingRowEvolves(w: World, b: BookingId, booking: Booking)
    requires KeysOk(w) && b in w.bookings && BookingEvolves(w.bookings[b], booking)
    ensures Evolves(w, PutBooking(w, b, booking))
  {
  }

  lemma AssignEvolves(w: World, b: BookingId, r: Reading)
    requires KeysOk(w) && b in w.bookings
    ensures Evolves(w, AssignNextContractor(w, b, r).0)
  {
    var w' := AssignNextContractor(w, b, r).0;
    match Decide(w, b, r)
    case Skipped => QuietStepEvolves(w, w);
    case CeilingBreached => QuietStepEvolves(w, w);
    case NobodyLeft => BookingRowEvolves(w, b, w'.bookings[b]);
    case Offering(o) => WriteEvolves(w, w.nextOffer, o, w'.bookings[b], w.nextOffer + 1);
  }

  lemma PutOfferEvolves(w: World, id: OfferId, o: Offer)
    requires KeysOk(w) && id in w.offers && OfferEvolves(w.offers[id], o) && !Rewritten(w.offers[id], o)
    requires w.bookings[o.booking].status.Cancelled? ==> o == w.offers[id]
    ensures Evolves(w, PutOffer(w, id, o))
  {
    WriteEvolves(w, id, o, w.bookings[o.booking], w.nextOffer);
    assert PutOffer(w, id, o)
        == PutBooking(PutOffer(w, id, o), o.booking, w.bookings[o.booking]).(nextOffer := w.nextOffer);
  }

  lemma ExpireEvolves(w: World, id: OfferId, at: Time)
    requires Inv(w)
    ensures Evolves(w, ExpireIfPending(w, id, at))
  {
    if id in w.offers && w.offers[id].status.Pending? {
      var f := FolderOf(w, w.offers[id].booking);
      assert f.offers[id] == w.offers[id] && OfferOk(w.now, f.booking, f.offers[id]);
      PutOfferEvolves(w, id, TimedOutOffer(w.offers[id], at));
    }
  }

  lemma AcceptEvolves(w: World, user: UserId, id: OfferId)
    requires Inv(w)
    ensures Evolves(w, AcceptOffer(w, user, id).0)
  {
    var w' := AcceptOffer(w, user, id).0;
    if w' != w {
      PutOfferEvolves(w, id, w'.offers[id]);
    }
  }

  lemma DeclineEvolves(w: World, user: UserId, id: OfferId, r: Option<Reading>)
    requires Inv(w)
    ensures Evolves(w, DeclineOffer(w, user, id, r).0)
  {
    hide AssignNextContractor, Evolves, Consistent;
    QuietStepEvolves(w, w);
    var w' := DeclineOffer(w, user, id, r).0;
    if w' != w {
      var o := DeclinedOffer(w.offers[id], w.now);
      PutOfferEvolves(w, id, o);
      if w' != PutOffer(w, id, o) {
        CloseKeepsInv(w, id, o);
        AssignEvolves(PutOffer(w, id, o), o.booking, r.value);
        EvolvesTransitive(w, PutOffer(w, id, o), w');
      }
    }
  }

  lemma DroppingEvolves(w: World, b: BookingId, booking: Booking)
    requires KeysOk(w) && b in w.bookings && w.bookings[b].status.Pending? && BookingEvolves(w.bookings[b], booking)
    ensures Evolves(w, PutBooking(w.(offers := DropOffersOf(w, b)), b, booking))
  {
    var w' := PutBooking(w.(offers := DropOffersOf(w, b)), b, booking);
    assert CancelledFrozen(w, w');
  }

  lemma RescheduleEvolves(w: World, user: UserId, b: BookingId, when: Option<Time>, zone: string)
    requires Inv(w)
    ensures Evolves(w, RescheduleBooking(w, user, b, when, zone).0)
  {
    if RescheduleBooking(w, user, b, when, zone).1.Done? {
      DroppingEvolves(w, b, RescheduleBooking(w, user, b, when, zone).0.bookings[b]);
    } else {
      QuietStepEvolves(w, w);
    }
  }

  lemma CreateEvolves(w: World, mid: World, b: BookingId, booking: Booking)
    requires KeysOk(w) && b !in w.bookings && mid == w.(inFlight := mid.inFlight)
    ensures Evolves(w, PutBooking(mid, b, booking))
  {
    assert CancelledFrozen(w, PutBooking(mid, b, booking));
  }

  lemma PaymentRowEvolves(w: World, w': World, b: BookingId)
    requires KeysOk(w) && b in w'.payments
    requires w' == w.(payments := w.payments[b := w'.payments[b]], inFlight := w'.inFlight)
    requires b in w.payments ==> PaymentEvolves(w.payments[b], w'.payments[b])
    ensures Evolves(w, w')
  {
  }

  /** An offer on the list of a cancellation is its booking's, and open or timed out since. */
  lemma OnTheList(w: World, b: BookingId, id: OfferId)
    requires Locked(w, b) && ClosingOk(w, b) && id in w.inFlight.closing[b].affected
    ensures id in w.offers && w.offers[id].booking == b
    ensures IsOpen(w.offers[id]) || w.offers[id].closeReason == Some(TimedOut)
  {
    assert id in OffersOf(w, b) && OffersOf(w, b)[id] == w.offers[id];
  }

  lemma ClosedEvolves(o: Offer, at: Time)
    requires ReasonMatches(o) && (IsOpen(o) || o.closeReason == Some(TimedOut))
    ensures OfferEvolves(o, ClosedByCancellation(o, at))
  {
  }

  lemma FinishedOffer(w: World, b: BookingId, id: OfferId)
    requires Locked(w, b) && b in w.bookings && id in w.offers
    ensures id in FinishCancel(w, b).offers
    ensures FinishCancel(w, b).offers[id] ==
            if id in w.inFlight.closing[b].affected then ClosedByCancellation(w.offers[id], w.inFlight.closing[b].at)
            else w.offers[id]
  {
  }

  /** What finishing a cancellation does to one offer. */
  lemma FinishEvolvesOffer(w: World, b: BookingId, id: OfferId)
    requires Inv(w) && Locked(w, b) && b in w.bookings && ClosingOk(w, b) && id in w.offers
    ensures id in FinishCancel(w, b).offers
    ensures OfferEvolves(w.offers[id], FinishCancel(w, b).offers[id])
    ensures FinishCancel(w, b).offers[id] != w.offers[id] ==> w.offers[id].booking == b
  {
    hide Inv, ClosingOk, FinishCancel, OfferEvolves;
    OfferIsOk(w, id);
    FinishedOffer(w, b, id);
    if id in w.inFlight.closing[b].affected {
      OnTheList(w, b, id);
      ClosedEvolves(w.offers[id], w.inFlight.closing[b].at);
    } else {
      Same(w.offers[id]);
    }
  }

  lemma Same(o: Offer)
    ensures OfferEvolves(o, o)
  {
  }

  lemma FinishFreezes(w: World, b: BookingId)
    requires KeysOk(w) && Locked(w, b) && b in w.bookings && w.bookings[b].status.Pending? && ClosingOk(w, b)
    ensures CancelledFrozen(w, FinishCancel(w, b)) && BookingsEvolve(w, FinishCancel(w, b))
  {
    var w' := FinishCancel(w, b);
    forall id | id in w.offers && IsCancelled(w, w.offers[id].booking) ensures w'.offers[id] == w.offers[id] {
      if id in w.inFlight.closing[b].affected {
        OnTheList(w, b, id);
      }
    }
  }

  lemma FinishOffersEvolve(w: World, b: BookingId)
    requires Inv(w) && Locked(w, b) && b in w.bookings && ClosingOk(w, b)
    ensures OffersEvolve(w, FinishCancel(w, b))
  {
    var w' := FinishCancel(w, b);
    assert IsCancelled(w', b);
    forall id | id in w.offers
      ensures OfferEvolves(w.offers[id], w'.offers[id])
      ensures Rewritten(w.offers[id], w'.offers[id]) ==> w.offers[id].booking == b
    {
      FinishEvolvesOffer(w, b, id);
    }
    hide Inv, OfferEvolves, ClosingOk, Rewritten;
  }

  lemma FinishEvolves(w: World, b: BookingId)
    requires Inv(w) && Locked(w, b) && ClosingOk(w, b)
    ensures Evolves(w, FinishCancel(w, b))
  {
    assert KeysOk(w) && b in w.bookings && w.bookings[b].status.Pending?;
    hide Inv, ClosingOk, OffersEvolve, BookingsEvolve, CancelledFrozen;
    FinishFreezes(w, b);
    FinishOffersEvolve(w, b);
  }

  /** The offer a confirmation settles on is still awaiting its payment. */
  lemma AwaitingIsReserving(w: World, b: BookingId, id: OfferId)
    requires Inv(w) && b in w.bookings && w.bookings[b].status.Pending? && id in ReservingIds(w, b)
    ensures w.offers[id].status.AcceptedPendingPayment?
  {
    assert FolderOf(w, b).offers[id] == w.offers[id] && OfferOk(w.now, w.bookings[b], w.offers[id]);
  }

  lemma AcceptingEvolves(w: World, b: BookingId, id: OfferId, booking: Booking, payment: Payment)
    requires KeysOk(w) && id in w.offers && w.offers[id].status.AcceptedPendingPayment?
    requires w.offers[id].booking == b && b in w.bookings && BookingEvolves(w.bookings[b], booking)
    requires !w.bookings[b].status.Cancelled? && b in w.payments && PaymentEvolves(w.payments[b], payment)
    ensures Evolves(w, PutBooking(PutOffer(w, id, w.offers[id].(status := Accepted)), b, booking)
                         .(payments := w.payments[b := payment]))
  {
    var o := w.offers[id].(status := Accepted);
    var written := PutBooking(PutOffer(w, id, o), b, booking);
    assert written == written.(nextOffer := w.nextOffer);
    WriteEvolves(w, id, o, booking, w.nextOffer);
    hide Evolves, BookingEvolves, PaymentEvolves;
    PaymentRowEvolves(written, written.(payments := w.payments[b := payment]), b);
    EvolvesTransitive(w, written, written.(payments := w.payments[b := payment]));
  }

  lemma ConfirmEvolves(w: World, b: BookingId)
    requires Inv(w)
    ensures Evolves(w, ConfirmPayment(w, b).0)
  {
    var w' := ConfirmPayment(w, b).0;
    if w' == w {
      QuietStepEvolves(w, w);
    } else {
      var id := Latest(ReservingIds(w, b));
      AwaitingIsReserving(w, b, id);
      AcceptingEvolves(w, b, id, w'.bookings[b], w'.payments[b]);
    }
  }

  lemma CreateStepEvolves(w: World, b: BookingId, user: UserId, q: Request)
    requires KeysOk(w) && b !in w.bookings && LookedUp(w, q)
    ensures Evolves(w, CreateBooking(w, b, user, q).0)
  {
    hide CreationError, Evolves;
    if CreateBooking(w, b, user, q).1.Done? {
      CreateEvolves(w, EndCall(w, q), b, CreateBooking(w, b, user, q).0.bookings[b]);
    } else {
      QuietStepEvolves(w, EndCall(w, q));
    }
  }

  lemma ChargeEvolves(w: World, b: BookingId, answer: Option<Answer>)
    requires KeysOk(w)
    ensures Evolves(w, StartCharge(w, b, answer).0)
  {
    hide Evolves;
    if StartCharge(w, b, answer).0 == w {
      QuietStepEvolves(w, w);
    } else {
      PaymentRowEvolves(w, StartCharge(w, b, answer).0, b);
    }
  }

  /** A retry writes the total of the reserving offer, which is the amount already there. */
  lemma RetriedAmount(w: World, b: BookingId)
    requires Inv(w) && b in w.payments && ReservingIds(w, b) != {}
    ensures w.offers[Latest(ReservingIds(w, b))].total == w.payments[b].amount
  {
    var f := FolderOf(w, b);
    var id := Latest(ReservingIds(w, b));
    assert Consistent(w.now, f) && f.offers[id] == w.offers[id] && f.payment.Some?;
    OfferIsOk(w, id);
    assert ReservedAt(f.offers, w.payments[b].amount);
    var j :| j in f.offers && f.offers[j].IsReserved() && f.offers[j].total == w.payments[b].amount;
    assert f.offers[j].Engages(w.now) && f.offers[id].Engages(w.now);
  }

  lemma SettledEvolves(w: World, b: BookingId, e: PaymentEvent)
    requires b in w.payments
    requires ReservingIds(w, b) != {} ==> w.offers[Latest(ReservingIds(w, b))].total == w.payments[b].amount
    ensures var w' := SettlePayment(w, b, e);
            && b in w'.payments && PaymentEvolves(w.payments[b], w'.payments[b])
            && w'.payments == w.payments[b := w'.payments[b]]
  {
  }

  lemma SettleEvolves(w: World, b: BookingId, e: PaymentEvent)
    requires Inv(w)
    ensures Evolves(w, SettlePayment(w, b, e))
  {
    assert KeysOk(w);
    SettleWrites(w, b, e);
    if b in w.payments {
      if ReservingIds(w, b) != {} { RetriedAmount(w, b); }
      hide Inv, Evolves, SettlePayment, PaymentEvolves, KeysOk, ReservingIds;
      SettledEvolves(w, b, e);
      PaymentRowEvolves(w, SettlePayment(w, b, e), b);
    } else {
      hide Inv, Evolves;
      NothingEvolves(w);
    }
  }

  lemma NothingEvolves(w: World)
    requires KeysOk(w)
    ensures Evolves(w, w)
  {
    hide Evolves;
    QuietStepEvolves(w, w);
  }

  lemma EditsEvolve(w: World, s: Step)
    requires KeysOk(w) && (s.Tick? || s.Environment? || s.Issue?)
    ensures Evolves(w, Next(w, s))
  {
    ElsewhereWrites(w, s);
    var w' := Next(w, s);
    assert w.now <= w'.now && w.users.Keys <= w'.users.Keys && QuotesKept(w, w') by {
      hide Writes;
    }
    hide Next, Evolves, KeysOk, QuotesKept;
    QuietStepEvolves(w, w');
  }

  lemma SurroundingsEvolve(w: World, s: Step)
    requires KeysOk(w) && (IsElsewhere(s) || s.StartCancel?)
    ensures Evolves(w, Next(w, s))
  {
    hide Next, Evolves, KeysOk;
    if s.Tick? || s.Environment? || s.Issue? {
      EditsEvolve(w, s);
    } else {
      StepWrites(w, s);
      QuietStepEvolves(w, Next(w, s));
    }
  }

  lemma DispatchSideEvolves(w: World, s: Step)
    requires Inv(w) && IsDispatchSide(s)
    ensures Evolves(w, Next(w, s))
  {
    assert KeysOk(w);
    hide AssignNextContractor, AcceptOffer, DeclineOffer, ExpireIfPending, Evolves, Inv, KeysOk;
    NothingEvolves(w);
    match s
    case Dispatch(b, r) => if b in w.bookings { AssignEvolves(w, b, r); }
    case Accept(user, id) => AcceptEvolves(w, user, id);
    case Decline(user, id, r) => DeclineEvolves(w, user, id, r);
    case Expire(id, snapshot) => ExpireEvolves(w, id, snapshot);
  }

  lemma PaymentSideEvolves(w: World, s: Step)
    requires Inv(w) && IsPaymentSide(s)
    ensures Evolves(w, Next(w, s))
  {
    assert KeysOk(w);
    hide StartCharge, SettlePayment, ConfirmPayment, Evolves, Inv, KeysOk;
    NothingEvolves(w);
    match s
    case Charge(b, answer) => ChargeEvolves(w, b, answer);
    case Settle(b, e) => SettleEvolves(w, b, e);
    case Confirm(b) => ConfirmEvolves(w, b);
  }

  lemma EndEvolves(w: World, b: BookingId)
    requires Safe(w)
    ensures Evolves(w, Next(w, EndCancel(b)))
  {
    assert KeysOk(w) && forall k :: Locked(w, k) ==> ClosingOk(w, k);
    hide FinishCancel, Evolves, ClosingOk, KeysOk, Inv, Safe;
    NothingEvolves(w);
    if Locked(w, b) { FinishEvolves(w, b); }
  }

  lemma CustomerSideEvolves(w: World, s: Step)
    requires Safe(w) && (s.Create? || s.Reschedule? || s.EndCancel?)
    ensures Evolves(w, Next(w, s))
  {
    assert Inv(w) && KeysOk(w);
    hide RescheduleBooking, CreateBooking, Evolves, KeysOk, Inv, Safe, LookedUp;
    NothingEvolves(w);
    match s
    case Create(b, user, q) => if b !in w.bookings && LookedUp(w, q) { CreateStepEvolves(w, b, user, q); }
    case Reschedule(user, b, when, zone) => RescheduleEvolves(w, user, b, when, zone);
    case EndCancel(b) => hide Next; EndEvolves(w, b);
  }

  lemma NextEvolves(w: World, s: Step)
    requires Safe(w)
    ensures Evolves(w, Next(w, s))
  {
    assert KeysOk(w);
    hide Next, Evolves, Inv, KeysOk;
    if IsDispatchSide(s) {
      DispatchSideEvolves(w, s);
    } else if IsPaymentSide(s) {
      PaymentSideEvolves(w, s);
    } else if s.Create? || s.Reschedule? || s.EndCancel? {
      CustomerSideEvolves(w, s);
    } else {
      SurroundingsEvolve(w, s);
    }
  }

  lemma {:induction false} RunEvolves(w: World, steps: seq<Step>)
    requires Safe(w)
    ensures Safe(Run(w, steps)) && Evolves(w, Run(w, steps))
  {
    if steps == [] {
      QuietStepEvolves(w, w);
    } else {
      var before := steps[..|steps| - 1];
      RunEvolves(w, before);
      NextKeepsInv(Run(w, before), steps[|steps| - 1]);
      NextEvolves(Run(w, before), steps[|steps| - 1]);
      EvolvesTransitive(w, Run(w, before), Run(w, steps));
    }
  }

  lemma {:induction false} RunConcat(w: World, first: seq<Step>, second: seq<Step>)
    ensures Run(w, first + second) == Run(Run(w, first), second)
  {
    if second == [] {
      assert first + second == first;
    } else {
      var n := |second| - 1;
      RunConcat(w, first, second[..n]);
      assert (first + second)[..|first + second| - 1] == first + second[..n];
    }
  }

  // ---- Whole runs ------------------------------------------------------------

  /** The database after a run from nothing. */
  ghost function Reached(now: Time, settings: Settings, config: Config, steps: seq<Step>): World {
    Run(Start(now, settings, config), steps)
  }

  /** In every reachable database at most one offer of a booking is answerable or holds it. */
  lemma OneOfferAtATime(now: Time, settings: Settings, config: Config, steps: seq<Step>, i: OfferId, j: OfferId)
    requires var w := Reached(now, settings, config, steps);
             && i in w.offers && j in w.offers && w.offers[i].booking == w.offers[j].booking
             && w.offers[i].Engages(w.now) && w.offers[j].Engages(w.now)
    ensures i == j
  {
    var w := Reached(now, settings, config, steps);
    ReachedIsSafe(now, settings, config, steps);
    var b := w.offers[i].booking;
    assert Consistent(w.now, FolderOf(w, b));
    assert OffersOf(w, b)[i] == w.offers[i] && OffersOf(w, b)[j] == w.offers[j];
  }

  lemma CancelledKeepsOffers(w: World, w': World, b: BookingId)
    requires Evolves(w, w') && IsCancelled(w, b)
    ensures OffersOf(w', b) == OffersOf(w, b)
  {
    assert forall id :: id in OffersOf(w, b) ==> IsCancelled(w, w.offers[id].booking);
  }

  /** Cancellation is final: no later step changes the booking, adds an offer, or reopens one. */
  lemma CancellationIsFinal(w: World, steps: seq<Step>, b: BookingId)
    requires Safe(w) && b in w.bookings && w.bookings[b].status.Cancelled?
    ensures var w' := Run(w, steps);
            && b in w'.bookings && w'.bookings[b] == w.bookings[b] && OffersOf(w', b) == OffersOf(w, b)
            && forall id :: id in OffersOf(w', b) ==> !IsOpen(w'.offers[id]) && !w'.offers[id].IsReserved()
  {
    RunEvolves(w, steps);
    CancelledKeepsOffers(w, Run(w, steps), b);
    assert OffersOk(w.now, w.bookings[b], FolderOf(w, b).offers);
    assert BookingEvolves(w.bookings[b], Run(w, steps).bookings[b]);
  }

  /** How often a run moves the offer out of PENDING. */
  ghost function Departures(w: World, steps: seq<Step>, id: OfferId): nat {
    if steps == [] then 0
    else
      var before := Run(w, steps[..|steps| - 1]);
      var after := Run(w, steps);
      Departures(w, steps[..|steps| - 1], id)
      + if IsPending(before, id) && id in after.offers && !IsPending(after, id) then 1 else 0
  }

  /** An offer known not to be pending is never pending again. */
  lemma NeverPendingAgain(w: World, w': World, id: OfferId)
    requires Evolves(w, w') && id < w.nextOffer && !IsPending(w, id)
    ensures id < w'.nextOffer && !IsPending(w', id)
  {
  }

  /** An offer leaves PENDING at most once, whatever workers, contractors and customers do, in any order. */
  lemma {:induction false} LeavesPendingOnce(w: World, steps: seq<Step>, id: OfferId)
    requires Safe(w)
    ensures Departures(w, steps, id) <= 1
    ensures Departures(w, steps, id) == 1 ==> id < Run(w, steps).nextOffer && !IsPending(Run(w, steps), id)
  {
    if steps != [] {
      var before := Run(w, steps[..|steps| - 1]);
      LeavesPendingOnce(w, steps[..|steps| - 1], id);
      RunEvolves(w, steps[..|steps| - 1]);
      NextEvolves(before, steps[|steps| - 1]);
      NextKeepsInv(before, steps[|steps| - 1]);
      if Departures(w, steps[..|steps| - 1], id) == 1 {
        NeverPendingAgain(before, Run(w, steps), id);
      }
    }
  }

  /** The sweep never touches an accepted offer, and what it closes it closes as timed out. */
  lemma ExpiryTouchesOnlyPending(w: World, id: OfferId, at: Time, other: OfferId)
    requires other in w.offers
    ensures var w' := ExpireIfPending(w, id, at);
            && other in w'.offers
            && (!w.offers[other].status.Pending? || other != id ==> w'.offers[other] == w.offers[other])
            && (w'.offers[other] != w.offers[other] ==>
                  w'.offers[other].status.Expired? && w'.offers[other].closeReason == Some(TimedOut)
                  && w'.offers[other].respondedAt == Some(at) && SameTerms(w.offers[other], w'.offers[other]))
    ensures ExpireIfPending(ExpireIfPending(w, id, at), id, at) == ExpireIfPending(w, id, at)
  {
  }

  // ---- The cascade terminates ------------------------------------------------

  /** Every offer is addressed to a listed profile. */
  ghost predicate ContractorsListed(w: World) {
    forall id :: id in w.offers ==> HasProfile(w, w.offers[id].contractor)
  }

  lemma NewOfferIsListed(w: World, b: BookingId, r: Reading)
    requires b in w.bookings && ContractorsListed(w)
    ensures ContractorsListed(AssignNextContractor(w, b, r).0)
  {
    if Decide(w, b, r).Offering? {
      ChosenIsAdmissible(w, b, r);
    }
  }

  lemma EnvironmentKeepsListed(w: World, users: map<UserId, User>, profiles: seq<Profile>, user: UserId)
    requires EnvironmentMay(w, users, profiles) && HasProfile(w, user)
    ensures exists i :: 0 <= i < |profiles| && profiles[i].user == user
  {
    var i :| 0 <= i < |w.profiles| && w.profiles[i].user == user;
    assert w.profiles[i] in w.profiles;
    var q :| q in profiles && q.user == user;
  }

  lemma SameIds(w: World, s: Step)
    requires !s.Dispatch? && !s.Decline? && !s.Reschedule?
    ensures Next(w, s).offers.Keys == w.offers.Keys
  {
    match s
    case Accept(_, _) => hide VisitPassed, IsReserved;
    case Expire(_, _) =>
    case EndCancel(_) =>
    case Confirm(_) =>
    case _ => hide Next; StepWrites(w, s);
  }

  /** Only a dispatch attempt and the cascade of a refusal create offers. */
  lemma NothingAdded(w: World, s: Step)
    requires !s.Environment? && !s.Dispatch? && !s.Decline?
    ensures Next(w, s).profiles == w.profiles && Next(w, s).offers.Keys <= w.offers.Keys
  {
    StepWrites(w, s);
    if s.Reschedule? {
      hide OwnerError, SlotOf, Reschedulable;
    } else {
      hide Next;
      SameIds(w, s);
    }
  }

  lemma ListedByEvolution(w: World, w': World)
    requires KeysOk(w) && Evolves(w, w') && ContractorsListed(w)
    requires w'.profiles == w.profiles && w'.offers.Keys <= w.offers.Keys
    ensures ContractorsListed(w')
  {
    forall id | id in w'.offers ensures HasProfile(w', w'.offers[id].contractor) {
      assert OfferEvolves(w.offers[id], w'.offers[id]) && HasProfile(w, w.offers[id].contractor);
    }
  }

  lemma EditKeepsListed(w: World, users: map<UserId, User>, profiles: seq<Profile>)
    requires EnvironmentMay(w, users, profiles) && ContractorsListed(w)
    ensures ContractorsListed(w.(users := users, profiles := profiles))
  {
    var w' := w.(users := users, profiles := profiles);
    forall id | id in w'.offers ensures HasProfile(w', w'.offers[id].contractor) {
      EnvironmentKeepsListed(w, users, profiles, w.offers[id].contractor);
    }
  }

  lemma RefusalKeepsListed(w: World, user: UserId, id: OfferId, r: Option<Reading>)
    requires ContractorsListed(w)
    ensures ContractorsListed(DeclineOffer(w, user, id, r).0)
  {
    hide AssignNextContractor;
    var w' := DeclineOffer(w, user, id, r).0;
    if w' != w {
      var declined := PutOffer(w, id, DeclinedOffer(w.offers[id], w.now));
      assert ContractorsListed(declined);
      if w' != declined { NewOfferIsListed(declined, w.offers[id].booking, r.value); }
    }
  }

  lemma NextKeepsListed(w: World, s: Step)
    requires Safe(w) && ContractorsListed(w)
    ensures ContractorsListed(Next(w, s))
  {
    assert KeysOk(w);
    hide AssignNextContractor, DeclineOffer, ContractorsListed, Safe, Evolves;
    match s
    case Environment(users, profiles) =>
      if EnvironmentMay(w, users, profiles) { EditKeepsListed(w, users, profiles); }
    case Dispatch(b, r) => if b in w.bookings { NewOfferIsListed(w, b, r); }
    case Decline(user, id, r) => RefusalKeepsListed(w, user, id, r);
    case _ =>
      hide Next, KeysOk;
      NextEvolves(w, s);
      NothingAdded(w, s);
      ListedByEvolution(w, Next(w, s));
  }

  /** Every database a run reaches from nothing is consistent, and addresses its offers to listed contractors. */
  lemma {:induction false} ReachedIsSafe(now: Time, settings: Settings, config: Config, steps: seq<Step>)
    ensures Safe(Reached(now, settings, config, steps)) && ContractorsListed(Reached(now, settings, config, steps))
  {
    StartIsSafe(now, settings, config);
    if steps != [] {
      var n := |steps| - 1;
      hide Safe, Next, ContractorsListed, Start;
      ReachedIsSafe(now, settings, config, steps[..n]);
      NextKeepsInv(Reached(now, settings, config, steps[..n]), steps[n]);
      NextKeepsListed(Reached(now, settings, config, steps[..n]), steps[n]);
    }
  }

  predicate Reschedules(s: Step, b: BookingId) { s.Reschedule? && s.b == b }

  lemma AssignLosesNothing(w: World, b: BookingId, r: Reading)
    requires b in w.bookings
    ensures w.offers.Keys <= AssignNextContractor(w, b, r).0.offers.Keys
  {
  }

  /** Only rescheduling deletes offers, and only those of its booking. */
  lemma NoOfferLost(w: World, s: Step, b: BookingId, id: OfferId)
    requires !Reschedules(s, b) && id in w.offers && w.offers[id].booking == b
    ensures id in Next(w, s).offers
  {
    hide AssignNextContractor, OwnerError, SlotOf, Reschedulable;
    match s
    case Dispatch(k, r) => if k in w.bookings { AssignLosesNothing(w, k, r); }
    case Decline(user, j, r) =>
      if DeclineOffer(w, user, j, r).0 != w && r.Some? {
        AssignLosesNothing(PutOffer(w, j, DeclinedOffer(w.offers[j], w.now)), w.offers[j].booking, r.value);
      }
    case Reschedule(_, _, _, _) =>
    case _ => hide Next; SameIds(w, s);
  }

  /** The step created an offer for the booking. */
  predicate Made(w: World, w': World, b: BookingId) {
    exists id :: id in w'.offers && id !in w.offers && w'.offers[id].booking == b
  }

  ghost function OffersMade(w: World, steps: seq<Step>, b: BookingId): nat {
    if steps == [] then 0
    else
      var before := Run(w, steps[..|steps| - 1]);
      OffersMade(w, steps[..|steps| - 1], b) + if Made(before, Run(w, steps), b) then 1 else 0
  }

  /** The contractors of the pool the booking has not been offered to yet: the measure of the cascade. */
  ghost function NotYetOffered(w: World, b: BookingId, pool: set<UserId>): set<UserId> {
    if b in w.bookings then pool - Offered(w, b) else pool
  }

  ghost predicate ListedWithin(w: World, pool: set<UserId>) {
    forall user :: HasProfile(w, user) ==> user in pool
  }

  /** A step that is no rescheduling never grows the measure, and creating an offer shrinks it. */
  lemma MeasureShrinks(w: World, s: Step, b: BookingId, pool: set<UserId>)
    requires Safe(w) && ContractorsListed(w) && ListedWithin(Next(w, s), pool) && !Reschedules(s, b)
    ensures NotYetOffered(Next(w, s), b, pool) <= NotYetOffered(w, b, pool)
    ensures Made(w, Next(w, s), b) ==> NotYetOffered(Next(w, s), b, pool) < NotYetOffered(w, b, pool)
  {
    var w' := Next(w, s);
    NextEvolves(w, s);
    NextKeepsInv(w, s);
    NextKeepsListed(w, s);
    if b in w.bookings {
      assert BookingEvolves(w.bookings[b], w'.bookings[b]);
      forall u | u in Offered(w, b) ensures u in Offered(w', b) {
        var id :| id in w.offers && w.offers[id].booking == b && w.offers[id].round == w.bookings[b].round
                  && w.offers[id].contractor == u;
        NoOfferLost(w, s, b, id);
        assert OfferEvolves(w.offers[id], w'.offers[id]);
      }
    }
    if Made(w, w', b) {
      var id :| id in w'.offers && id !in w.offers && w'.offers[id].booking == b;
      NewOfferIsNew(w, s, b, id);
    }
  }

  /** All offers of a booking stand in its round, so no two of them are addressed to one contractor. */
  lemma OffersGoToDifferentPeople(w: World, i: OfferId, j: OfferId)
    requires Inv(w) && i in w.offers && j in w.offers && i != j && w.offers[i].booking == w.offers[j].booking
    ensures w.offers[i].contractor != w.offers[j].contractor
  {
    OfferIsOk(w, i);
    OfferIsOk(w, j);
    assert UniquePerRound(FolderOf(w, w.offers[i].booking).offers);
  }

  /** A created offer goes to a listed contractor the booking had not been offered to. */
  lemma NewOfferIsNew(w: World, s: Step, b: BookingId, id: OfferId)
    requires Safe(w) && ContractorsListed(w) && !Reschedules(s, b)
    requires id in Next(w, s).offers && id !in w.offers && Next(w, s).offers[id].booking == b
    ensures var o := Next(w, s).offers[id];
            && HasProfile(Next(w, s), o.contractor)
            && b in Next(w, s).bookings && o.contractor in Offered(Next(w, s), b)
            && (b in w.bookings ==> o.contractor !in Offered(w, b))
  {
    var w' := Next(w, s);
    var o := w'.offers[id];
    NextEvolves(w, s);
    NextKeepsInv(w, s);
    NextKeepsListed(w, s);
    hide Next, BookingsEvolve, CancelledFrozen, QuotesKept, PaymentsEvolve, Consistent;
    OfferIsOk(w', id);
    if b in w.bookings {
      forall j | j in w.offers && w.offers[j].booking == b ensures w.offers[j].contractor != o.contractor {
        NoOfferLost(w, s, b, j);
        assert OfferEvolves(w.offers[j], w'.offers[j]);
        OffersGoToDifferentPeople(w', id, j);
      }
    }
  }

  /** Every database the run passes through lists profiles of the pool only. */
  ghost predicate PoolHolds(w: World, steps: seq<Step>, pool: set<UserId>) {
    forall n :: 0 <= n <= |steps| ==> ListedWithin(Run(w, steps[..n]), pool)
  }

  lemma SmallerSet<T>(a: set<T>, b: set<T>)
    requires a <= b
    ensures |a| <= |b| && (a < b ==> |a| < |b|)
  {
    assert b == a + (b - a);
    if a < b {
      var x :| x in b - a;
    }
  }

  lemma MeasureIsBounded(w: World, b: BookingId, pool: set<UserId>)
    ensures |NotYetOffered(w, b, pool)| <= |pool|
  {
    SmallerSet(NotYetOffered(w, b, pool), pool);
  }

  lemma StepShrinksCount(w: World, s: Step, b: BookingId, pool: set<UserId>)
    requires Safe(w) && ContractorsListed(w) && ListedWithin(Next(w, s), pool) && !Reschedules(s, b)
    ensures Safe(Next(w, s)) && ContractorsListed(Next(w, s))
    ensures |NotYetOffered(Next(w, s), b, pool)| + (if Made(w, Next(w, s), b) then 1 else 0) <= |NotYetOffered(w, b, pool)|
  {
    hide Next, Safe, ContractorsListed, ListedWithin, NotYetOffered, Made;
    NextKeepsInv(w, s);
    NextKeepsListed(w, s);
    MeasureShrinks(w, s, b, pool);
    SmallerSet(NotYetOffered(Next(w, s), b, pool), NotYetOffered(w, b, pool));
  }

  /** Between reschedules a booking is offered at most as many times as there are contractors left to ask. */
  lemma {:induction false} CascadeTerminates(w: World, steps: seq<Step>, b: BookingId, pool: set<UserId>)
    requires Safe(w) && ContractorsListed(w) && PoolHolds(w, steps, pool)
    requires forall s :: s in steps ==> !Reschedules(s, b)
    ensures Safe(Run(w, steps)) && ContractorsListed(Run(w, steps))
    ensures OffersMade(w, steps, b) + |NotYetOffered(Run(w, steps), b, pool)| <= |NotYetOffered(w, b, pool)|
    ensures OffersMade(w, steps, b) <= |pool|
  {
    hide Run, Next, Safe, ContractorsListed, ListedWithin, NotYetOffered, Made;
    MeasureIsBounded(w, b, pool);
    if steps == [] {
      RunNothing(w);
    } else {
      var n := |steps| - 1;
      assert forall k :: 0 <= k <= n ==> steps[..n][..k] == steps[..k];
      CascadeTerminates(w, steps[..n], b, pool);
      assert steps[..n] + [steps[n]] == steps && steps[..|steps|] == steps;
      RunThen(w, steps[..n], steps[n]);
      StepShrinksCount(Run(w, steps[..n]), steps[n], b, pool);
    }
  }
}
