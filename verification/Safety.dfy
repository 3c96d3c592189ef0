/** What every step keeps: the invariant of the offer protocol, for every run from the empty database. */
module Safety {
  import opened Domain
  import opened Worlds
  import opened Candidates
  import opened Frames
  import opened Protocol
  import Scheduling

  // ---- The invariant of one booking ------------------------------------------

  /** At most one offer is answerable or holds the booking. */
  ghost predicate AtMostOneEngaged(now: Time, offers: map<OfferId, Offer>) {
    forall i, j :: i in offers && j in offers && offers[i].Engages(now) && offers[j].Engages(now) ==> i == j
  }

  /** No contractor is offered the booking twice in a round. */
  ghost predicate UniquePerRound(offers: map<OfferId, Offer>) {
    forall i, j :: i in offers && j in offers && i != j && offers[i].round == offers[j].round ==>
                     offers[i].contractor != offers[j].contractor
  }

  /** A close reason is stored exactly on closed offers, and agrees with the status. */
  predicate ReasonMatches(o: Offer) {
    match o.status
    case Declined => o.closeReason == Some(DeclinedByContractor)
    case Expired => o.closeReason == Some(TimedOut) || o.closeReason == Some(CloseReason.BookingCancelled)
    case _ => o.closeReason == None
  }

  predicate WithinCeiling(booking: Booking, amount: Cents) {
    booking.maxTotal.Some? ==> amount <= booking.maxTotal.value
  }

  /** What one offer owes its booking. */
  predicate OfferOk(now: Time, booking: Booking, o: Offer) {
    && (o.IsActionable(now) || o.status.AcceptedPendingPayment? ==> booking.status.Pending?)
    && (o.status.Accepted? ==> booking.status.Confirmed?)
    && (booking.status.Cancelled? ==> !IsOpen(o))
    && (booking.status.Pending? && booking.dispatch.NoContractor? ==> !o.Engages(now))
    && ReasonMatches(o)
    && WithinCeiling(booking, o.total)
    && o.earnings == o.total
    && o.contractor != booking.customer
    && o.round == booking.round
    && (booking.scheduledAt.Some? ==> o.expiresAt <= booking.scheduledAt.value)
  }

  ghost predicate OffersOk(now: Time, booking: Booking, offers: map<OfferId, Offer>) {
    forall id :: id in offers ==> OfferOk(now, booking, offers[id])
  }

  /** The offer that reserves the booking froze this amount. */
  ghost predicate ReservedAt(offers: map<OfferId, Offer>, amount: Cents) {
    exists id :: id in offers && offers[id].IsReserved() && offers[id].total == amount
  }

  /** The offer the booking was confirmed with. */
  ghost predicate ConfirmedWith(booking: Booking, offers: map<OfferId, Offer>) {
    exists id :: id in offers && offers[id].status.Accepted?
                 && booking.assignee == Some(offers[id].contractor) && booking.computedPrice == Some(offers[id].total)
                 && booking.version == Some(offers[id].version)
  }

  ghost predicate AssignmentOk(f: Folder) {
    && (f.booking.status.Confirmed? ==> ConfirmedWith(f.booking, f.offers) && f.booking.dispatch.Assigned?
                                        && f.payment.Some? && f.payment.value.paidAt.Some?)
    && (!f.booking.status.Confirmed? ==>
          f.booking.assignee.None? && f.booking.computedPrice.None? && !f.booking.dispatch.Assigned?)
  }

  /** A charge is always for the frozen total of the offer that reserves the booking, and never above the ceiling. */
  ghost predicate PaymentOk(f: Folder) {
    f.payment.Some? ==>
      && !f.payment.value.status.NotCharged? && !f.payment.value.status.Pending?
      && WithinCeiling(f.booking, f.payment.value.amount)
      && (!f.booking.status.Cancelled? ==> ReservedAt(f.offers, f.payment.value.amount))
  }

  ghost predicate Consistent(now: Time, f: Folder) {
    && AtMostOneEngaged(now, f.offers)
    && UniquePerRound(f.offers)
    && OffersOk(now, f.booking, f.offers)
    && AssignmentOk(f)
    && PaymentOk(f)
  }

  // ---- The invariant of the database -----------------------------------------

  ghost predicate KeysOk(w: World) {
    && (forall id :: id in w.offers ==> id < w.nextOffer && w.offers[id].booking in w.bookings)
    && w.payments.Keys <= w.bookings.Keys
    && DistinctProfiles(w.profiles)
  }

  ghost predicate Inv(w: World) {
    && KeysOk(w)
    && forall b :: b in w.bookings ==> Consistent(w.now, FolderOf(w, b))
  }

  /** What the invariant says of one offer. */
  lemma OfferIsOk(w: World, id: OfferId)
    requires Inv(w) && id in w.offers
    ensures w.offers[id].booking in w.bookings && id < w.nextOffer
    ensures id in OffersOf(w, w.offers[id].booking) && OfferOk(w.now, w.bookings[w.offers[id].booking], w.offers[id])
  {
    assert FolderOf(w, w.offers[id].booking).offers[id] == w.offers[id];
  }

  // ---- Framing ---------------------------------------------------------------

  /** The step left everything stored about booking b as it was. */
  ghost predicate SameFolder(w: World, w': World, b: BookingId) {
    b in w.bookings && b in w'.bookings && FolderOf(w, b) == FolderOf(w', b)
  }

  /** Every booking but one is untouched. */
  ghost predicate OnlyTouches(w: World, w': World, b: BookingId) {
    && w'.bookings.Keys == w.bookings.Keys + {b}
    && forall other :: other in w.bookings && other != b ==> SameFolder(w, w', other)
  }

  lemma Untouched(w: World, b: BookingId)
    requires b in w.bookings
    ensures OnlyTouches(w, w, b)
  {
  }

  lemma TouchedElsewhere(w: World, w': World, b: BookingId, other: BookingId)
    requires OnlyTouches(w, w', b) && other in w.bookings && other != b
    ensures SameFolder(w, w', other)
  {
  }

  lemma SameFolderTwice(w0: World, w1: World, w2: World, b: BookingId)
    requires SameFolder(w0, w1, b) && SameFolder(w1, w2, b)
    ensures SameFolder(w0, w2, b)
  {
  }

  lemma InvFromFolder(w: World, w': World, b: BookingId)
    requires Inv(w) && KeysOk(w') && w'.now == w.now && OnlyTouches(w, w', b)
    requires Consistent(w.now, FolderOf(w', b))
    ensures Inv(w')
  {
    forall other | other in w'.bookings ensures Consistent(w'.now, FolderOf(w', other)) {
      if other != b {
        assert SameFolder(w, w', other);
      }
    }
  }

  /** Accounts, prices, quotes and what is in flight are no part of the invariant; profiles stay distinct. */
  lemma SurroundingsKeepInv(w: World, w': World)
    requires Inv(w) && DistinctProfiles(w'.profiles) && w'.now == w.now && w'.nextOffer == w.nextOffer
    requires w'.bookings == w.bookings && w'.offers == w.offers && w'.payments == w.payments
    ensures Inv(w')
  {
    hide Consistent;
    forall b | b in w'.bookings ensures Consistent(w'.now, FolderOf(w', b)) {
      assert FolderOf(w', b) == FolderOf(w, b);
    }
  }

  lemma SameRows(w: World, mid: World, w': World, b: BookingId)
    requires mid.bookings == w.bookings && mid.offers == w.offers && mid.payments == w.payments
    requires OnlyTouches(mid, w', b)
    ensures OnlyTouches(w, w', b)
  {
    forall other | other in w.bookings && other != b ensures SameFolder(w, w', other) {
      assert SameFolder(mid, w', other) && FolderOf(mid, other) == FolderOf(w, other);
    }
  }

  lemma PutTouches(w: World, id: OfferId, o: Offer, booking: Booking, next: OfferId)
    requires KeysOk(w) && o.booking in w.bookings
    requires id in w.offers ==> w.offers[id].booking == o.booking
    ensures var w' := PutBooking(PutOffer(w, id, o), o.booking, booking).(nextOffer := next);
            OnlyTouches(w, w', o.booking) && OffersOf(w', o.booking) == OffersOf(w, o.booking)[id := o]
  {
    var w' := PutBooking(PutOffer(w, id, o), o.booking, booking).(nextOffer := next);
    forall other | other in w.bookings && other != o.booking ensures SameFolder(w, w', other) {
      assert OffersOf(w', other) == OffersOf(w, other);
    }
  }

  // ---- One booking, one change -----------------------------------------------

  /** As time passes offers only stop being answerable. */
  lemma TimePasses(now: Time, later: Time, f: Folder)
    requires Consistent(now, f) && now <= later
    ensures Consistent(later, f)
  {
    assert forall id :: id in f.offers && f.offers[id].Engages(later) ==> f.offers[id].Engages(now);
    assert forall id :: id in f.offers && f.offers[id].IsActionable(later) ==> f.offers[id].IsActionable(now);
  }

  /** Replacing an offer by one that engages no more than it did, and keeps its reservation, keeps everything. */
  lemma OfferWeakened(now: Time, f: Folder, id: OfferId, o: Offer)
    requires Consistent(now, f) && id in f.offers
    requires o.contractor == f.offers[id].contractor && o.round == f.offers[id].round
    requires o.total == f.offers[id].total && o.version == f.offers[id].version
    requires o.Engages(now) ==> f.offers[id].Engages(now)
    requires f.offers[id].IsReserved() ==> o.IsReserved() && (f.offers[id].status.Accepted? ==> o.status.Accepted?)
    requires OfferOk(now, f.booking, o)
    ensures Consistent(now, f.(offers := f.offers[id := o]))
  {
    var f' := f.(offers := f.offers[id := o]);
    if f.booking.status.Confirmed? {
      var j :| j in f.offers && f.offers[j].status.Accepted?
               && f.booking.assignee == Some(f.offers[j].contractor)
               && f.booking.computedPrice == Some(f.offers[j].total)
               && f.booking.version == Some(f.offers[j].version);
      assert f'.offers[j].status.Accepted?;
      assert ConfirmedWith(f'.booking, f'.offers);
    }
    if f.payment.Some? && !f.booking.status.Cancelled? {
      var j :| j in f.offers && f.offers[j].IsReserved() && f.offers[j].total == f.payment.value.amount;
      assert f'.offers[j].IsReserved();
    }
  }

  /** The booking row moves to a state its offers allow. */
  lemma BookingMoved(now: Time, f: Folder, booking: Booking)
    requires Consistent(now, f) && f.booking.status.Pending? && booking.status.Pending?
    requires booking.customer == f.booking.customer && booking.maxTotal == f.booking.maxTotal
    requires booking.round == f.booking.round && booking.scheduledAt == f.booking.scheduledAt
    requires booking.assignee.None? && booking.computedPrice.None? && !booking.dispatch.Assigned?
    requires booking.dispatch.NoContractor? ==> forall id :: id in f.offers ==> !f.offers[id].Engages(now)
    ensures Consistent(now, f.(booking := booking))
  {
  }

  // ---- Dispatch --------------------------------------------------------------

  lemma NobodyEngages(w: World, b: BookingId)
    requires b in w.bookings && !HasLiveOffer(w, b) && !IsReserved(w, b)
    ensures forall id :: id in OffersOf(w, b) ==> !OffersOf(w, b)[id].Engages(w.now)
  {
  }

  /** A chosen contractor was never offered this booking in the round, and is not its customer. */
  lemma ChosenIsAdmissible(w: World, b: BookingId, r: Reading)
    requires b in w.bookings && FindCandidates(w, b, r) != []
    ensures var c := FindCandidates(w, b, r)[0];
            c.user !in Offered(w, b) && c.user != w.bookings[b].customer
            && exists p :: p in w.profiles && p.user == c.user && Listed(w, b, p)
  {
    HeadIsNearest(w, b, r);
  }

  lemma OfferingKeepsFolder(w: World, b: BookingId, r: Reading)
    requires Inv(w) && b in w.bookings && Decide(w, b, r).Offering?
    ensures var f := FolderOf(w, b);
            var booking := w.bookings[b].(lastAttemptAt := Some(w.now), updatedAt := w.now, dispatch := Searching);
            Consistent(w.now, f.(booking := booking, offers := f.offers[w.nextOffer := Decide(w, b, r).offer]))
  {
    var f := FolderOf(w, b);
    var o := Decide(w, b, r).offer;
    var id := w.nextOffer;
    var booking := w.bookings[b].(lastAttemptAt := Some(w.now), updatedAt := w.now, dispatch := Searching);
    var f' := f.(booking := booking, offers := f.offers[id := o]);
    NobodyEngages(w, b);
    ChosenIsAdmissible(w, b, r);
    BookingMoved(w.now, f, booking);
    assert UniquePerRound(f'.offers) by {
      forall j | j in f.offers && f.offers[j].round == o.round ensures f.offers[j].contractor != o.contractor {
        assert j in w.offers && w.offers[j].contractor in Offered(w, b);
      }
    }
  }

  lemma RowTouches(w: World, b: BookingId, booking: Booking)
    requires KeysOk(w) && b in w.bookings
    ensures OnlyTouches(w, PutBooking(w, b, booking), b) && KeysOk(PutBooking(w, b, booking))
    ensures FolderOf(PutBooking(w, b, booking), b) == FolderOf(w, b).(booking := booking)
  {
    var w' := PutBooking(w, b, booking);
    forall other | other in w.bookings ensures OffersOf(w', other) == OffersOf(w, other) {
    }
    assert forall other :: other in w.bookings && other != b ==> SameFolder(w, w', other);
  }

  lemma GivingUpKeepsInv(w: World, b: BookingId, booking: Booking)
    requires Inv(w) && b in w.bookings && w.bookings[b].status.Pending? && !HasLiveOffer(w, b) && !IsReserved(w, b)
    requires exists at :: booking == w.bookings[b].(lastAttemptAt := Some(at), updatedAt := at, dispatch := NoContractor)
    ensures Inv(PutBooking(w, b, booking)) && OnlyTouches(w, PutBooking(w, b, booking), b)
  {
    NobodyEngages(w, b);
    BookingMoved(w.now, FolderOf(w, b), booking);
    RowTouches(w, b, booking);
    hide OnlyTouches, Consistent;
    InvFromFolder(w, PutBooking(w, b, booking), b);
  }

  /** A dispatch attempt keeps the invariant, touches one booking, and creates at most one offer. */
  lemma AssignKeepsInv(w: World, b: BookingId, r: Reading)
    requires Inv(w) && b in w.bookings
    ensures Inv(AssignNextContractor(w, b, r).0)
    ensures OnlyTouches(w, AssignNextContractor(w, b, r).0, b)
  {
    hide Consistent, FindCandidates, HasLiveOffer, IsReserved;
    var w' := AssignNextContractor(w, b, r).0;
    var f := FolderOf(w, b);
    match Decide(w, b, r)
    case Skipped =>
    case CeilingBreached =>
    case NobodyLeft =>
      GivingUpKeepsInv(w, b, w'.bookings[b]);
    case Offering(o) =>
      OfferingKeepsFolder(w, b, r);
      PutTouches(w, w.nextOffer, o, w'.bookings[b], w.nextOffer + 1);
      assert FolderOf(w', b) == f.(booking := w'.bookings[b], offers := f.offers[w.nextOffer := o]);
      InvFromFolder(w, w', b);
  }

  // ---- Responses and expiry --------------------------------------------------

  lemma OfferStepKeepsInv(w: World, id: OfferId, o: Offer)
    requires Inv(w) && id in w.offers && o.booking == w.offers[id].booking
    requires Consistent(w.now, FolderOf(w, o.booking).(offers := OffersOf(w, o.booking)[id := o]))
    ensures Inv(PutOffer(w, id, o)) && OnlyTouches(w, PutOffer(w, id, o), o.booking)
  {
    hide Consistent;
    var w' := PutOffer(w, id, o);
    PutTouches(w, id, o, w.bookings[o.booking], w.nextOffer);
    assert w' == PutBooking(PutOffer(w, id, o), o.booking, w.bookings[o.booking]).(nextOffer := w.nextOffer);
    assert FolderOf(w', o.booking) == FolderOf(w, o.booking).(offers := OffersOf(w, o.booking)[id := o]);
    InvFromFolder(w, w', o.booking);
  }

  lemma AcceptKeepsInv(w: World, user: UserId, id: OfferId)
    requires Inv(w)
    ensures Inv(AcceptOffer(w, user, id).0)
    ensures id in w.offers ==> OnlyTouches(w, AcceptOffer(w, user, id).0, w.offers[id].booking)
  {
    var w' := AcceptOffer(w, user, id).0;
    if w' != w {
      var o := w'.offers[id];
      var f := FolderOf(w, o.booking);
      assert f.offers[id] == w.offers[id];
      OfferWeakened(w.now, f, id, o);
      OfferStepKeepsInv(w, id, o);
    }
  }

  lemma CloseKeepsInv(w: World, id: OfferId, o: Offer)
    requires Inv(w) && id in w.offers && w.offers[id].status.Pending?
    requires exists at :: o == DeclinedOffer(w.offers[id], at) || o == TimedOutOffer(w.offers[id], at)
    ensures Inv(PutOffer(w, id, o)) && OnlyTouches(w, PutOffer(w, id, o), o.booking)
  {
    hide OnlyTouches;
    var f := FolderOf(w, o.booking);
    assert f.offers[id] == w.offers[id];
    OfferWeakened(w.now, f, id, o);
    OfferStepKeepsInv(w, id, o);
  }

  lemma ExpireKeepsInv(w: World, id: OfferId, at: Time)
    requires Inv(w)
    ensures Inv(ExpireIfPending(w, id, at))
  {
    if id in w.offers && w.offers[id].status.Pending? {
      CloseKeepsInv(w, id, TimedOutOffer(w.offers[id], at));
    }
  }

  lemma DeclineKeepsInv(w: World, user: UserId, id: OfferId, r: Option<Reading>)
    requires Inv(w)
    ensures Inv(DeclineOffer(w, user, id, r).0)
    ensures id in w.offers ==> OnlyTouches(w, DeclineOffer(w, user, id, r).0, w.offers[id].booking)
  {
    var w' := DeclineOffer(w, user, id, r).0;
    if w' != w {
      var o := DeclinedOffer(w.offers[id], w.now);
      var declined := PutOffer(w, id, o);
      CloseKeepsInv(w, id, o);
      if w' != declined {
        AssignKeepsInv(declined, o.booking, r.value);
        forall other | other in w.bookings && other != o.booking ensures SameFolder(w, w', other) {
          assert SameFolder(w, declined, other) && SameFolder(declined, w', other);
        }
      }
    }
  }

  // ---- Customer operations ---------------------------------------------------

  lemma NewBookingKeepsInv(w: World, b: BookingId, booking: Booking)
    requires Inv(w) && b !in w.bookings && booking.status.Pending? && booking.dispatch.Searching?
    requires booking.assignee.None? && booking.computedPrice.None?
    ensures Inv(PutBooking(w, b, booking)) && OnlyTouches(w, PutBooking(w, b, booking), b)
  {
    var w' := PutBooking(w, b, booking);
    assert OffersOf(w', b) == map[];
    forall other | other in w.bookings && other != b ensures SameFolder(w, w', other) {
      assert OffersOf(w', other) == OffersOf(w, other);
    }
    InvFromFolder(w, w', b);
  }

  lemma CreateKeepsInv(w: World, b: BookingId, user: UserId, q: Request)
    requires Inv(w) && b !in w.bookings && LookedUp(w, q)
    ensures Inv(CreateBooking(w, b, user, q).0)
    ensures CreateBooking(w, b, user, q).1.Done? ==> OnlyTouches(w, CreateBooking(w, b, user, q).0, b)
  {
    assert DistinctProfiles(w.profiles);
    hide Inv, CreationError, OnlyTouches, SameFolder;
    var ended := EndCall(w, q);
    SurroundingsKeepInv(w, ended);
    if CreateBooking(w, b, user, q).1.Done? {
      var booking := CreateBooking(w, b, user, q).0.bookings[b];
      NewBookingKeepsInv(ended, b, booking);
      SameRows(w, ended, PutBooking(ended, b, booking), b);
    }
  }

  /** A booking that may be rescheduled has no live and no reserving offer, so nothing that matters is deleted. */
  lemma RescheduleDeletesNothingEngaged(w: World, b: BookingId, id: OfferId)
    requires Inv(w) && b in w.bookings && Reschedulable(w, b) && id in w.offers && w.offers[id].booking == b
    ensures !w.offers[id].Engages(w.now)
  {
    assert Consistent(w.now, FolderOf(w, b));
    assert id in OffersOf(w, b);
  }

  /** The paid-booking check of rescheduling is redundant: a booking past the other checks has no payment at all. */
  lemma ReschedulableIsUnpaid(w: World, b: BookingId)
    requires Inv(w) && b in w.bookings && w.bookings[b].status.Pending? && w.bookings[b].dispatch.NoContractor?
    ensures b !in w.payments && w.bookings[b].assignee.None?
  {
    var f := FolderOf(w, b);
    assert Consistent(w.now, f);
    assert forall id :: id in f.offers ==> OfferOk(w.now, f.booking, f.offers[id]);
  }

  lemma DroppingTouches(w: World, b: BookingId, booking: Booking)
    requires KeysOk(w) && b in w.bookings
    ensures var w' := PutBooking(w.(offers := DropOffersOf(w, b)), b, booking);
            OnlyTouches(w, w', b) && OffersOf(w', b) == map[]
  {
    var w' := PutBooking(w.(offers := DropOffersOf(w, b)), b, booking);
    forall other | other in w.bookings && other != b ensures SameFolder(w, w', other) {
      assert OffersOf(w', other) == OffersOf(w, other);
    }
  }

  /** A pending booking nobody is asked for yet is consistent. */
  lemma EmptyIsConsistent(now: Time, booking: Booking)
    requires booking.status.Pending? && booking.dispatch.Searching?
    requires booking.assignee.None? && booking.computedPrice.None?
    ensures Consistent(now, Folder(booking, map[], None))
  {
  }

  /** Afterwards no contractor is excluded for having been offered the booking before. */
  lemma RescheduleKeepsInv(w: World, user: UserId, b: BookingId, when: Option<Time>, zone: string)
    requires Inv(w)
    ensures Inv(RescheduleBooking(w, user, b, when, zone).0)
    ensures b in w.bookings ==> OnlyTouches(w, RescheduleBooking(w, user, b, when, zone).0, b)
    ensures RescheduleBooking(w, user, b, when, zone).1.Done? ==>
              Offered(RescheduleBooking(w, user, b, when, zone).0, b) == {}
  {
    var w' := RescheduleBooking(w, user, b, when, zone).0;
    if RescheduleBooking(w, user, b, when, zone).1.Done? {
      assert Consistent(w.now, FolderOf(w, b));
      ReschedulableIsUnpaid(w, b);
      DroppingTouches(w, b, w'.bookings[b]);
      assert FolderOf(w', b) == Folder(w'.bookings[b], map[], None);
      EmptyIsConsistent(w.now, w'.bookings[b]);
      assert KeysOk(w');
      hide Consistent, OnlyTouches, SlotOf, OwnerError;
      InvFromFolder(w, w', b);
    } else if b in w.bookings {
      Untouched(w, b);
    }
  }

  /** The offers a cancellation closes: every open one, and with them perhaps some a sweep has timed out since. */
  ghost predicate Closable(offers: map<OfferId, Offer>, ids: set<OfferId>) {
    && ids <= offers.Keys
    && (forall id :: id in ids ==> IsOpen(offers[id]) || offers[id].closeReason == Some(TimedOut))
    && (forall id :: id in offers && IsOpen(offers[id]) ==> id in ids)
  }

  lemma ClosingKeepsFolder(now: Time, f: Folder, f': Folder, ids: set<OfferId>, at: Time)
    requires Consistent(now, f) && f.booking.status.Pending? && Closable(f.offers, ids)
    requires f'.payment == f.payment && f'.offers == Close(f.offers, ids, at)
    requires f'.booking == f.booking.(status := Cancelled, cancelledAt := f'.booking.cancelledAt,
                                      updatedAt := f'.booking.updatedAt)
    ensures Consistent(now, f')
  {
    forall id | id in f'.offers ensures OfferOk(now, f'.booking, f'.offers[id]) && !f'.offers[id].Engages(now) {
      assert OfferOk(now, f.booking, f.offers[id]);
    }
    forall i, j | i in f'.offers && j in f'.offers && i != j && f'.offers[i].round == f'.offers[j].round
      ensures f'.offers[i].contractor != f'.offers[j].contractor
    {
      assert f.offers[i].round == f.offers[j].round;
    }
  }

  lemma ClosingTouches(w: World, w': World, b: BookingId, ids: set<OfferId>, at: Time)
    requires KeysOk(w) && b in w.bookings && b in w'.bookings && ids <= OffersOf(w, b).Keys
    requires w' == w.(bookings := w.bookings[b := w'.bookings[b]], offers := Close(w.offers, ids, at),
                      inFlight := w'.inFlight)
    ensures KeysOk(w') && OnlyTouches(w, w', b) && OffersOf(w', b) == Close(OffersOf(w, b), ids, at)
  {
    forall other | other in w.bookings && other != b ensures SameFolder(w, w', other) {
      assert OffersOf(w', other) == OffersOf(w, other);
    }
  }

  lemma ClosingKeepsInv(w: World, w': World, b: BookingId, ids: set<OfferId>, at: Time)
    requires Inv(w) && b in w.bookings && w.bookings[b].status.Pending? && Closable(OffersOf(w, b), ids)
    requires b in w'.bookings
    requires w'.bookings[b] == w.bookings[b].(status := Cancelled, cancelledAt := w'.bookings[b].cancelledAt,
                                              updatedAt := w'.bookings[b].updatedAt)
    requires w' == w.(bookings := w.bookings[b := w'.bookings[b]], offers := Close(w.offers, ids, at),
                      inFlight := w'.inFlight)
    ensures Inv(w') && OnlyTouches(w, w', b)
  {
    ClosingTouches(w, w', b, ids, at);
    ClosingKeepsFolder(w.now, FolderOf(w, b), FolderOf(w', b), ids, at);
    hide OnlyTouches, Consistent;
    InvFromFolder(w, w', b);
  }

  lemma CancellingKeepsInv(w: World, b: BookingId)
    requires Inv(w) && b in w.bookings && w.bookings[b].status.Pending?
    ensures Inv(Cancelling(w, b)) && OnlyTouches(w, Cancelling(w, b), b)
  {
    hide Inv, OnlyTouches;
    ClosingKeepsInv(w, Cancelling(w, b), b, OpenIds(w, b), w.now);
  }

  lemma CancelKeepsInv(w: World, user: Option<UserId>, b: BookingId)
    requires Inv(w)
    ensures Inv(CancelBooking(w, user, b).0)
    ensures b in w.bookings ==> OnlyTouches(w, CancelBooking(w, user, b).0, b)
  {
    if CancelBooking(w, user, b).1.Done? {
      CancellingKeepsInv(w, b);
    }
  }

  // ---- Cancellations in progress ---------------------------------------------

  /** While a cancellation holds the booking, its list covers every open offer; what else is on it has timed out since. */
  ghost predicate ClosingOk(w: World, b: BookingId)
    requires Locked(w, b)
  {
    && b in w.bookings && w.bookings[b].status.Pending?
    && Closable(OffersOf(w, b), w.inFlight.closing[b].affected)
    && w.inFlight.closing[b].at <= w.now
  }

  ghost predicate ClosingsOk(w: World) {
    forall b :: Locked(w, b) ==> ClosingOk(w, b)
  }

  /** What every reachable database is: consistent, with every cancellation in progress. */
  ghost predicate Safe(w: World) { Inv(w) && ClosingsOk(w) }

  lemma FinishKeepsInv(w: World, b: BookingId)
    requires Inv(w) && Locked(w, b) && ClosingOk(w, b)
    ensures Inv(FinishCancel(w, b)) && OnlyTouches(w, FinishCancel(w, b), b)
  {
    hide Inv, OnlyTouches;
    var c := w.inFlight.closing[b];
    ClosingKeepsInv(w, FinishCancel(w, b), b, c.affected, c.at);
  }

  lemma ClosingKept(w: World, w': World, b: BookingId)
    requires Locked(w, b) && ClosingOk(w, b) && Locked(w', b) && w'.inFlight.closing[b] == w.inFlight.closing[b]
    requires SameFolder(w, w', b) && w.now <= w'.now
    ensures ClosingOk(w', b)
  {
  }

  /** A step that leaves the bookings in progress alone leaves the cancellations as they are. */
  lemma ElsewhereKeepsClosings(w: World, w': World, b: BookingId)
    requires ClosingsOk(w) && OnlyTouches(w, w', b) && w.now <= w'.now
    requires w'.inFlight.closing == w.inFlight.closing - {b}
    ensures ClosingsOk(w')
  {
    forall other | Locked(w', other) ensures ClosingOk(w', other) {
      assert Locked(w, other);
      assert ClosingOk(w, other);
      TouchedElsewhere(w, w', b, other);
      ClosingKept(w, w', other);
    }
  }

  lemma SameRowsKeepClosings(w: World, w': World)
    requires ClosingsOk(w) && w.now <= w'.now && w'.inFlight.closing == w.inFlight.closing
    requires w'.bookings == w.bookings && w'.offers == w.offers
    ensures ClosingsOk(w')
  {
    forall b | Locked(w', b) ensures ClosingOk(w', b) {
      assert ClosingOk(w, b) && OffersOf(w', b) == OffersOf(w, b);
    }
  }

  predicate IsPending(w: World, id: OfferId) { id in w.offers && w.offers[id].status.Pending? }

  /** The sweep's update may hit an offer on the list, and leaves it timed out. */
  lemma ExpireKeepsClosing(w: World, id: OfferId, at: Time, b: BookingId)
    requires Locked(w, b) && ClosingOk(w, b) && IsPending(w, id)
    ensures ClosingOk(ExpireIfPending(w, id, at), b)
  {
    var offers := OffersOf(w, b);
    var offers' := OffersOf(ExpireIfPending(w, id, at), b);
    assert offers' == if id in offers then offers[id := TimedOutOffer(offers[id], at)] else offers;
  }

  lemma ExpireKeepsClosings(w: World, id: OfferId, at: Time)
    requires ClosingsOk(w)
    ensures ClosingsOk(ExpireIfPending(w, id, at))
  {
    hide ClosingOk;
    if IsPending(w, id) {
      forall b | Locked(w, b) ensures ClosingOk(ExpireIfPending(w, id, at), b) {
        ExpireKeepsClosing(w, id, at, b);
      }
    }
  }

  lemma BeginKeepsClosings(w: World, actor: Option<UserId>, b: BookingId)
    requires ClosingsOk(w)
    ensures ClosingsOk(BeginCancel(w, actor, b).0)
  {
    var w' := BeginCancel(w, actor, b).0;
    forall other | Locked(w', other) ensures ClosingOk(w', other) {
      assert OffersOf(w', other) == OffersOf(w, other);
      if other != b || w' == w {
        assert ClosingOk(w, other);
      }
    }
  }

  // ---- Payment ---------------------------------------------------------------

  /** Exactly one offer reserves a reserved booking, so "the first" is well defined. */
  lemma ReservingIsUnique(w: World, b: BookingId, id: OfferId)
    requires Inv(w) && b in w.bookings && id in ReservingIds(w, b)
    ensures ReservingIds(w, b) == {id}
  {
    var offers := OffersOf(w, b);
    assert Consistent(w.now, FolderOf(w, b));
    forall other | other in ReservingIds(w, b) ensures other == id {
      assert offers[other].Engages(w.now) && offers[id].Engages(w.now);
    }
  }

  lemma PaymentTouches(w: World, w': World, b: BookingId)
    requires KeysOk(w) && b in w.bookings && b in w'.payments
    requires w' == w.(payments := w.payments[b := w'.payments[b]], inFlight := w'.inFlight)
    ensures KeysOk(w') && OnlyTouches(w, w', b)
    ensures FolderOf(w', b) == FolderOf(w, b).(payment := Some(w'.payments[b]))
  {
    forall other | other in w.bookings ensures OffersOf(w', other) == OffersOf(w, other) {
    }
    assert forall other :: other in w.bookings && other != b ==> SameFolder(w, w', other);
  }

  /** The offer that reserves the booking holds a total within the ceiling, which a charge may be written for. */
  lemma PaymentRowKeepsInv(w: World, w': World, b: BookingId)
    requires Inv(w) && b in w.bookings && b in w'.payments
    requires w' == w.(payments := w.payments[b := w'.payments[b]], inFlight := w'.inFlight)
    requires !w'.payments[b].status.NotCharged? && !w'.payments[b].status.Pending?
    requires b in w.payments ==> (w.payments[b].paidAt.Some? ==> w'.payments[b].paidAt.Some?)
    requires if b in w.payments && w'.payments[b].amount == w.payments[b].amount then true
             else ReservingIds(w, b) != {} && w'.payments[b].amount == w.offers[Latest(ReservingIds(w, b))].total
    ensures Inv(w') && OnlyTouches(w, w', b)
  {
    PaymentTouches(w, w', b);
    hide OnlyTouches, OffersOk, AtMostOneEngaged, UniquePerRound;
    if ReservingIds(w, b) != {} {
      var id := Latest(ReservingIds(w, b));
      OfferIsOk(w, id);
      assert FolderOf(w, b).offers[id].IsReserved();
    }
    InvFromFolder(w, w', b);
  }

  lemma ChargeKeepsInv(w: World, b: BookingId, answer: Option<Answer>)
    requires Inv(w)
    ensures Inv(StartCharge(w, b, answer).0)
    ensures b in w.bookings ==> OnlyTouches(w, StartCharge(w, b, answer).0, b)
  {
    hide Inv, OnlyTouches;
    var w' := StartCharge(w, b, answer).0;
    if w' != w {
      PaymentRowKeepsInv(w, w', b);
    } else if b in w.bookings {
      Untouched(w, b);
    }
  }

  /** Whatever the provider, a retry, a refund or a reconciliation writes, the amount stays the frozen total. */
  lemma SettleKeepsInv(w: World, b: BookingId, e: PaymentEvent)
    requires Inv(w)
    ensures Inv(SettlePayment(w, b, e))
    ensures b in w.bookings ==> OnlyTouches(w, SettlePayment(w, b, e), b)
  {
    var w' := SettlePayment(w, b, e);
    if w' != w {
      assert PaymentOk(FolderOf(w, b));
      hide Inv, OnlyTouches;
      PaymentRowKeepsInv(w, w', b);
    } else if b in w.bookings {
      Untouched(w, b);
    }
  }

  lemma ConfirmingKeepsFolder(now: Time, f: Folder, f': Folder, id: OfferId)
    requires Consistent(now, f) && f.booking.status.Pending? && f.payment.Some?
    requires id in f.offers && f.offers[id].IsReserved()
    requires f'.offers == f.offers[id := f.offers[id].(status := Accepted)]
    requires f'.payment.Some? && f'.payment.value.paidAt.Some?
    requires f'.payment.value == f.payment.value.(paidAt := f'.payment.value.paidAt)
    requires f'.booking == f.booking.(status := Confirmed, dispatch := Assigned, assignee := Some(f.offers[id].contractor),
                                      computedPrice := Some(f.offers[id].total), version := Some(f.offers[id].version), updatedAt := now)
    ensures Consistent(now, f')
  {
    assert f.offers[id].Engages(now) && OfferOk(now, f.booking, f.offers[id]);
    forall j | j in f'.offers ensures OfferOk(now, f'.booking, f'.offers[j]) {
      assert OfferOk(now, f.booking, f.offers[j]);
    }
    assert f'.offers[id].status.Accepted? && ConfirmedWith(f'.booking, f'.offers);
    var j :| j in f.offers && f.offers[j].IsReserved() && f.offers[j].total == f.payment.value.amount;
    assert f.offers[j].Engages(now) && f'.offers[j].IsReserved();
  }

  lemma ConfirmKeepsInv(w: World, b: BookingId)
    requires Inv(w)
    ensures Inv(ConfirmPayment(w, b).0)
    ensures b in w.bookings ==> OnlyTouches(w, ConfirmPayment(w, b).0, b)
  {
    hide Consistent;
    var w' := ConfirmPayment(w, b).0;
    if w' != w {
      var id := Latest(ReservingIds(w, b));
      var f := FolderOf(w, b);
      assert id in f.offers && f.offers[id] == w.offers[id];
      PutTouches(w, id, w'.offers[id], w'.bookings[b], w.nextOffer);
      var unpaid := w'.(payments := w.payments);
      assert OffersOf(w', b) == OffersOf(unpaid, b);
      forall other | other in w.bookings && other != b ensures SameFolder(w, w', other) {
        assert SameFolder(w, unpaid, other);
        assert OffersOf(w', other) == OffersOf(unpaid, other);
      }
      ConfirmingKeepsFolder(w.now, f, FolderOf(w', b), id);
      InvFromFolder(w, w', b);
    }
  }

  // ---- Every step, every run -------------------------------------------------

  lemma StartIsSafe(now: Time, settings: Settings, config: Config)
    ensures Safe(Start(now, settings, config))
  {
  }

  lemma QuietIsSafe(w: World, w': World)
    requires Safe(w) && DistinctProfiles(w'.profiles) && w'.now == w.now && w'.nextOffer == w.nextOffer
    requires w'.bookings == w.bookings && w'.offers == w.offers && w'.payments == w.payments
    requires w'.inFlight.closing == w.inFlight.closing
    ensures Safe(w')
  {
    SurroundingsKeepInv(w, w');
    hide Inv, ClosingOk;
    SameRowsKeepClosings(w, w');
  }

  lemma TickIsSafe(w: World, to: Time)
    requires Safe(w) && w.now <= to
    ensures Safe(w.(now := to))
  {
    hide Consistent, ClosingOk;
    var w' := w.(now := to);
    SameRowsKeepClosings(w, w');
    forall b | b in w'.bookings ensures Consistent(to, FolderOf(w', b)) {
      assert FolderOf(w', b) == FolderOf(w, b);
      TimePasses(w.now, to, FolderOf(w, b));
    }
  }

  lemma ProfilesAreDistinct(w: World)
    requires Safe(w)
    ensures DistinctProfiles(w.profiles)
  {
  }

  lemma EditIsSafe(w: World, users: map<UserId, User>, profiles: seq<Profile>)
    requires Safe(w) && EnvironmentMay(w, users, profiles)
    ensures Safe(w.(users := users, profiles := profiles))
  {
    hide Safe;
    QuietIsSafe(w, w.(users := users, profiles := profiles));
  }

  lemma ElsewhereIsSafe(w: World, s: Step)
    requires Safe(w) && IsElsewhere(s)
    ensures Safe(Next(w, s))
  {
    ProfilesAreDistinct(w);
    hide Safe, EnvironmentMay, DistinctProfiles;
    if s.Tick? {
      if w.now <= s.to { TickIsSafe(w, s.to); }
    } else if s.Environment? {
      if EnvironmentMay(w, s.users, s.profiles) { EditIsSafe(w, s.users, s.profiles); }
    } else {
      hide Next;
      ElsewhereWrites(w, s);
      QuietIsSafe(w, Next(w, s));
    }
  }

  /** A transaction that took a free lock, and touched that booking only. */
  lemma LockedIsSafe(w: World, w': World, b: BookingId)
    requires Safe(w) && Inv(w') && (w' == w || OnlyTouches(w, w', b)) && !Locked(w, b)
    requires w'.now == w.now && w'.inFlight.closing == w.inFlight.closing
    ensures Safe(w')
  {
    hide Inv;
    if w' != w {
      assert w.inFlight.closing - {b} == w.inFlight.closing;
      ElsewhereKeepsClosings(w, w', b);
    }
  }

  lemma EndIsSafe(w: World, b: BookingId)
    requires Safe(w) && Locked(w, b)
    ensures Safe(FinishCancel(w, b))
  {
    hide Inv, OnlyTouches;
    assert ClosingOk(w, b);
    FinishKeepsInv(w, b);
    ElsewhereKeepsClosings(w, FinishCancel(w, b), b);
  }

  lemma DispatchIsSafe(w: World, b: BookingId, r: Reading)
    requires Safe(w) && b in w.bookings && !Locked(w, b)
    ensures Safe(AssignNextContractor(w, b, r).0)
  {
    hide Inv, OnlyTouches, ClosingOk, Decide;
    AssignKeepsInv(w, b, r);
    LockedIsSafe(w, AssignNextContractor(w, b, r).0, b);
  }

  lemma AcceptIsSafe(w: World, user: UserId, id: OfferId)
    requires Safe(w) && (id in w.offers ==> !Locked(w, w.offers[id].booking))
    ensures Safe(AcceptOffer(w, user, id).0)
  {
    hide Inv, OnlyTouches, ClosingOk, IsReserved, VisitPassed;
    if id in w.offers {
      AcceptKeepsInv(w, user, id);
      LockedIsSafe(w, AcceptOffer(w, user, id).0, w.offers[id].booking);
    }
  }

  lemma DeclineIsSafe(w: World, user: UserId, id: OfferId, r: Option<Reading>)
    requires Safe(w) && (id in w.offers ==> !Locked(w, w.offers[id].booking))
    ensures Safe(DeclineOffer(w, user, id, r).0)
  {
    hide Inv, OnlyTouches, ClosingOk, Decide, IsReserved;
    if id in w.offers {
      DeclineKeepsInv(w, user, id, r);
      LockedIsSafe(w, DeclineOffer(w, user, id, r).0, w.offers[id].booking);
    }
  }

  lemma ExpireIsSafe(w: World, id: OfferId, at: Time)
    requires Safe(w)
    ensures Safe(ExpireIfPending(w, id, at))
  {
    hide Inv, ClosingsOk;
    ExpireKeepsInv(w, id, at);
    ExpireKeepsClosings(w, id, at);
  }

  lemma LockedExist(w: World)
    requires ClosingsOk(w)
    ensures forall b :: Locked(w, b) ==> b in w.bookings
  {
    forall b | Locked(w, b) ensures b in w.bookings {
      assert ClosingOk(w, b);
    }
  }

  lemma CreateIsSafe(w: World, b: BookingId, user: UserId, q: Request)
    requires Safe(w) && b !in w.bookings && LookedUp(w, q)
    ensures Safe(CreateBooking(w, b, user, q).0)
  {
    hide Inv, OnlyTouches, ClosingOk, CreationError;
    CreateKeepsInv(w, b, user, q);
    LockedExist(w);
    if CreateBooking(w, b, user, q).1.Done? {
      LockedIsSafe(w, CreateBooking(w, b, user, q).0, b);
    } else {
      SameRowsKeepClosings(w, CreateBooking(w, b, user, q).0);
    }
  }

  lemma RescheduleIsSafe(w: World, user: UserId, b: BookingId, when: Option<Time>, zone: string)
    requires Safe(w) && !Locked(w, b)
    ensures Safe(RescheduleBooking(w, user, b, when, zone).0)
  {
    hide Inv, OnlyTouches, ClosingOk, SlotOf, Reschedulable;
    RescheduleKeepsInv(w, user, b, when, zone);
    LockedIsSafe(w, RescheduleBooking(w, user, b, when, zone).0, b);
  }

  lemma BeginIsSafe(w: World, actor: Option<UserId>, b: BookingId)
    requires Safe(w)
    ensures Safe(BeginCancel(w, actor, b).0)
  {
    hide Consistent, ClosingOk, CancelError;
    BeginKeepsClosings(w, actor, b);
    SurroundingsKeepInv(w, BeginCancel(w, actor, b).0);
  }

  lemma ChargeIsSafe(w: World, b: BookingId, answer: Option<Answer>)
    requires Safe(w)
    ensures Safe(StartCharge(w, b, answer).0)
  {
    hide Inv, OnlyTouches, ClosingOk;
    ChargeKeepsInv(w, b, answer);
    SameRowsKeepClosings(w, StartCharge(w, b, answer).0);
  }

  lemma SettleIsSafe(w: World, b: BookingId, e: PaymentEvent)
    requires Safe(w)
    ensures Safe(SettlePayment(w, b, e))
  {
    hide Inv, OnlyTouches, ClosingOk;
    SettleKeepsInv(w, b, e);
    SameRowsKeepClosings(w, SettlePayment(w, b, e));
  }

  lemma ConfirmIsSafe(w: World, b: BookingId)
    requires Safe(w) && !Locked(w, b)
    ensures Safe(ConfirmPayment(w, b).0)
  {
    hide Inv, OnlyTouches, ClosingOk;
    ConfirmKeepsInv(w, b);
    LockedIsSafe(w, ConfirmPayment(w, b).0, b);
  }

  /** Every step keeps every booking consistent, and every cancellation in progress able to finish. */
  lemma NextKeepsInv(w: World, s: Step)
    requires Safe(w)
    ensures Safe(Next(w, s))
  {
    hide Safe, AssignNextContractor, AcceptOffer, DeclineOffer, ExpireIfPending, RescheduleBooking, BeginCancel,
         FinishCancel, StartCharge, SettlePayment, ConfirmPayment, CreateBooking;
    match s
    case Create(b, user, q) => if b !in w.bookings && LookedUp(w, q) { CreateIsSafe(w, b, user, q); }
    case Dispatch(b, r) => if b in w.bookings && !Locked(w, b) { DispatchIsSafe(w, b, r); }
    case Accept(user, id) => if !Waits(w, s) { AcceptIsSafe(w, user, id); }
    case Decline(user, id, r) => if !Waits(w, s) { DeclineIsSafe(w, user, id, r); }
    case Expire(id, snapshot) => ExpireIsSafe(w, id, snapshot);
    case Reschedule(user, b, when, zone) => if !Locked(w, b) { RescheduleIsSafe(w, user, b, when, zone); }
    case StartCancel(actor, b) => BeginIsSafe(w, actor, b);
    case EndCancel(b) => if Locked(w, b) { EndIsSafe(w, b); }
    case Charge(b, answer) => ChargeIsSafe(w, b, answer);
    case Settle(b, e) => SettleIsSafe(w, b, e);
    case Confirm(b) => if !Locked(w, b) { ConfirmIsSafe(w, b); }
    case _ => ElsewhereIsSafe(w, s);
  }

  lemma {:induction false} RunKeepsInv(w: World, steps: seq<Step>)
    requires Safe(w)
    ensures Safe(Run(w, steps))
  {
    if steps != [] {
      RunKeepsInv(w, steps[..|steps| - 1]);
      NextKeepsInv(Run(w, steps[..|steps| - 1]), steps[|steps| - 1]);
    }
  }
}
