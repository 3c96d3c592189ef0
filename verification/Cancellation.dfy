/** A cancellation reads its list of open offers, then closes it, while sweeps may commit in between. */
module Cancellation {
  import opened Domain
  import opened Worlds
  import opened Candidates
  import opened Frames
  import opened Protocol
  import opened Safety
  import opened History
  import opened Databases
  import opened Interleaving
  import BookingService
  import ExpirySweep

  // ---- What holds while the lock is held -------------------------------------

  lemma OthersHold(w: World, s: Step, b: BookingId)
    requires Locked(w, b) && s != EndCancel(b) && (s.StartCancel? || s.EndCancel?)
    ensures Locked(Next(w, s), b) && Next(w, s).inFlight.closing[b] == w.inFlight.closing[b]
  {
    hide CancelError, FinishCancel;
    match s
    case StartCancel(_, _) =>
    case EndCancel(k) => CancellingWrites(w, None, k);
  }

  /** Only the cancellation that took the lock gives it back, with the list it read. */
  lemma HoldsOn(w: World, s: Step, b: BookingId)
    requires Locked(w, b) && s != EndCancel(b)
    ensures Locked(Next(w, s), b) && Next(w, s).inFlight.closing[b] == w.inFlight.closing[b]
  {
    hide Next;
    if s.StartCancel? || s.EndCancel? {
      OthersHold(w, s, b);
    } else {
      StepWrites(w, s);
    }
  }

  /** The booking stands still, and its offers too, but for a sweep that may close a lapsed one. */
  ghost predicate Waiting(w: World, w': World, b: BookingId)
    requires b in w.bookings
  {
    && b in w'.bookings && w'.bookings[b] == w.bookings[b]
    && OffersOf(w', b).Keys == OffersOf(w, b).Keys
    && forall id :: id in OffersOf(w, b) ==> w'.offers[id] == w.offers[id] || TimedOutSince(w.offers[id], w'.offers[id])
  }

  predicate TimedOutSince(o: Offer, o': Offer) {
    && o.status.Pending? && o'.respondedAt.Some? && o'.respondedAt.value > o.expiresAt
    && o' == TimedOutOffer(o, o'.respondedAt.value)
  }

  lemma ElsewhereWaits(w: World, w': World, b: BookingId, other: BookingId)
    requires OnlyTouches(w, w', other) && b in w.bookings && other != b
    ensures Waiting(w, w', b) && OffersOf(w', b) == OffersOf(w, b)
  {
    assert SameFolder(w, w', b);
    forall id | id in OffersOf(w, b) ensures id in w'.offers && w'.offers[id] == w.offers[id] {
      assert OffersOf(w', b)[id] == OffersOf(w, b)[id];
    }
  }

  lemma RowsWait(w: World, w': World, b: BookingId)
    requires w'.bookings == w.bookings && w'.offers == w.offers && b in w.bookings
    ensures Waiting(w, w', b) && OffersOf(w', b) == OffersOf(w, b)
  {
  }

  lemma ExpireWaits(w: World, id: OfferId, at: Time, b: BookingId)
    requires b in w.bookings && (id in w.offers ==> w.offers[id].expiresAt < at)
    ensures Waiting(w, ExpireIfPending(w, id, at), b)
  {
  }

  /** While the lock is held, a step leaves the booking alone; only a sweep's update may close an offer of it. */
  ghost predicate LeavesWaiting(w: World, s: Step, b: BookingId) {
    && b in w.bookings && Waiting(w, Next(w, s), b)
    && (!s.Expire? ==> OffersOf(Next(w, s), b) == OffersOf(w, b))
  }

  lemma DispatchSideWaits(w: World, s: Step, b: BookingId)
    requires Safe(w) && Locked(w, b) && b in w.bookings && IsDispatchSide(s) && !Waits(w, s)
    ensures LeavesWaiting(w, s, b)
  {
    hide AssignNextContractor, AcceptOffer, DeclineOffer, ExpireIfPending, OnlyTouches, Inv, ClosingsOk, Waiting;
    RowsWait(w, w, b);
    match s
    case Dispatch(k, r) =>
      if k in w.bookings {
        AssignKeepsInv(w, k, r);
        ElsewhereWaits(w, Next(w, s), b, k);
      }
    case Accept(user, id) =>
      if id in w.offers {
        AcceptKeepsInv(w, user, id);
        ElsewhereWaits(w, Next(w, s), b, w.offers[id].booking);
      } else {
        UnknownOffer(w, user, id, None);
      }
    case Decline(user, id, r) =>
      if id in w.offers {
        DeclineKeepsInv(w, user, id, r);
        ElsewhereWaits(w, Next(w, s), b, w.offers[id].booking);
      } else {
        UnknownOffer(w, user, id, r);
      }
    case Expire(id, snapshot) =>
      if snapshot <= w.now && (id in w.offers ==> w.offers[id].expiresAt < snapshot) { ExpireWaits(w, id, snapshot, b); }
  }

  lemma UnknownOffer(w: World, user: UserId, id: OfferId, r: Option<Reading>)
    requires id !in w.offers
    ensures AcceptOffer(w, user, id).0 == w && DeclineOffer(w, user, id, r).0 == w
  {
  }

  lemma CreateWaits(w: World, k: BookingId, user: UserId, q: Request, b: BookingId)
    requires Inv(w) && k !in w.bookings && LookedUp(w, q) && b in w.bookings
    ensures var w' := CreateBooking(w, k, user, q).0; Waiting(w, w', b) && OffersOf(w', b) == OffersOf(w, b)
  {
    hide CreationError, NewBooking, OnlyTouches, Inv, Waiting;
    CreateKeepsInv(w, k, user, q);
    if CreateBooking(w, k, user, q).1.Done? {
      ElsewhereWaits(w, CreateBooking(w, k, user, q).0, b, k);
    } else {
      RowsWait(w, CreateBooking(w, k, user, q).0, b);
    }
  }

  lemma RescheduleWaits(w: World, user: UserId, k: BookingId, when: Option<Time>, zone: string, b: BookingId)
    requires Inv(w) && b in w.bookings && b != k
    ensures var w' := RescheduleBooking(w, user, k, when, zone).0; Waiting(w, w', b) && OffersOf(w', b) == OffersOf(w, b)
  {
    hide OnlyTouches, Inv, Waiting, RescheduleBooking;
    RescheduleKeepsInv(w, user, k, when, zone);
    if k in w.bookings {
      ElsewhereWaits(w, RescheduleBooking(w, user, k, when, zone).0, b, k);
    } else {
      UnknownBooking(w, user, k, when, zone);
      RowsWait(w, w, b);
    }
  }

  lemma EndWaits(w: World, k: BookingId, b: BookingId)
    requires Safe(w) && Locked(w, k) && k in w.bookings && b in w.bookings && b != k
    ensures Waiting(w, FinishCancel(w, k), b) && OffersOf(FinishCancel(w, k), b) == OffersOf(w, b)
  {
    assert ClosingOk(w, k);
    hide OnlyTouches, Inv, Waiting, ClosingOk, ClosingsOk, FinishCancel;
    FinishKeepsInv(w, k);
    ElsewhereWaits(w, FinishCancel(w, k), b, k);
  }

  lemma CancellingSideWaits(w: World, s: Step, b: BookingId)
    requires Safe(w) && Locked(w, b) && b in w.bookings && (s.StartCancel? || s.EndCancel?) && s != EndCancel(b)
    ensures LeavesWaiting(w, s, b)
  {
    hide BeginCancel, FinishCancel, Safe, Waiting, OffersOf;
    RowsWait(w, w, b);
    if s.StartCancel? {
      CancellingWrites(w, s.actor, s.b);
      RowsWait(w, Next(w, s), b);
    } else if Locked(w, s.b) && s.b in w.bookings {
      EndWaits(w, s.b, b);
    }
  }

  lemma CustomerSideWaits(w: World, s: Step, b: BookingId)
    requires Inv(w) && Locked(w, b) && b in w.bookings && (s.Create? || s.Reschedule?) && !Waits(w, s)
    ensures LeavesWaiting(w, s, b)
  {
    hide RescheduleBooking, CreateBooking, Inv, Waiting, OffersOf, LookedUp;
    RowsWait(w, w, b);
    match s
    case Create(k, user, q) => if k !in w.bookings && LookedUp(w, q) { CreateWaits(w, k, user, q, b); }
    case Reschedule(user, k, when, zone) => RescheduleWaits(w, user, k, when, zone, b);
  }

  lemma UnknownBooking(w: World, user: UserId, b: BookingId, when: Option<Time>, zone: string)
    requires b !in w.bookings
    ensures RescheduleBooking(w, user, b, when, zone).0 == w && ConfirmPayment(w, b).0 == w
  {
  }

  lemma PaymentSideWaits(w: World, s: Step, b: BookingId)
    requires Safe(w) && Locked(w, b) && b in w.bookings && IsPaymentSide(s) && !Waits(w, s)
    ensures LeavesWaiting(w, s, b)
  {
    hide StartCharge, SettlePayment, ConfirmPayment, OnlyTouches, Inv, ClosingsOk, Waiting;
    match s
    case Charge(k, answer) =>
      ChargeWrites(w, k, answer);
      RowsWait(w, Next(w, s), b);
    case Settle(k, e) =>
      SettleWrites(w, k, e);
      RowsWait(w, Next(w, s), b);
    case Confirm(k) =>
      if k in w.bookings {
        ConfirmKeepsInv(w, k);
        ElsewhereWaits(w, Next(w, s), b, k);
      } else {
        UnknownBooking(w, 0, k, None, "");
        RowsWait(w, w, b);
      }
  }

  lemma SurroundingsWait(w: World, s: Step, b: BookingId)
    requires b in w.bookings && IsElsewhere(s)
    ensures LeavesWaiting(w, s, b)
  {
    StepWrites(w, s);
    hide Next, Waiting;
    RowsWait(w, Next(w, s), b);
  }

  lemma StepWaits(w: World, s: Step, b: BookingId)
    requires Safe(w) && Locked(w, b) && s != EndCancel(b)
    ensures LeavesWaiting(w, s, b)
  {
    LockedExist(w);
    hide Transact, Inv, ClosingsOk, Waiting, Waits;
    if Waits(w, s) {
      RowsWait(w, w, b);
    } else if IsDispatchSide(s) {
      DispatchSideWaits(w, s, b);
    } else if IsPaymentSide(s) {
      PaymentSideWaits(w, s, b);
    } else if s.Create? || s.Reschedule? {
      CustomerSideWaits(w, s, b);
    } else if s.StartCancel? || s.EndCancel? {
      CancellingSideWaits(w, s, b);
    } else {
      SurroundingsWait(w, s, b);
    }
  }

  lemma SafeLocks(w: World)
    requires Safe(w)
    ensures forall b :: Locked(w, b) ==> b in w.bookings
  {
    LockedExist(w);
  }

  lemma WaitingTransitive(w0: World, w1: World, w2: World, b: BookingId)
    requires b in w0.bookings && Waiting(w0, w1, b) && Waiting(w1, w2, b)
    ensures Waiting(w0, w2, b)
  {
    forall id | id in OffersOf(w0, b) ensures w2.offers[id] == w0.offers[id] || TimedOutSince(w0.offers[id], w2.offers[id]) {
      assert id in OffersOf(w1, b) && id in OffersOf(w2, b);
    }
  }

  /** The lock is held, with the list as it was read, until its own cancellation ends; the booking waits meanwhile. */
  lemma {:induction false} RunWaits(w: World, others: seq<Step>, b: BookingId)
    requires Safe(w) && Locked(w, b) && EndCancel(b) !in others
    ensures Safe(Run(w, others)) && b in w.bookings && Waiting(w, Run(w, others), b)
    ensures Locked(Run(w, others), b) && Run(w, others).inFlight.closing[b] == w.inFlight.closing[b]
  {
    SafeLocks(w);
    hide Next, Safe, Waiting;
    if others == [] {
      RowsWait(w, w, b);
    } else {
      var n := |others| - 1;
      RunWaits(w, others[..n], b);
      NextKeepsInv(Run(w, others[..n]), others[n]);
      HoldsOn(Run(w, others[..n]), others[n], b);
      StepWaits(Run(w, others[..n]), others[n], b);
      WaitingTransitive(w, Run(w, others[..n]), Run(w, others), b);
    }
  }

  // ---- A sweep in between ----------------------------------------------------

  /** The n-th of the other steps is a sweep's update that takes the offer out of PENDING. */
  ghost predicate SweptAt(w: World, others: seq<Step>, n: nat, id: OfferId) {
    && n < |others| && others[n].Expire? && others[n].id == id
    && IsPending(Run(w, others[..n]), id) && !IsPending(Run(w, others[..n + 1]), id)
  }

  /** One of them does. */
  ghost predicate Overtaken(w: World, others: seq<Step>, id: OfferId) {
    exists n: nat :: SweptAt(w, others, n, id)
  }

  /** An offer that was pending and is not has been swept. */
  lemma {:induction false} SettledWasSwept(w: World, others: seq<Step>, b: BookingId, id: OfferId)
    requires Safe(w) && Locked(w, b) && EndCancel(b) !in others && b in w.bookings && id in OffersOf(w, b)
    requires IsPending(w, id) && !IsPending(Run(w, others), id)
    ensures Overtaken(w, others, id)
  {
    hide Safe, Next;
    assert others != [];
    var n := |others| - 1;
    RunWaits(w, others[..n], b);
    if IsPending(Run(w, others[..n]), id) {
      OnlySweepsSettle(Run(w, others[..n]), others[n], b, id);
      assert others[..n + 1] == others;
      assert SweptAt(w, others, n, id);
    } else {
      SettledWasSwept(w, others[..n], b, id);
      var m: nat :| SweptAt(w, others[..n], m, id);
      assert others[..n][..m] == others[..m] && others[..n][..m + 1] == others[..m + 1];
      assert SweptAt(w, others, m, id);
    }
  }

  lemma SameOffers(w: World, w': World, b: BookingId, id: OfferId)
    requires OffersOf(w', b) == OffersOf(w, b) && id in w.offers && w.offers[id].booking == b
    ensures id in w'.offers && w'.offers[id] == w.offers[id]
  {
    assert id in OffersOf(w', b) && OffersOf(w', b)[id] == OffersOf(w, b)[id];
  }

  lemma ExpireTouchesOne(w: World, s: Step, id: OfferId)
    requires s.Expire? && s.id != id && IsPending(w, id)
    ensures IsPending(Next(w, s), id)
  {
  }

  /** While the lock is held only its own update takes an offer out of PENDING. */
  lemma OnlySweepsSettle(w: World, s: Step, b: BookingId, id: OfferId)
    requires Safe(w) && Locked(w, b) && s != EndCancel(b)
    requires IsPending(w, id) && w.offers[id].booking == b && !IsPending(Next(w, s), id)
    ensures s.Expire? && s.id == id
  {
    hide Safe, Locked, OffersOf, Next;
    StepWaits(w, s, b);
    if !s.Expire? {
      SameOffers(w, Next(w, s), b, id);
    } else if s.id != id {
      ExpireTouchesOne(w, s, id);
    }
  }

  /** And a swept offer was pending before and is not after. */
  lemma SweptIsSettled(w: World, others: seq<Step>, id: OfferId)
    requires Safe(w) && id < w.nextOffer && Overtaken(w, others, id)
    ensures IsPending(w, id) && !IsPending(Run(w, others), id)
  {
    hide Run, Safe, IsPending;
    var n: nat :| SweptAt(w, others, n, id);
    RunNothing(w);
    assert [] + others[..n] == others[..n] && others[..n + 1] + others[n + 1..] == others;
    ExpirySweep.SettledStays(w, [], others[..n], id);
    ExpirySweep.SettledStays(w, others[..n + 1], others[n + 1..], id);
  }

  // ---- The whole cancellation ------------------------------------------------

  lemma AttemptsDoNotCancel(w: World, k: BookingId, r: Reading, b: BookingId)
    requires k in w.bookings && b in w.bookings
    ensures IsCancelled(AssignNextContractor(w, k, r).0, b) <==> IsCancelled(w, b)
  {
    hide Decide;
  }

  lemma RefusalsDoNotCancel(w: World, user: UserId, id: OfferId, r: Option<Reading>, b: BookingId)
    requires b in w.bookings
    ensures IsCancelled(DeclineOffer(w, user, id, r).0, b) <==> IsCancelled(w, b)
  {
    hide AssignNextContractor, IsReserved;
    if DeclineOffer(w, user, id, r).0 != w && r.Some? {
      AttemptsDoNotCancel(PutOffer(w, id, DeclinedOffer(w.offers[id], w.now)), w.offers[id].booking, r.value, b);
    }
  }

  lemma CustomersDoNotCancel(w: World, s: Step, b: BookingId)
    requires b in w.bookings && (s.Create? || s.Reschedule?)
    ensures IsCancelled(Next(w, s), b) ==> IsCancelled(w, b)
  {
    hide CreationError, OwnerError, SlotOf, Reschedulable, LookedUp;
  }

  lemma PaymentsDoNotCancel(w: World, s: Step, b: BookingId)
    requires b in w.bookings && s.Confirm?
    ensures IsCancelled(Next(w, s), b) ==> IsCancelled(w, b)
  {
  }

  /** No other step cancels a booking. */
  lemma OnlyEndsCancel(w: World, s: Step, b: BookingId)
    requires b in w.bookings && !s.EndCancel?
    ensures IsCancelled(Next(w, s), b) ==> IsCancelled(w, b)
  {
    hide AssignNextContractor, DeclineOffer;
    match s
    case Dispatch(k, r) => if k in w.bookings { AttemptsDoNotCancel(w, k, r, b); }
    case Decline(user, id, r) => RefusalsDoNotCancel(w, user, id, r, b);
    case Create(_, _, _) => hide Next; CustomersDoNotCancel(w, s, b);
    case Reschedule(_, _, _, _) => hide Next; CustomersDoNotCancel(w, s, b);
    case Confirm(_) => hide Next; PaymentsDoNotCancel(w, s, b);
    case _ => hide Next; StepWrites(w, s);
  }

  lemma Evolution(w: World, w': World, id: OfferId)
    requires Evolves(w, w') && id in w.offers && id < w.nextOffer && id in w'.offers && !IsOpen(w.offers[id])
    ensures w'.offers[id] == w.offers[id]
            || (IsCancelled(w', w.offers[id].booking) && !IsCancelled(w, w.offers[id].booking))
  {
  }

  /** Nothing but the end of a cancellation touches a closed offer. */
  lemma ClosedStays(w: World, s: Step, id: OfferId)
    requires Safe(w) && id in w.offers && !IsOpen(w.offers[id]) && !s.EndCancel? && id in Next(w, s).offers
    ensures Next(w, s).offers[id] == w.offers[id]
  {
    assert Inv(w);
    hide Safe, Inv, Next, Evolves;
    OfferIsOk(w, id);
    NextEvolves(w, s);
    Evolution(w, Next(w, s), id);
    OnlyEndsCancel(w, s, w.offers[id].booking);
  }

  lemma EndChangesIff(w: World, b: BookingId, id: OfferId)
    requires Safe(w) && Locked(w, b) && id in w.offers && !IsOpen(w.offers[id])
    ensures id in Next(w, EndCancel(b)).offers
    ensures Next(w, EndCancel(b)).offers[id] != w.offers[id] <==> id in w.inFlight.closing[b].affected
  {
    assert ClosingOk(w, b);
    EndIsNext(w, b);
    hide Safe, Inv, ClosingOk, ClosingsOk, FinishCancel, Next;
    FinishedOffer(w, b, id);
    if id in w.inFlight.closing[b].affected {
      OnTheList(w, b, id);
    }
  }

  /** A closed offer changes in a step exactly if the step ends a cancellation that had read it as open. */
  lemma ClosedOfferChangesIff(w: World, s: Step, id: OfferId)
    requires Safe(w) && id in w.offers && !IsOpen(w.offers[id]) && id in Next(w, s).offers
    ensures Next(w, s).offers[id] != w.offers[id] <==>
            s.EndCancel? && Locked(w, s.b) && id in w.inFlight.closing[s.b].affected
  {
    hide Safe, FinishCancel;
    if s.EndCancel? {
      if Locked(w, s.b) { EndChangesIff(w, s.b, id); }
    } else {
      hide Next;
      ClosedStays(w, s, id);
    }
  }

  /** What the end of a cancellation does: the listed offers are closed, no offer of the booking is open any more. */
  lemma FinishCloses(w: World, b: BookingId, id: OfferId)
    requires Safe(w) && Locked(w, b) && id in w.offers
    ensures b in w.bookings
    ensures var w' := FinishCancel(w, b);
            && IsCancelled(w', b) && OnlyTouches(w, w', b) && id in w'.offers
            && w'.offers[id] == (if id in w.inFlight.closing[b].affected
                                 then ClosedByCancellation(w.offers[id], w.inFlight.closing[b].at) else w.offers[id])
            && (w.offers[id].booking == b ==> !IsOpen(w'.offers[id]))
            && (w.offers[id].booking != b ==> w'.offers[id] == w.offers[id])
  {
    assert ClosingOk(w, b);
    FinishKeepsInv(w, b);
    FinishedOffer(w, b, id);
    if id in w.inFlight.closing[b].affected {
      OnTheList(w, b, id);
    } else if w.offers[id].booking == b {
      assert OffersOf(w, b)[id] == w.offers[id];
    }
  }

  /** The list a cancellation reads is still its list at its end. */
  lemma ListKept(w: World, actor: Option<UserId>, b: BookingId, others: seq<Step>)
    requires Safe(w) && !Locked(w, b) && BeginCancel(w, actor, b).1.Done? && EndCancel(b) !in others
    ensures var before := Run(Next(w, StartCancel(actor, b)), others);
            && Safe(before) && Locked(before, b) && before.inFlight.closing[b] == Closing(OpenIds(w, b), w.now)
            && b in w.bookings && Waiting(w, before, b)
  {
    var begun := Next(w, StartCancel(actor, b));
    CancellingWrites(w, actor, b);
    NextKeepsInv(w, StartCancel(actor, b));
    assert Locked(begun, b) && begun.inFlight.closing[b] == Closing(OpenIds(w, b), w.now);
    hide Run, Safe, Waiting;
    RunWaits(begun, others, b);
    RowsWait(w, begun, b);
    WaitingTransitive(w, begun, Run(begun, others), b);
  }

  /** An offer while its booking waits. */
  lemma OfferWaits(w: World, w': World, b: BookingId, id: OfferId)
    requires b in w.bookings && Waiting(w, w', b) && id in w.offers && w.offers[id].booking == b
    ensures id in w'.offers && (w'.offers[id] == w.offers[id] || TimedOutSince(w.offers[id], w'.offers[id]))
  {
    assert id in OffersOf(w, b) && id in OffersOf(w', b);
  }

  /** What the first statement leaves: the lock, and everything else as it was. */
  lemma Begun(w: World, actor: Option<UserId>, b: BookingId, id: OfferId)
    requires Safe(w) && !Locked(w, b) && BeginCancel(w, actor, b).1.Done?
    requires id in w.offers && w.offers[id].booking == b
    ensures var begun := Next(w, StartCancel(actor, b));
            && Locked(begun, b) && b in begun.bookings && id in OffersOf(begun, b) && id < begun.nextOffer
            && IsPending(begun, id) == IsPending(w, id)
  {
    OfferIsOk(w, id);
    CancellingWrites(w, actor, b);
    BeginIsNext(w, actor, b);
    hide Safe, Inv, Next;
  }

  /** An offer is swept in between exactly if it was pending and is not. */
  lemma OvertakenIff(w: World, actor: Option<UserId>, b: BookingId, others: seq<Step>, id: OfferId)
    requires Safe(w) && !Locked(w, b) && BeginCancel(w, actor, b).1.Done? && EndCancel(b) !in others
    requires id in w.offers && w.offers[id].booking == b
    ensures var begun := Next(w, StartCancel(actor, b));
            Overtaken(begun, others, id) <==> IsPending(w, id) && !IsPending(Run(begun, others), id)
  {
    hide *;
    var begun := Next(w, StartCancel(actor, b));
    Begun(w, actor, b, id);
    NextKeepsInv(w, StartCancel(actor, b));
    if Overtaken(begun, others, id) {
      SweptIsSettled(begun, others, id);
    } else if IsPending(begun, id) && !IsPending(Run(begun, others), id) {
      SettledWasSwept(begun, others, b, id);
    }
  }

  /** The end of a cancellation, seen from the list it has kept. */
  lemma EndEffect(w: World, before: World, b: BookingId, id: OfferId)
    requires Safe(before) && Locked(before, b) && before.inFlight.closing[b] == Closing(OpenIds(w, b), w.now)
    requires id in w.offers && w.offers[id].booking == b && id in before.offers && before.offers[id].booking == b
    ensures var after := Next(before, EndCancel(b));
            && id in after.offers && IsCancelled(after, b)
            && after.offers[id] == if IsOpen(w.offers[id]) then ClosedByCancellation(before.offers[id], w.now)
                                   else before.offers[id]
  {
    hide Safe, FinishCancel;
    FinishCloses(before, b, id);
  }

  lemma OverwrittenIff(o: Offer, o1: Offer, o2: Offer, at: Time)
    requires o1 == o || TimedOutSince(o, o1)
    requires o2 == if IsOpen(o) then ClosedByCancellation(o1, at) else o1
    ensures !IsOpen(o1) && o2 != o1 <==> o.status.Pending? && !o1.status.Pending?
    ensures !IsOpen(o) ==> o2 == o
    ensures o.status.Pending? && !o1.status.Pending? ==> TimedOutSince(o, o1)
  {
  }

  /**
   * A cancellation from its first statement to its last, with others in between: it closes exactly the offers that
   * were open at the start, and it overwrites a closed one exactly if a sweep closed that one in between.
   */
  lemma RewrittenIff(w: World, actor: Option<UserId>, b: BookingId, others: seq<Step>, id: OfferId)
    requires Safe(w) && !Locked(w, b) && BeginCancel(w, actor, b).1.Done? && EndCancel(b) !in others
    requires id in w.offers && w.offers[id].booking == b
    ensures var begun := Next(w, StartCancel(actor, b));
            var before := Run(begun, others);
            var after := Next(before, EndCancel(b));
            && id in before.offers && id in after.offers && IsCancelled(after, b)
            && after.offers[id] == (if IsOpen(w.offers[id]) then ClosedByCancellation(before.offers[id], w.now)
                                    else w.offers[id])
            && (!IsOpen(before.offers[id]) && after.offers[id] != before.offers[id] <==> Overtaken(begun, others, id))
            && (Overtaken(begun, others, id) ==> TimedOutSince(w.offers[id], before.offers[id]))
  {
    hide *;
    var before := Run(Next(w, StartCancel(actor, b)), others);
    ListKept(w, actor, b, others);
    OfferWaits(w, before, b, id);
    SameBooking(w.offers[id], before.offers[id]);
    EndEffect(w, before, b, id);
    OverwrittenIff(w.offers[id], before.offers[id], Next(before, EndCancel(b)).offers[id], w.now);
    OvertakenIff(w, actor, b, others, id);
    Pending(w, id);
    Pending(before, id);
  }

  lemma SameBooking(o: Offer, o': Offer)
    requires o' == o || TimedOutSince(o, o')
    ensures o'.booking == o.booking
  {
  }

  lemma Pending(w: World, id: OfferId)
    requires id in w.offers
    ensures IsPending(w, id) <==> w.offers[id].status.Pending?
  {
  }

  /**
   * The two statements of a cancellation, with what others commit in between. Others may end any cancellation but
   * this one.
   */
  method Cancel(db: Database, actor: Option<UserId>, b: BookingId, others: seq<Step>, ghost w: World,
                ghost trace: seq<Step>)
    returns (outcome: Outcome)
    requires Safe(w) && db.Value() == Run(w, trace) && !Locked(db.Value(), b) && EndCancel(b) !in others
    modifies db
    ensures outcome == old(BeginCancel(db.Value(), actor, b)).1
    ensures db.Value() == Run(w, trace + [StartCancel(actor, b)] + if outcome.Done? then others + [EndCancel(b)] else [])
  {
    hide *;
    ghost var start := db.Value();
    ghost var begun := trace + [StartCancel(actor, b)];
    RunKeepsInv(w, trace);
    BeginIsNext(start, actor, b);
    outcome := BookingService.BeginCancelling(db, actor, b);
    RunThen(w, trace, StartCancel(actor, b));
    if outcome.Done? {
      Play(db, others, w, begun);
      RunConcat(w, begun, others);
      ListKept(start, actor, b, others);
      EndIsNext(db.Value(), b);
      RunThen(w, begun + others, EndCancel(b));
      BookingService.FinishCancelling(db, b);
      assert begun + others + [EndCancel(b)] == begun + (others + [EndCancel(b)]);
    } else {
      assert begun + [] == begun;
    }
  }

  lemma BeginIsNext(w: World, actor: Option<UserId>, b: BookingId)
    requires !Locked(w, b)
    ensures Next(w, StartCancel(actor, b)) == BeginCancel(w, actor, b).0
  {
    hide BeginCancel;
  }

  lemma EndIsNext(w: World, b: BookingId)
    requires Safe(w) && Locked(w, b)
    ensures b in w.bookings && Next(w, EndCancel(b)) == FinishCancel(w, b)
  {
    hide Safe, FinishCancel;
    SafeLocks(w);
  }

  // ---- Those who waited ------------------------------------------------------

  lemma NothingToAnswer(w: World, b: BookingId, user: UserId, id: OfferId, r: Option<Reading>)
    requires Inv(w) && IsCancelled(w, b) && id in w.offers && w.offers[id].booking == b
    ensures AcceptOffer(w, user, id).0 == w && DeclineOffer(w, user, id, r).0 == w
  {
    hide AssignNextContractor;
    OfferIsOk(w, id);
  }

  lemma NothingToCharge(w: World, b: BookingId, answer: Option<Answer>)
    requires Inv(w) && IsCancelled(w, b)
    ensures ReservingIds(w, b) == {} && StartCharge(w, b, answer).0 == w
  {
    forall id | id in ReservingIds(w, b) ensures false {
      OfferIsOk(w, id);
    }
  }

  /** Whoever waited for the lock finds the booking cancelled: nothing is left to do but to settle a charge already made. */
  lemma NothingLeftToDo(w: World, s: Step, b: BookingId)
    requires Inv(w) && IsCancelled(w, b) && LockTaken(w, s) == Some(b)
    ensures if s.Settle? then Transact(w, s).bookings == w.bookings && Transact(w, s).offers == w.offers
            else Transact(w, s) == w
  {
    hide Inv, AcceptOffer, DeclineOffer, StartCharge, SettlePayment, HasLiveOffer, IsReserved, SlotOf, OwnerError, NewOffer,
         FindCandidates;
    match s
    case Accept(user, id) => NothingToAnswer(w, b, user, id, None);
    case Decline(user, id, r) => NothingToAnswer(w, b, user, id, r);
    case Charge(_, answer) => NothingToCharge(w, b, answer);
    case Settle(_, e) => SettleWrites(w, b, e);
    case Dispatch(_, _) =>
    case Reschedule(_, _, _, _) =>
    case StartCancel(_, _) =>
    case Confirm(_) =>
  }
}
