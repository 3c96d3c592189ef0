/** The money rules: what may be charged, and what a charge, a confirmation and a cancellation leave behind. */
module PaymentRules {
  import opened Domain
  import opened Worlds
  import opened Candidates
  import opened Frames
  import opened Protocol
  import opened Safety
  import opened History
  import opened Cancellation

  /** The frozen total of the accepted offer, else the price written on the booking. */
  function ExpectedAmount(w: World, b: BookingId): Option<Cents>
    requires b in w.bookings
  {
    if ReservingIds(w, b) != {} then Some(w.offers[Latest(ReservingIds(w, b))].total)
    else w.bookings[b].computedPrice
  }

  /** Model validation of a payment row. */
  predicate PassesClean(w: World, b: BookingId, amount: Cents)
    requires b in w.bookings
  {
    var expected := ExpectedAmount(w, b);
    expected.Some? && amount == expected.value && WithinCeiling(w.bookings[b], amount)
  }

  /** A confirmed booking is still reserved by the offer it was confirmed with. */
  lemma ConfirmedIsReserved(w: World, b: BookingId)
    requires Inv(w) && b in w.bookings && w.bookings[b].status.Confirmed?
    ensures ReservingIds(w, b) != {}
  {
    var f := FolderOf(w, b);
    assert AssignmentOk(f);
    var id :| id in f.offers && f.offers[id].status.Accepted?;
    assert id in ReservingIds(w, b);
  }

  lemma UnreservedIsUnpriced(w: World, b: BookingId)
    requires Inv(w) && b in w.bookings && ReservingIds(w, b) == {}
    ensures w.bookings[b].computedPrice == None
  {
    if w.bookings[b].status.Confirmed? {
      ConfirmedIsReserved(w, b);
    }
    assert AssignmentOk(FolderOf(w, b));
  }

  /** Validation accepts exactly the frozen total of the one offer that reserves the booking. */
  lemma CleanIsExact(w: World, b: BookingId, amount: Cents)
    requires Inv(w) && b in w.bookings
    ensures PassesClean(w, b, amount) <==>
            exists id :: ReservingIds(w, b) == {id} && w.offers[id].total == amount
  {
    if ReservingIds(w, b) == {} {
      UnreservedIsUnpriced(w, b);
    } else {
      var id := Latest(ReservingIds(w, b));
      ReservingIsUnique(w, b, id);
      OfferIsOk(w, id);
      assert ReservingIds(w, b) == {id};
    }
  }

  /** The charge that acceptance starts always passes validation, whatever the provider answers. */
  lemma ChargePassesClean(w: World, b: BookingId, answer: Option<Answer>)
    requires Inv(w) && b in w.bookings && b !in w.payments && ReservingIds(w, b) != {}
    ensures var w' := StartCharge(w, b, answer).0;
            b in w'.payments && PassesClean(w, b, w'.payments[b].amount)
  {
    OfferIsOk(w, Latest(ReservingIds(w, b)));
  }

  /** A retry takes the total of the reserving offer again: it is the amount already on the record. */
  lemma RetryKeepsAmount(w: World, b: BookingId, user: UserId)
    requires Inv(w) && b in w.payments && MayHappen(w, b, Retried(user))
    ensures b in w.bookings && w.offers[Latest(ReservingIds(w, b))].total == w.payments[b].amount
    ensures var w' := SettlePayment(w, b, Retried(user));
            && w'.payments[b].amount == w.payments[b].amount && w'.payments[b].status.Processing?
            && PassesClean(w', b, w'.payments[b].amount)
  {
    RetriedAmount(w, b);
    SettleKeepsInv(w, b, Retried(user));
    SettleWrites(w, b, Retried(user));
    var w' := SettlePayment(w, b, Retried(user));
    assert ReservingIds(w', b) == ReservingIds(w, b);
    assert PaymentOk(FolderOf(w', b));
  }

  /** On a confirmed booking one amount runs through: offer, earnings, charge and price, under the ceiling. */
  lemma ConfirmedMoneyAgrees(w: World, b: BookingId)
    requires Inv(w) && b in w.bookings && w.bookings[b].status.Confirmed?
    ensures b in w.payments
    ensures exists id :: ReservingIds(w, b) == {id} && w.offers[id].status.Accepted?
                         && w.bookings[b].assignee == Some(w.offers[id].contractor)
                         && w.bookings[b].version == Some(w.offers[id].version)
                         && w.bookings[b].computedPrice == Some(w.payments[b].amount)
                         && w.offers[id].total == w.payments[b].amount && w.offers[id].earnings == w.payments[b].amount
                         && WithinCeiling(w.bookings[b], w.payments[b].amount)
  {
    var f := FolderOf(w, b);
    var id :| id in f.offers && f.offers[id].status.Accepted? && f.booking.assignee == Some(f.offers[id].contractor)
              && f.booking.computedPrice == Some(f.offers[id].total) && f.booking.version == Some(f.offers[id].version);
    var paid :| paid in f.offers && f.offers[paid].IsReserved() && f.offers[paid].total == f.payment.value.amount;
    assert id in ReservingIds(w, b) && paid in ReservingIds(w, b);
    ReservingIsUnique(w, b, id);
    OfferIsOk(w, id);
  }

  /** A repeated provider event changes nothing. */
  lemma ConfirmIsIdempotent(w: World, b: BookingId)
    requires Inv(w)
    ensures var once := ConfirmPayment(w, b).0; ConfirmPayment(once, b).0 == once
  {
  }

  /** A repeated acceptance by the same contractor succeeds and changes nothing. */
  lemma AcceptIsIdempotent(w: World, user: UserId, id: OfferId)
    requires Inv(w) && AcceptOffer(w, user, id).1.Done?
    ensures var once := AcceptOffer(w, user, id).0; AcceptOffer(once, user, id) == (once, Done)
  {
    hide Inv;
    var once := AcceptOffer(w, user, id).0;
    assert ResponderError(once, user, id) == ResponderError(w, user, id);
  }

  /** While one offer holds the booking, no other offer of the booking can be accepted. */
  lemma HeldElsewhere(w: World, id: OfferId, user: UserId, j: OfferId)
    requires Inv(w) && id in w.offers && w.offers[id].IsReserved()
    requires j in w.offers && j != id && w.offers[j].booking == w.offers[id].booking
    ensures AcceptOffer(w, user, j).1.Refused?
  {
    var b := w.offers[id].booking;
    OfferIsOk(w, id);
    ReservingIsUnique(w, b, id);
    assert j !in ReservingIds(w, b);
    assert IsReserved(w, b);
  }

  lemma AcceptHolds(w: World, user: UserId, id: OfferId)
    requires AcceptOffer(w, user, id).1.Done?
    ensures var once := AcceptOffer(w, user, id).0;
            && id in w.offers && id in once.offers && once.offers[id].IsReserved()
            && once.offers[id].booking == w.offers[id].booking
            && forall j :: j in w.offers && j != id ==> j in once.offers && once.offers[j] == w.offers[j]
  {
  }

  /** After one contractor has accepted, no other offer of the booking can be accepted. */
  lemma SecondAcceptanceFails(w: World, user: UserId, id: OfferId, other: UserId, j: OfferId)
    requires Inv(w) && AcceptOffer(w, user, id).1.Done?
    requires j in w.offers && j != id && w.offers[j].booking == w.offers[id].booking
    ensures AcceptOffer(AcceptOffer(w, user, id).0, other, j).1.Refused?
  {
    hide Inv;
    AcceptKeepsInv(w, user, id);
    AcceptHolds(w, user, id);
    hide AcceptOffer;
    HeldElsewhere(AcceptOffer(w, user, id).0, id, other, j);
  }

  /** A cancellation the provider did not hear of in time. */
  function LateSuccess(b: BookingId): seq<Step> {
    [StartCancel(None, b), EndCancel(b), Settle(b, ReportedSucceeded), Confirm(b)]
  }

  lemma LateSuccessRun(w: World, b: BookingId)
    ensures Run(w, LateSuccess(b))
         == Next(Next(Next(Next(w, StartCancel(None, b)), EndCancel(b)), Settle(b, ReportedSucceeded)), Confirm(b))
  {
    hide Run, Next;
    var first, second, third := StartCancel(None, b), EndCancel(b), Settle(b, ReportedSucceeded);
    RunNothing(w);
    RunThen(w, [], first);
    RunThen(w, [first], second);
    RunThen(w, [first, second], third);
    RunThen(w, [first, second, third], Confirm(b));
    assert [] + [first] == [first] && [first] + [second] == [first, second];
    assert [first, second] + [third] == [first, second, third];
    assert [first, second, third] + [Confirm(b)] == LateSuccess(b);
  }

  lemma CancelledAtOnce(w: World, b: BookingId)
    requires b in w.bookings && w.bookings[b].status.Pending? && !Locked(w, b)
    requires b in w.payments ==> Uncharged(w.payments[b])
    ensures Next(Next(w, StartCancel(None, b)), EndCancel(b)) == Cancelling(w, b)
  {
    assert BeginCancel(w, None, b).1.Done?;
    CancelAtOnce(w, None, b);
    hide FinishCancel, Cancelling;
  }

  lemma LateReport(w: World, b: BookingId)
    requires b in w.bookings && !Locked(w, b) && b in w.payments && w.payments[b].status.Failed?
    requires w.bookings[b].status.Cancelled?
    ensures Next(Next(w, Settle(b, ReportedSucceeded)), Confirm(b)) == SettlePayment(w, b, ReportedSucceeded)
  {
  }

  lemma LateSuccessOutcome(w: World, b: BookingId)
    requires b in w.bookings && w.bookings[b].status.Pending? && !Locked(w, b)
    requires b in w.payments && w.payments[b].status.Failed?
    ensures Run(w, LateSuccess(b)) == SettlePayment(Cancelling(w, b), b, ReportedSucceeded)
  {
    LateSuccessRun(w, b);
    CancelledAtOnce(w, b);
    hide Run, Next;
    LateReport(Cancelling(w, b), b);
  }

  /** Nothing reserves a cancelled booking, now or later. */
  lemma CancelledStaysUnassigned(w: World, b: BookingId, steps: seq<Step>)
    requires Safe(w) && b in w.bookings && w.bookings[b].status.Cancelled?
    ensures b in Run(w, steps).bookings && Run(w, steps).bookings[b] == w.bookings[b]
    ensures w.bookings[b].assignee.None? && ReservingIds(Run(w, steps), b) == {}
  {
    assert AssignmentOk(FolderOf(w, b));
    hide Run, Safe;
    CancellationIsFinal(w, steps, b);
    assert forall id :: id in ReservingIds(Run(w, steps), b) ==> id in OffersOf(Run(w, steps), b);
  }

  lemma ReportedLate(w: World, b: BookingId)
    requires b in w.bookings && b in w.payments && w.payments[b].status.Failed?
    ensures var charged := SettlePayment(Cancelling(w, b), b, ReportedSucceeded);
            && b in charged.payments && charged.payments[b].status.Succeeded?
            && b in charged.bookings && charged.bookings[b].status.Cancelled?
  {
  }

  /**
   * A failed charge does not stop a cancellation, and the provider may still report success afterwards. The
   * payment then stands as succeeded on a cancelled booking, and no confirmation ever assigns anybody to it.
   */
  lemma LateSuccessIsNeverAssigned(w: World, b: BookingId, steps: seq<Step>)
    requires Safe(w) && b in w.bookings && w.bookings[b].status.Pending? && !Locked(w, b)
    requires b in w.payments && w.payments[b].status.Failed?
    ensures var charged := Run(w, LateSuccess(b));
            && b in charged.payments && charged.payments[b].status.Succeeded?
            && b in charged.bookings && charged.bookings[b].status.Cancelled? && charged.bookings[b].assignee.None?
            && b in Run(charged, steps).bookings && Run(charged, steps).bookings[b] == charged.bookings[b]
            && ReservingIds(Run(charged, steps), b) == {}
  {
    LateSuccessOutcome(w, b);
    RunKeepsInv(w, LateSuccess(b));
    ReportedLate(w, b);
    hide *;
    CancelledStaysUnassigned(Run(w, LateSuccess(b)), b, steps);
  }

  // ---- When a cancelled booking can come to be paid ----------------------------

  /** Payments move in payment steps only, one record at a time. */
  lemma OthersKeepPayments(w: World, s: Step)
    requires !IsPaymentSide(s)
    ensures Next(w, s).payments == w.payments
  {
    hide Next;
    StepWrites(w, s);
  }

  /** A record is opened only for a booking somebody holds, and by who holds its lock. */
  lemma ChargesNeedAHolder(w: World, s: Step, b: BookingId)
    requires b !in w.payments && (ReservingIds(w, b) == {} || Locked(w, b))
    ensures b !in Next(w, s).payments
  {
    match s
    case Charge(_, _) =>
    case Settle(k, e) => hide ReservingIds; OneRecordSettled(w, k, e, b);
    case Confirm(_) => hide ReservingIds;
    case _ => hide Next, ReservingIds; OthersKeepPayments(w, s);
  }

  lemma OneRecordSettled(w: World, k: BookingId, e: PaymentEvent, b: BookingId)
    requires b !in w.payments
    ensures b !in SettlePayment(w, k, e).payments
  {
    hide MayHappen, ReservingIds;
  }

  lemma {:induction false} UnchargedForEver(w: World, b: BookingId, steps: seq<Step>)
    requires Safe(w) && b in w.bookings && w.bookings[b].status.Cancelled? && b !in w.payments
    ensures b !in Run(w, steps).payments
  {
    hide Next, Safe, ReservingIds;
    if steps != [] {
      var n := |steps| - 1;
      UnchargedForEver(w, b, steps[..n]);
      CancelledStaysUnassigned(w, b, steps[..n]);
      ChargesNeedAHolder(Run(w, steps[..n]), steps[n], b);
    }
  }

  /** While a cancellation holds the booking no record is opened for it. */
  lemma {:induction false} UnchargedMeanwhile(w: World, b: BookingId, others: seq<Step>)
    requires Safe(w) && Locked(w, b) && EndCancel(b) !in others && b !in w.payments
    ensures b !in Run(w, others).payments
  {
    hide Next, Safe, ReservingIds;
    if others != [] {
      var n := |others| - 1;
      UnchargedMeanwhile(w, b, others[..n]);
      RunWaits(w, others[..n], b);
      ChargesNeedAHolder(Run(w, others[..n]), others[n], b);
    }
  }

  predicate HasRefund(w: World, b: BookingId) { b in w.payments && w.payments[b].status.Refunded? }

  /** A refund waits for the lock. */
  lemma RefundsWait(w: World, s: Step, b: BookingId)
    requires Locked(w, b) && !HasRefund(w, b)
    ensures !HasRefund(Next(w, s), b)
  {
    match s
    case Charge(_, _) =>
    case Settle(k, e) => if !Waits(w, s) { SettledUnrefunded(w, k, e, b); }
    case Confirm(_) => hide ReservingIds;
    case _ => hide Next; OthersKeepPayments(w, s);
  }

  lemma SettledUnrefunded(w: World, k: BookingId, e: PaymentEvent, b: BookingId)
    requires !HasRefund(w, b) && (k == b ==> !e.FullyRefunded?)
    ensures !HasRefund(SettlePayment(w, k, e), b)
  {
    hide ReservingIds;
  }

  lemma {:induction false} UnrefundedMeanwhile(w: World, b: BookingId, others: seq<Step>)
    requires Safe(w) && Locked(w, b) && EndCancel(b) !in others && !HasRefund(w, b)
    ensures !HasRefund(Run(w, others), b)
  {
    hide Next, Safe, HasRefund;
    if others != [] {
      var n := |others| - 1;
      UnrefundedMeanwhile(w, b, others[..n]);
      RunWaits(w, others[..n], b);
      RefundsWait(Run(w, others[..n]), others[n], b);
    }
  }

  /** Some run takes the booking's payment to a success. */
  ghost predicate MaySucceed(w: World, b: BookingId) {
    exists steps :: b in Run(w, steps).payments && Run(w, steps).payments[b].status.Succeeded?
  }

  /** A record that was not refunded can still be reported as succeeded, whatever became of the booking. */
  lemma RecordsMaySucceed(w: World, b: BookingId)
    requires Inv(w) && b in w.payments && !HasRefund(w, b)
    ensures MaySucceed(w, b)
  {
    assert PaymentOk(FolderOf(w, b));
    hide Run, Inv;
    var report := Settle(b, ReportedSucceeded);
    RunNothing(w);
    RunThen(w, [], report);
    assert [] + [report] == [report];
    if w.payments[b].status.Succeeded? {
      assert Run(w, []).payments[b].status.Succeeded?;
    } else {
      assert Run(w, [report]).payments[b].status.Succeeded?;
    }
  }

  lemma CancellationKeepsRecords(w: World, actor: Option<UserId>, b: BookingId)
    requires Inv(w) && BeginCancel(w, actor, b).1.Done?
    ensures BeginCancel(w, actor, b).0.payments == w.payments
    ensures b in w.payments ==> w.payments[b].status.Failed?
  {
    if b in w.payments {
      assert PaymentOk(FolderOf(w, b));
    }
  }

  /** The record of the booking when the cancellation ends. */
  lemma RecordAtTheEnd(w: World, actor: Option<UserId>, b: BookingId, others: seq<Step>)
    requires Safe(w) && !Locked(w, b) && BeginCancel(w, actor, b).1.Done? && EndCancel(b) !in others
    ensures var after := Next(Run(Next(w, StartCancel(actor, b)), others), EndCancel(b));
            && Safe(after) && IsCancelled(after, b) && !HasRefund(after, b) && (b in after.payments <==> b in w.payments)
    ensures b in w.payments ==> w.payments[b].status.Failed?
  {
    var begun := Next(w, StartCancel(actor, b));
    var before := Run(begun, others);
    assert Inv(w);
    hide *;
    CancellationKeepsRecords(w, actor, b);
    BeginIsNext(w, actor, b);
    BeginLocks(w, actor, b);
    NextKeepsInv(w, StartCancel(actor, b));
    ListKept(w, actor, b, others);
    EndIsNext(before, b);
    NextKeepsInv(before, EndCancel(b));
    UnrefundedMeanwhile(begun, b, others);
    RunEvolves(begun, others);
    RecordsStay(begun, before, b);
    if b !in w.payments {
      UnchargedMeanwhile(begun, b, others);
    }
    EndKeepsPayments(before, b);
  }

  lemma BeginLocks(w: World, actor: Option<UserId>, b: BookingId)
    requires Inv(w) && BeginCancel(w, actor, b).1.Done?
    ensures Locked(BeginCancel(w, actor, b).0, b) && !HasRefund(BeginCancel(w, actor, b).0, b)
  {
  }

  lemma RecordsStay(w: World, w': World, b: BookingId)
    requires Evolves(w, w')
    ensures b in w.payments ==> b in w'.payments
  {
  }

  lemma EndKeepsPayments(w: World, b: BookingId)
    requires Locked(w, b) && b in w.bookings
    ensures FinishCancel(w, b).payments == w.payments && IsCancelled(FinishCancel(w, b), b)
    ensures HasRefund(FinishCancel(w, b), b) == HasRefund(w, b)
  {
  }

  /**
   * A cancelled booking can come to hold a succeeded payment exactly if it had the record of a failed charge when its
   * cancellation began, whatever came in between; a cancellation accepts no other record.
   */
  lemma LateSuccessIff(w: World, actor: Option<UserId>, b: BookingId, others: seq<Step>)
    requires Safe(w) && !Locked(w, b) && BeginCancel(w, actor, b).1.Done? && EndCancel(b) !in others
    ensures MaySucceed(Next(Run(Next(w, StartCancel(actor, b)), others), EndCancel(b)), b) <==>
            b in w.payments && w.payments[b].status.Failed?
    ensures b in w.payments ==> w.payments[b].status.Failed?
  {
    var after := Next(Run(Next(w, StartCancel(actor, b)), others), EndCancel(b));
    RecordAtTheEnd(w, actor, b, others);
    assert Inv(after);
    hide Run, Safe, Next, BeginCancel;
    if b in w.payments {
      RecordsMaySucceed(after, b);
    } else {
      forall steps ensures b !in Run(after, steps).payments {
        UnchargedForEver(after, b, steps);
      }
    }
  }
}
