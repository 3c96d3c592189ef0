/**
 * An account deletion while others commit between its statements. What it cancels and refuses is under the locks of
 * those bookings, so each of these steps has its place in the run. Others see its edits of the account only when it
 * commits: in the run they are one edit, at the end. Its own refusals do see them, which makes no difference to whom
 * they choose: the account has been asked about each of those bookings already.
 */
module ConcurrentDeletion {
  import opened Domain
  import opened Worlds
  import opened Candidates
  import opened Protocol
  import opened Safety
  import opened History
  import opened Cancellation
  import opened AccountDeletion
  import Responses

  // ---- What the deletion does to the rows it listed ---------------------------

  /** The n-th step is the account's refusal of the offer, and goes through. */
  ghost predicate RefusedAt(w: World, steps: seq<Step>, n: nat, user: UserId, id: OfferId) {
    && n < |steps| && steps[n].Decline? && steps[n].user == user && steps[n].id == id
    && !Waits(Run(w, steps[..n]), steps[n])
    && DeclineOffer(Run(w, steps[..n]), user, id, steps[n].attempt).1.Done?
  }

  /** Every offer on the list of pending offers is refused. */
  ghost predicate EachRefused(w: World, steps: seq<Step>, user: UserId) {
    forall id :: id in PendingTo(w, user) ==> exists n: nat :: RefusedAt(w, steps, n, user, id)
  }

  /** The n-th step is the end of the booking's cancellation. */
  ghost predicate CancelledAt(w: World, steps: seq<Step>, n: nat, b: BookingId) {
    n < |steps| && steps[n] == EndCancel(b) && Locked(Run(w, steps[..n]), b)
  }

  /** Every booking on the list of pending bookings is cancelled. */
  ghost predicate EachCancelled(w: World, steps: seq<Step>, user: UserId) {
    forall b :: b in OwnPending(w, user) ==> exists n: nat :: CancelledAt(w, steps, n, b)
  }

  lemma Split(w: World, steps: seq<Step>, n: nat)
    requires n < |steps|
    ensures Run(w, steps[..n + 1]) == Next(Run(w, steps[..n]), steps[n])
    ensures Run(w, steps) == Run(Run(w, steps[..n + 1]), steps[n + 1..])
  {
    hide Run, Next;
    assert steps[..n] + [steps[n]] == steps[..n + 1] && steps[..n + 1] + steps[n + 1..] == steps;
    RunThen(w, steps[..n], steps[n]);
    RunConcat(w, steps[..n + 1], steps[n + 1..]);
  }

  lemma DeclineIsNext(w: World, s: Step)
    requires s.Decline? && !Waits(w, s)
    ensures Next(w, s) == DeclineOffer(w, s.user, s.id, s.attempt).0
  {
    hide DeclineOffer, Waits;
  }

  lemma DeclinedRow(w: World, w': World, id: OfferId)
    requires id in w.offers && id in w'.offers && w'.offers[id] == DeclinedOffer(w.offers[id], w.now)
    requires Evolves(w, w') && id < w.nextOffer
    ensures w'.offers[id].status.Declined? && id < w'.nextOffer
  {
  }

  lemma Refused(w: World, s: Step)
    requires Safe(w) && s.Decline? && !Waits(w, s) && DeclineOffer(w, s.user, s.id, s.attempt).1.Done?
    ensures s.id in w.offers && s.id in Next(w, s).offers && Next(w, s).offers[s.id].status.Declined?
    ensures s.id < Next(w, s).nextOffer
  {
    hide *;
    SafeIsInv(w);
    DeclineIsNext(w, s);
    Responses.DeclinePassesOn(w, s.user, s.id, s.attempt);
    OfferIsOk(w, s.id);
    NextEvolves(w, s);
    DeclinedRow(w, Next(w, s), s.id);
  }

  lemma ClosedForGood(w: World, steps: seq<Step>, id: OfferId)
    requires Safe(w) && id in w.offers && w.offers[id].status.Declined? && id < w.nextOffer
    ensures id in Run(w, steps).offers ==> !IsOpen(Run(w, steps).offers[id])
  {
    hide Run;
    RunEvolves(w, steps);
  }

  /** A refused offer is never open again. */
  lemma RefusedIsClosed(w: World, steps: seq<Step>, n: nat, user: UserId, id: OfferId)
    requires Safe(w) && RefusedAt(w, steps, n, user, id)
    ensures id in Run(w, steps).offers ==> !IsOpen(Run(w, steps).offers[id])
  {
    hide Run, Next, Safe, DeclineOffer, Waits, IsOpen;
    RunKeepsInv(w, steps[..n]);
    Refused(Run(w, steps[..n]), steps[n]);
    Split(w, steps, n);
    NextKeepsInv(Run(w, steps[..n]), steps[n]);
    ClosedForGood(Run(w, steps[..n + 1]), steps[n + 1..], id);
  }

  /** A cancelled booking is never pending again. */
  lemma CancelledIsCancelled(w: World, steps: seq<Step>, n: nat, b: BookingId)
    requires Safe(w) && CancelledAt(w, steps, n, b)
    ensures IsCancelled(Run(w, steps), b)
  {
    hide Run, Next, Safe;
    RunKeepsInv(w, steps[..n]);
    EndsCancelled(Run(w, steps[..n]), b);
    Split(w, steps, n);
    NextKeepsInv(Run(w, steps[..n]), steps[n]);
    CancellationIsFinal(Run(w, steps[..n + 1]), steps[n + 1..], b);
  }

  lemma EndsCancelled(w: World, b: BookingId)
    requires Safe(w) && Locked(w, b)
    ensures IsCancelled(Next(w, EndCancel(b)), b)
  {
    EndIsNext(w, b);
    hide Next;
  }

  // ---- What is left ----------------------------------------------------------

  lemma PendingStaysOwn(w: World, w': World, user: UserId, b: BookingId)
    requires Evolves(w, w') && b in w.bookings && b in OwnPending(w', user)
    ensures b in OwnPending(w, user) && !IsCancelled(w', b)
  {
    assert BookingEvolves(w.bookings[b], w'.bookings[b]);
  }

  /** A booking of the account still pending was made after the deletion had read its list. */
  lemma OwnBookingsLeft(w: World, steps: seq<Step>, user: UserId, b: BookingId)
    requires Safe(w) && EachCancelled(w, steps, user) && b in OwnPending(Run(w, steps), user)
    ensures b !in w.bookings
  {
    hide Run, Safe, OwnPending, Evolves, IsCancelled;
    if b in w.bookings {
      RunEvolves(w, steps);
      PendingStaysOwn(w, Run(w, steps), user, b);
      var n: nat :| CancelledAt(w, steps, n, b);
      CancelledIsCancelled(w, steps, n, b);
    }
  }

  /** The offer is made at the n-th step, to an account that others see active and available. */
  ghost predicate OfferedAt(w: World, steps: seq<Step>, n: nat, user: UserId, id: OfferId) {
    n < |steps| && id !in Run(w, steps[..n]).offers && id in Run(w, steps[..n + 1]).offers
    && Reinstated(Run(w, steps[..n]), user)
  }

  ghost predicate OfferedMeanwhile(w: World, steps: seq<Step>, user: UserId, id: OfferId) {
    exists n: nat :: OfferedAt(w, steps, n, user, id)
  }

  lemma AddresseeKept(w: World, w': World, id: OfferId)
    requires Evolves(w, w') && KeysOk(w) && id in w.offers && id in w'.offers
    ensures w'.offers[id].contractor == w.offers[id].contractor
  {
    assert OfferEvolves(w.offers[id], w'.offers[id]);
  }

  lemma OfferedInPrefix(w: World, steps: seq<Step>, k: nat, user: UserId, id: OfferId)
    requires k <= |steps| && OfferedMeanwhile(w, steps[..k], user, id)
    ensures OfferedMeanwhile(w, steps, user, id)
  {
    hide Run, Reinstated;
    var n: nat :| OfferedAt(w, steps[..k], n, user, id);
    assert steps[..k][..n] == steps[..n] && steps[..k][..n + 1] == steps[..n + 1];
    assert OfferedAt(w, steps, n, user, id);
  }

  lemma OfferedLast(w: World, steps: seq<Step>, user: UserId, id: OfferId)
    requires steps != [] && id !in Run(w, steps[..|steps| - 1]).offers && id in Run(w, steps).offers
    requires Reinstated(Run(w, steps[..|steps| - 1]), user)
    ensures OfferedMeanwhile(w, steps, user, id)
  {
    hide Run, Reinstated;
    assert steps[..|steps| - 1 + 1] == steps;
    assert OfferedAt(w, steps, |steps| - 1, user, id);
  }

  /** Whatever offer a run adds, it adds at some step, while the addressee may be offered work. */
  lemma {:induction false} AddedMeanwhile(w: World, steps: seq<Step>, user: UserId, id: OfferId)
    requires Safe(w) && id !in w.offers && id in Run(w, steps).offers && Run(w, steps).offers[id].contractor == user
    ensures OfferedMeanwhile(w, steps, user, id)
  {
    hide *;
    RunNothing(w);
    assert steps != [];
    var k := |steps| - 1;
    var before := Run(w, steps[..k]);
    assert steps[..k + 1] == steps;
    Split(w, steps, k);
    RunKeepsInv(w, steps[..k]);
    if id in before.offers {
      NextEvolves(before, steps[k]);
      SafeIsInv(before);
      AddresseeKept(before, Next(before, steps[k]), id);
      AddedMeanwhile(w, steps[..k], user, id);
      OfferedInPrefix(w, steps, k, user, id);
    } else {
      OfferedIsReinstated(before, steps[k], id);
      OfferedLast(w, steps, user, id);
    }
  }

  /** Nothing is offered to an account that is never both active and available. */
  lemma NothingOfferedAfter(w: World, steps: seq<Step>, user: UserId, id: OfferId)
    requires Safe(w) && forall n :: 0 <= n < |steps| ==> !Reinstated(Run(w, steps[..n]), user)
    requires id in Run(w, steps).offers && Run(w, steps).offers[id].contractor == user
    ensures id in w.offers
  {
    hide Run, Safe, Reinstated;
    if id !in w.offers {
      AddedMeanwhile(w, steps, user, id);
    }
  }

  lemma OpenBefore(w: World, w': World, user: UserId, id: OfferId)
    requires Evolves(w, w') && KeysOk(w) && id in w.offers && id in w'.offers
    requires w'.offers[id].contractor == user && IsOpen(w'.offers[id])
    ensures w.offers[id].contractor == user && IsOpen(w.offers[id])
    ensures w.offers[id].status.AcceptedPendingPayment? ==> w'.offers[id].status.AcceptedPendingPayment?
  {
    assert OfferEvolves(w.offers[id], w'.offers[id]);
  }

  /** The account has accepted nothing that still waits for its payment: the deletion has checked that. */
  ghost predicate NothingHeld(w: World, user: UserId) {
    forall id :: id in w.offers && w.offers[id].contractor == user ==> !w.offers[id].status.AcceptedPendingPayment?
  }

  /**
   * The deletion checks at w that nothing is held, reads its list of pending offers after the steps `toList`, refuses
   * each of them and commits within the steps `toCommit`. As long as nobody reinstates the account, an offer open to it
   * was there at the commit, and was either offered since the list was read, while others still saw the account in
   * dispatch, or accepted by it between the check and the list.
   */
  lemma OpenOffersLeft(w: World, toList: seq<Step>, toCommit: seq<Step>, later: seq<Step>, user: UserId, id: OfferId)
    requires Safe(w) && NothingHeld(w, user) && EachRefused(Run(w, toList), toCommit, user)
    requires var committed := Run(Run(w, toList), toCommit);
             && (forall n :: 0 <= n < |later| ==> !Reinstated(Run(committed, later[..n]), user))
             && id in Run(committed, later).offers && Run(committed, later).offers[id].contractor == user
             && IsOpen(Run(committed, later).offers[id])
    ensures var listed := Run(w, toList);
            && id in Run(listed, toCommit).offers
            && (OfferedMeanwhile(listed, toCommit, user, id)
                || (id in listed.offers && listed.offers[id].status.AcceptedPendingPayment?
                    && (id in w.offers ==> w.offers[id].status.Pending?)))
  {
    hide Run, Safe, Inv, Reinstated, IsOpen, Evolves, NothingHeld, EachRefused, OfferedMeanwhile;
    var listed := Run(w, toList);
    var committed := Run(listed, toCommit);
    RunKeepsInv(w, toList);
    RunKeepsInv(listed, toCommit);
    NothingOfferedAfter(committed, later, user, id);
    RunEvolves(committed, later);
    SafeIsInv(committed);
    OpenBefore(committed, Run(committed, later), user, id);
    if id in listed.offers {
      RunEvolves(listed, toCommit);
      SafeIsInv(listed);
      OpenBefore(listed, committed, user, id);
      NotOnTheList(listed, toCommit, user, id);
      if id in w.offers {
        RunEvolves(w, toList);
        SafeIsInv(w);
        OpenBefore(w, listed, user, id);
        HeldNot(w, user, id);
      }
    } else {
      AddedMeanwhile(listed, toCommit, user, id);
    }
  }

  lemma HeldNot(w: World, user: UserId, id: OfferId)
    requires NothingHeld(w, user) && id in w.offers && w.offers[id].contractor == user && IsOpen(w.offers[id])
    ensures w.offers[id].status.Pending?
  {
  }

  /** What stays open was not pending when the list was read. */
  lemma NotOnTheList(w: World, steps: seq<Step>, user: UserId, id: OfferId)
    requires Safe(w) && EachRefused(w, steps, user) && id in Run(w, steps).offers && IsOpen(Run(w, steps).offers[id])
    requires id in w.offers && w.offers[id].contractor == user && IsOpen(w.offers[id])
    ensures w.offers[id].status.AcceptedPendingPayment?
  {
    hide Run, Safe;
    if w.offers[id].status.Pending? {
      assert id in PendingTo(w, user);
      var n: nat :| RefusedAt(w, steps, n, user, id);
      RefusedIsClosed(w, steps, n, user, id);
    }
  }
}
