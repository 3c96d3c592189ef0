/** Other transactions committing between the statements of a worker. */
module Interleaving {
  import opened Domain
  import opened Worlds
  import opened Candidates
  import opened Frames
  import opened Protocol
  import opened Safety
  import opened History
  import opened Databases
  import opened DispatchService
  import BookingService
  import OfferService
  import PaymentService
  import PricingHistory

  /** What happens around the bookings: time, edits, price saves, quotes. */
  method Edit(db: Database, s: Step)
    requires IsElsewhere(s)
    modifies db
    ensures db.Value() == old(Next(db.Value(), s))
  {
    match s
    case Tick(to) => if to >= db.now { db.now := to; }
    case Environment(users, profiles) =>
      if EnvironmentMay(db.Value(), users, profiles) {
        db.users, db.profiles := users, profiles;
      }
    case BeginSave(call, wanted) =>
      if call !in db.inFlight.saving {
        db.inFlight := db.inFlight.(saving := db.inFlight.saving[call := PricingHistory.Save(Some(db.config), wanted)]);
      }
    case EndSave(call) =>
      if call in db.inFlight.saving {
        db.config := PricingHistory.Stored(db.inFlight.saving[call], db.now);
        db.inFlight := db.inFlight.(saving := db.inFlight.saving - {call});
      }
    case Issue(quote) => if MayIssue(db.Value(), quote) { db.quotes := db.quotes[quote.id := quote]; }
    case FindQuote(call, user, id, property) =>
      if call !in db.inFlight.looked { var _ := BookingService.FindQuote(db, call, user, id, property); }
  }

  /** Any transaction of the system, run through the service that implements it, unless it has to wait. */
  method Execute(db: Database, s: Step)
    modifies db
    ensures db.Value() == old(Next(db.Value(), s))
  {
    hide AssignNextContractor, AcceptOffer, DeclineOffer, RescheduleBooking, BeginCancel, FinishCancel, StartCharge,
         SettlePayment, ConfirmPayment, CreateBooking, LookUpQuote;
    if Waits(db.Value(), s) {
      return;
    }
    match s
    case Create(b, user, q) =>
      if b !in db.bookings && LookedUp(db.Value(), q) { var _ := BookingService.Create(db, b, user, q); }
    case Dispatch(b, r) => if b in db.bookings { var _ := Assign(db, b, r); }
    case Accept(user, id) => var _ := OfferService.Accept(db, user, id);
    case Decline(user, id, r) => var _ := OfferService.Decline(db, user, id, r);
    case Expire(id, snapshot) =>
      if snapshot <= db.now && (id in db.offers ==> db.offers[id].expiresAt < snapshot) {
        var _ := UpdateIfPending(db, id, snapshot);
      }
    case Reschedule(user, b, when, zone) => var _ := BookingService.Reschedule(db, user, b, when, zone);
    case StartCancel(actor, b) => var _ := BookingService.BeginCancelling(db, actor, b);
    case EndCancel(b) => if Locked(db.Value(), b) && b in db.bookings { BookingService.FinishCancelling(db, b); }
    case Charge(b, answer) => var _ := PaymentService.Charge(db, b, answer);
    case Settle(b, e) => PaymentService.Settle(db, b, e);
    case Confirm(b) => var _ := PaymentService.Confirm(db, b);
    case _ => Edit(db, s);
  }

  /** The sweep's conditional update: it reports whether this worker, and not another, closed the offer. */
  method UpdateIfPending(db: Database, id: OfferId, at: Time) returns (updated: bool)
    modifies db
    ensures updated == old(IsPending(db.Value(), id))
    ensures db.Value() == old(ExpireIfPending(db.Value(), id, at))
  {
    updated := id in db.offers && db.offers[id].status.Pending?;
    if updated {
      db.offers := db.offers[id := db.offers[id].(status := Expired, closeReason := Some(TimedOut), respondedAt := Some(at))];
    }
  }

  /** What other transactions commit before the next statement of a worker. */
  method Play(db: Database, steps: seq<Step>, ghost w: World, ghost trace: seq<Step>)
    requires db.Value() == Run(w, trace)
    modifies db
    ensures db.Value() == Run(w, trace + steps)
  {
    hide Run, Next;
    assert trace + steps[..0] == trace;
    for i := 0 to |steps|
      invariant db.Value() == Run(w, trace + steps[..i])
    {
      RunThen(w, trace + steps[..i], steps[i]);
      Execute(db, steps[i]);
      assert trace + steps[..i] + [steps[i]] == trace + steps[..i + 1];
    }
    assert steps[..|steps|] == steps;
  }

  /** `schedule[k]` is what others commit just before the k-th statement of a worker. */
  function At(schedule: seq<seq<Step>>, k: nat): seq<Step> {
    if k < |schedule| then schedule[k] else []
  }

  /** The k-th statement as a dispatch attempt; without a reading it raises and leaves nothing behind. */
  function AttemptSteps(b: BookingId, readings: map<nat, Reading>, k: nat): seq<Step> {
    if k in readings then [Dispatch(b, readings[k])] else []
  }

  /** A worker's attempts on a list of bookings, one transaction each, with what others commit in between. */
  function Attempts(schedule: seq<seq<Step>>, from: nat, bs: seq<BookingId>, readings: map<nat, Reading>): seq<Step> {
    if bs == [] then []
    else
      var n := |bs| - 1;
      Attempts(schedule, from, bs[..n], readings) + At(schedule, from + n) + AttemptSteps(bs[n], readings, from + n)
  }

  /** The n-th attempt follows the earlier ones and whatever others commit before it. */
  lemma AttemptsThen(schedule: seq<seq<Step>>, from: nat, bs: seq<BookingId>, readings: map<nat, Reading>, n: nat)
    requires n < |bs|
    ensures Attempts(schedule, from, bs[..n + 1], readings)
         == Attempts(schedule, from, bs[..n], readings) + At(schedule, from + n) + AttemptSteps(bs[n], readings, from + n)
  {
    assert bs[..n + 1][..n] == bs[..n];
  }

  /** What the database is when the n-th attempt of the list begins. */
  ghost function Before(w: World, trace: seq<Step>, schedule: seq<seq<Step>>, from: nat, bs: seq<BookingId>,
                        readings: map<nat, Reading>, n: nat): World
    requires n <= |bs|
  {
    Run(w, trace + Attempts(schedule, from, bs[..n], readings) + At(schedule, from + n))
  }

  /** The attempt makes an offer; one that waits for a cancellation finds nothing left to do. */
  predicate Makes(before: World, b: BookingId, readings: map<nat, Reading>, k: nat) {
    k in readings && b in before.bookings && !Locked(before, b) && AssignNextContractor(before, b, readings[k]).1.Some?
  }

  /** How many of the first n attempts made an offer. */
  ghost function OffersBy(w: World, trace: seq<Step>, schedule: seq<seq<Step>>, from: nat, bs: seq<BookingId>,
                          readings: map<nat, Reading>, n: nat): nat
    requires n <= |bs|
  {
    if n == 0 then 0
    else
      OffersBy(w, trace, schedule, from, bs, readings, n - 1)
      + if Makes(Before(w, trace, schedule, from, bs, readings, n - 1), bs[n - 1], readings, from + n - 1) then 1 else 0
  }

  /** How many of n attempts did not raise. */
  function Completed(from: nat, n: nat, readings: map<nat, Reading>): nat {
    if n == 0 then 0 else Completed(from, n - 1, readings) + if from + n - 1 in readings then 1 else 0
  }

  lemma {:induction false} BookingsStay(w: World, first: seq<Step>, second: seq<Step>, b: BookingId)
    requires Safe(w) && b in Run(w, first).bookings
    ensures b in Run(w, first + second).bookings
  {
    hide Run;
    RunEvolves(w, first);
    RunConcat(w, first, second);
    RunEvolves(Run(w, first), second);
  }

  /** One attempt: the others first, then the transaction, whose exception is logged and swallowed. */
  method AttemptOne(db: Database, others: seq<Step>, b: BookingId, k: nat, readings: map<nat, Reading>,
                    ghost w: World, ghost trace: seq<Step>)
    returns (made: bool)
    requires Safe(w) && db.Value() == Run(w, trace) && b in Run(w, trace).bookings
    modifies db
    ensures db.Value() == Run(w, trace + others + AttemptSteps(b, readings, k))
    ensures made <==> Makes(Run(w, trace + others), b, readings, k)
  {
    hide Run, Safe, AssignNextContractor;
    Play(db, others, w, trace);
    BookingsStay(w, trace, others, b);
    made := false;
    if k in readings {
      RunThen(w, trace + others, Dispatch(b, readings[k]));
      if !Locked(db.Value(), b) {
        var offer := Assign(db, b, readings[k]);
        made := offer.Some?;
      }
    } else {
      assert trace + others + [] == trace + others;
    }
  }

  lemma NoAttemptsYet(w: World, trace: seq<Step>, schedule: seq<seq<Step>>, from: nat, bs: seq<BookingId>,
                      readings: map<nat, Reading>)
    ensures trace + Attempts(schedule, from, bs[..0], readings) == trace
    ensures OffersBy(w, trace, schedule, from, bs, readings, 0) == Completed(from, 0, readings) == 0
  {
  }

  lemma OneMoreAttempt(w: World, trace: seq<Step>, schedule: seq<seq<Step>>, from: nat, bs: seq<BookingId>,
                       readings: map<nat, Reading>, n: nat)
    requires n < |bs|
    ensures var done := trace + Attempts(schedule, from, bs[..n], readings) + At(schedule, from + n);
            && done + AttemptSteps(bs[n], readings, from + n) == trace + Attempts(schedule, from, bs[..n + 1], readings)
            && OffersBy(w, trace, schedule, from, bs, readings, n + 1)
               == OffersBy(w, trace, schedule, from, bs, readings, n)
                  + (if Makes(Run(w, done), bs[n], readings, from + n) then 1 else 0)
            && Completed(from, n + 1, readings)
               == Completed(from, n, readings) + (if from + n in readings then 1 else 0)
  {
    hide Run, Makes;
    AttemptsThen(schedule, from, bs, readings, n);
    assert trace + Attempts(schedule, from, bs[..n], readings) + At(schedule, from + n)
           + AttemptSteps(bs[n], readings, from + n)
        == trace + Attempts(schedule, from, bs[..n + 1], readings);
  }

  /** Attempts the listed bookings in turn. */
  method AttemptAll(db: Database, schedule: seq<seq<Step>>, from: nat, bs: seq<BookingId>, readings: map<nat, Reading>,
                    ghost w: World, ghost trace: seq<Step>)
    returns (created: nat, completed: nat)
    requires Safe(w) && db.Value() == Run(w, trace)
    requires forall i :: 0 <= i < |bs| ==> bs[i] in Run(w, trace).bookings
    modifies db
    ensures db.Value() == Run(w, trace + Attempts(schedule, from, bs, readings))
    ensures created == OffersBy(w, trace, schedule, from, bs, readings, |bs|)
    ensures completed == Completed(from, |bs|, readings)
  {
    hide *;
    created, completed := 0, 0;
    NoAttemptsYet(w, trace, schedule, from, bs, readings);
    for i := 0 to |bs|
      invariant db.Value() == Run(w, trace + Attempts(schedule, from, bs[..i], readings))
      invariant created == OffersBy(w, trace, schedule, from, bs, readings, i)
      invariant completed == Completed(from, i, readings)
    {
      BookingsStay(w, trace, Attempts(schedule, from, bs[..i], readings), bs[i]);
      OneMoreAttempt(w, trace, schedule, from, bs, readings, i);
      var made := AttemptOne(db, At(schedule, from + i), bs[i], from + i, readings, w,
                             trace + Attempts(schedule, from, bs[..i], readings));
      if made {
        created := created + 1;
      }
      if from + i in readings {
        completed := completed + 1;
      }
    }
    assert bs[..|bs|] == bs;
  }

  /** An attempt waits for a cancellation that holds the booking, or the booking is what the attempt makes of it. */
  ghost predicate AttemptedAt(before: World, after: World, b: BookingId, r: Reading) {
    && b in before.bookings && b in after.bookings
    && if Locked(before, b) then after == before
       else after == AssignNextContractor(before, b, r).0 && Dispatched(before, after, b, r) && Concluded(before, after, b, r)
  }

  lemma AttemptInPlace(w: World, b: BookingId, r: Reading)
    requires Safe(w) && b in w.bookings
    ensures AttemptedAt(w, Next(w, Dispatch(b, r)), b, r)
  {
    AttemptMade(w, b, r);
    hide AssignNextContractor, Safe, Concluded, Dispatched;
  }

  lemma AttemptMade(w: World, b: BookingId, r: Reading)
    requires Safe(w) && b in w.bookings
    ensures var w' := AssignNextContractor(w, b, r).0;
            b in w'.bookings && Dispatched(w, w', b, r) && Concluded(w, w', b, r)
  {
    assert KeysOk(w) && SameFolder(w, w, b) && SameSurroundings(w, w);
    hide *;
    AssignKeepsSurroundings(w, b, r);
    AttemptWrites(w, b, r);
    StillThere(w, AssignNextContractor(w, b, r).0);
    AttemptDispatches(w, w, b, r);
    AttemptsConclude(w, AssignNextContractor(w, b, r).0, b, r);
  }

  lemma StillThere(w: World, w': World)
    requires RowsWritten(w, w')
    ensures w'.bookings.Keys == w.bookings.Keys && w'.now == w.now
  {
  }

  /** Right after its own attempt a booking is what the attempt, decided at that moment, makes of it. */
  lemma AttemptConcludes(w: World, trace: seq<Step>, schedule: seq<seq<Step>>, from: nat, bs: seq<BookingId>,
                         readings: map<nat, Reading>, i: nat)
    requires Safe(w) && i < |bs| && from + i in readings && bs[i] in Run(w, trace).bookings
    ensures AttemptedAt(Before(w, trace, schedule, from, bs, readings, i),
                        Run(w, trace + Attempts(schedule, from, bs[..i + 1], readings)), bs[i], readings[from + i])
  {
    hide Run, Safe, AttemptedAt, Attempts, At, Next;
    var b, k := bs[i], from + i;
    var done := Attempts(schedule, from, bs[..i], readings) + At(schedule, k);
    AttemptsThen(schedule, from, bs, readings, i);
    assert trace + Attempts(schedule, from, bs[..i], readings) + At(schedule, k) == trace + done;
    assert trace + Attempts(schedule, from, bs[..i + 1], readings) == trace + done + [Dispatch(b, readings[k])];
    BookingsStay(w, trace, done, b);
    RunKeepsInv(w, trace + done);
    RunThen(w, trace + done, Dispatch(b, readings[k]));
    AttemptInPlace(Run(w, trace + done), b, readings[k]);
  }

  /** Those moments do occur in the run: the attempts on a prefix of the list are a prefix of all attempts. */
  lemma {:induction false} AttemptsExtend(schedule: seq<seq<Step>>, from: nat, bs: seq<BookingId>, readings: map<nat, Reading>, n: nat)
    requires n <= |bs|
    ensures Attempts(schedule, from, bs[..n], readings) <= Attempts(schedule, from, bs, readings)
  {
    if n < |bs| {
      assert bs[..|bs| - 1][..n] == bs[..n];
      AttemptsExtend(schedule, from, bs[..|bs| - 1], readings, n);
    } else {
      assert bs[..n] == bs;
    }
  }
}
