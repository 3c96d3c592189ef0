/** The periodic sweep that times offers out, interleaved statement by statement with everybody else. */
module ExpirySweep {
  import opened Domain
  import opened Worlds
  import opened Candidates
  import opened Protocol
  import opened Safety
  import opened History
  import opened Databases
  import opened DispatchService
  import opened Interleaving
  import opened Redispatch

  /** The offers a sweep reads at its start. */
  function Lapsed(w: World): set<OfferId> {
    set id | id in w.offers && w.offers[id].status.Pending? && w.offers[id].expiresAt < w.now
  }

  // ---- One stale update ------------------------------------------------------

  /** However stale the list, an offer on it had lapsed at the snapshot, so the conditional update is a legal step. */
  lemma StaleUpdateIsLegal(w: World, trace: seq<Step>, id: OfferId)
    requires Safe(w) && id in Lapsed(w)
    ensures Run(w, trace + [Expire(id, w.now)]) == ExpireIfPending(Run(w, trace), id, w.now)
  {
    hide Run, CancelledFrozen, BookingsEvolve, Consistent;
    var cur := Run(w, trace);
    RunEvolves(w, trace);
    RunThen(w, trace, Expire(id, w.now));
    if id in cur.offers {
      assert OfferEvolves(w.offers[id], cur.offers[id]);
    }
  }

  lemma DeparturesThen(w: World, trace: seq<Step>, s: Step, id: OfferId)
    requires IsPending(Run(w, trace), id) && id in Run(w, trace + [s]).offers && !IsPending(Run(w, trace + [s]), id)
    ensures Departures(w, trace + [s], id) == Departures(w, trace, id) + 1
  {
    hide Run;
    assert (trace + [s])[..|trace + [s]| - 1] == trace;
  }

  /** After the update the offer is settled, and if this worker made it, its one departure has happened. */
  lemma StaleUpdateSettles(w: World, trace: seq<Step>, id: OfferId)
    requires Safe(w) && id in Lapsed(w)
    ensures !IsPending(Run(w, trace + [Expire(id, w.now)]), id)
    ensures IsPending(Run(w, trace), id) ==> Departures(w, trace + [Expire(id, w.now)], id) == 1
  {
    hide Run;
    StaleUpdateIsLegal(w, trace, id);
    if IsPending(Run(w, trace), id) {
      DeparturesThen(w, trace, Expire(id, w.now), id);
      LeavesPendingOnce(w, trace + [Expire(id, w.now)], id);
    }
  }

  lemma {:induction false} DeparturesGrow(w: World, first: seq<Step>, second: seq<Step>, id: OfferId)
    ensures Departures(w, first, id) <= Departures(w, first + second, id)
  {
    if second == [] {
      assert first + second == first;
    } else {
      var n := |second| - 1;
      DeparturesGrow(w, first, second[..n], id);
      assert (first + second)[..|first + second| - 1] == first + second[..n];
    }
  }

  /** Once an offer on the list is no longer pending it stays so, and its one departure stays counted. */
  lemma SettledStays(w: World, first: seq<Step>, second: seq<Step>, id: OfferId)
    requires Safe(w) && id < w.nextOffer
    ensures !IsPending(Run(w, first), id) ==> !IsPending(Run(w, first + second), id)
    ensures Departures(w, first, id) == 1 ==> Departures(w, first + second, id) == 1
  {
    hide Run;
    RunEvolves(w, first);
    RunConcat(w, first, second);
    RunEvolves(Run(w, first), second);
    if !IsPending(Run(w, first), id) {
      NeverPendingAgain(Run(w, first), Run(w, first + second), id);
    }
    DeparturesGrow(w, first, second, id);
    LeavesPendingOnce(w, first + second, id);
  }

  // ---- The updates of a sweep ------------------------------------------------

  /** The conditional updates of a list, one statement each, with what others commit in between. */
  function Updates(schedule: seq<seq<Step>>, order: seq<OfferId>, at: Time): seq<Step> {
    if order == [] then []
    else
      var n := |order| - 1;
      Updates(schedule, order[..n], at) + At(schedule, n) + [Expire(order[n], at)]
  }

  /** The offers this worker closes itself: those still pending when their statement runs. */
  ghost function Claimed(w: World, schedule: seq<seq<Step>>, order: seq<OfferId>, at: Time)
    : (ids: seq<OfferId>)
    ensures forall id :: id in ids ==> id in order
  {
    if order == [] then []
    else
      var n := |order| - 1;
      assert order == order[..n] + [order[n]];
      Claimed(w, schedule, order[..n], at)
      + if IsPending(Run(w, Updates(schedule, order[..n], at) + At(schedule, n)), order[n]) then [order[n]] else []
  }

  function BookingsOf(w: World, ids: seq<OfferId>): seq<BookingId>
    requires forall id :: id in ids ==> id in w.offers
  {
    seq(|ids|, i requires 0 <= i < |ids| => w.offers[ids[i]].booking)
  }

  /** Every handled offer is settled, and those this worker claims left PENDING exactly once, in this very run. */
  ghost predicate Swept(w: World, trace: seq<Step>, handled: seq<OfferId>, claimed: seq<OfferId>) {
    && (forall i :: 0 <= i < |handled| ==> handled[i] in Lapsed(w) && !IsPending(Run(w, trace), handled[i]))
    && (forall i :: 0 <= i < |claimed| ==> claimed[i] in handled && Departures(w, trace, claimed[i]) == 1)
    && (forall i, j :: 0 <= i < j < |claimed| ==> claimed[i] != claimed[j])
  }

  lemma SweptStays(w: World, first: seq<Step>, second: seq<Step>, handled: seq<OfferId>, claimed: seq<OfferId>)
    requires Safe(w) && Swept(w, first, handled, claimed)
    ensures Swept(w, first + second, handled, claimed)
  {
    hide Run, Departures;
    forall i | 0 <= i < |handled| ensures !IsPending(Run(w, first + second), handled[i]) {
      SettledStays(w, first, second, handled[i]);
    }
    forall i | 0 <= i < |claimed| ensures Departures(w, first + second, claimed[i]) == 1 {
      SettledStays(w, first, second, claimed[i]);
    }
  }

  lemma SweptOneMore(w: World, trace: seq<Step>, handled: seq<OfferId>, claimed: seq<OfferId>, id: OfferId)
    requires Safe(w) && Swept(w, trace, handled, claimed) && id in Lapsed(w) && id !in handled
    ensures Swept(w, trace + [Expire(id, w.now)], handled + [id],
                  claimed + if IsPending(Run(w, trace), id) then [id] else [])
  {
    hide Run, Departures, Safe, Lapsed, IsPending;
    SweptStays(w, trace, [Expire(id, w.now)], handled, claimed);
    StaleUpdateSettles(w, trace, id);
  }

  /** However the updates are interleaved, every listed offer ends settled, and a claim is an exclusive claim. */
  lemma {:induction false} UpdatesSettle(w: World, schedule: seq<seq<Step>>, order: seq<OfferId>)
    requires Safe(w) && forall i :: 0 <= i < |order| ==> order[i] in Lapsed(w)
    requires forall i, j :: 0 <= i < j < |order| ==> order[i] != order[j]
    ensures Swept(w, Updates(schedule, order, w.now), order, Claimed(w, schedule, order, w.now))
  {
    hide Run, Departures, Safe, Lapsed, Swept;
    if order == [] {
      NothingSwept(w);
    } else {
      var n := |order| - 1;
      var done, claimed := Updates(schedule, order[..n], w.now), Claimed(w, schedule, order[..n], w.now);
      UpdatesSettle(w, schedule, order[..n]);
      SweptStays(w, done, At(schedule, n), order[..n], claimed);
      SweptOneMore(w, done + At(schedule, n), order[..n], claimed, order[n]);
      assert order == order[..n] + [order[n]];
    }
  }

  lemma NothingSwept(w: World)
    ensures Swept(w, [], [], [])
  {
  }

  lemma UpdatesThen(w: World, schedule: seq<seq<Step>>, order: seq<OfferId>, at: Time, n: nat)
    requires n < |order|
    ensures Updates(schedule, order[..n + 1], at)
         == Updates(schedule, order[..n], at) + At(schedule, n) + [Expire(order[n], at)]
    ensures Claimed(w, schedule, order[..n + 1], at)
         == Claimed(w, schedule, order[..n], at)
            + if IsPending(Run(w, Updates(schedule, order[..n], at) + At(schedule, n)), order[n]) then [order[n]] else []
  {
    hide Run;
    assert order[..n + 1][..n] == order[..n];
  }

  lemma NoUpdatesYet(w: World, schedule: seq<seq<Step>>, order: seq<OfferId>, at: Time)
    ensures Updates(schedule, order[..0], at) == [] && Claimed(w, schedule, order[..0], at) == []
  {
  }

  /** First half of a sweep: the offers it read, one conditional update each. */
  method UpdateAll(db: Database, order: seq<OfferId>, schedule: seq<seq<Step>>, at: Time, ghost w: World)
    returns (expired: seq<OfferId>)
    requires Safe(w) && db.Value() == w && at == w.now && forall i :: 0 <= i < |order| ==> order[i] in Lapsed(w)
    modifies db
    ensures db.Value() == Run(w, Updates(schedule, order, at))
    ensures expired == Claimed(w, schedule, order, at)
  {
    hide *;
    RunNothing(w);
    NoUpdatesYet(w, schedule, order, at);
    expired := [];
    for i := 0 to |order|
      invariant db.Value() == Run(w, Updates(schedule, order[..i], at))
      invariant expired == Claimed(w, schedule, order[..i], at)
    {
      UpdatesThen(w, schedule, order, at, i);
      Play(db, At(schedule, i), w, Updates(schedule, order[..i], at));
      StaleUpdateIsLegal(w, Updates(schedule, order[..i], at) + At(schedule, i), order[i]);
      var updated := UpdateIfPending(db, order[i], at);
      if updated {
        expired := expired + [order[i]];
      }
    }
    assert order[..|order|] == order;
  }

  // ---- The whole sweep -------------------------------------------------------

  /** What has happened when the updates and the follow-up attempts are through. */
  ghost function ThroughCascade(w: World, schedule: seq<seq<Step>>, order: seq<OfferId>, readings: map<nat, Reading>)
    : seq<Step>
    requires forall id :: id in order ==> id in w.offers
  {
    Updates(schedule, order, w.now)
    + Attempts(schedule, |order|, BookingsOf(w, Claimed(w, schedule, order, w.now)), readings)
  }

  /** The statement of the sweep that reads the stranded bookings. */
  ghost function RescueIndex(w: World, schedule: seq<seq<Step>>, order: seq<OfferId>): nat {
    |order| + |Claimed(w, schedule, order, w.now)|
  }

  /**
   * The whole sweep, interleaved with whatever `schedule` says other transactions commit before each of its
   * statements: one conditional update for each offer it read, one attempt for each booking whose offer this worker
   * closed, one attempt for each booking stranded by then. A statement without a reading is an attempt that raised.
   */
  method ExpirePendingOffers(db: Database, schedule: seq<seq<Step>>, readings: map<nat, Reading>)
    returns (expired: seq<OfferId>, created: nat, recovered: nat, ghost order: seq<OfferId>, ghost stranded: seq<BookingId>)
    requires Safe(db.Value())
    modifies db
    ensures Lists(order, Lapsed(old(db.Value()))) && forall id :: id in order ==> id in old(db.offers)
    ensures var w := old(db.Value());
            var k := RescueIndex(w, schedule, order);
            var done := ThroughCascade(w, schedule, order, readings) + At(schedule, k);
            && expired == Claimed(w, schedule, order, w.now)
            && (forall id :: id in expired ==> id in w.offers)
            && created == OffersBy(w, Updates(schedule, order, w.now), schedule, |order|, BookingsOf(w, expired), readings,
                                   |expired|)
            && Lists(stranded, AllStranded(Run(w, done), 5))
            && recovered == Completed(k + 1, |stranded|, readings)
            && db.Value() == Run(w, done + Attempts(schedule, k + 1, stranded, readings))
  {
    hide Run, Safe, Updates, Claimed, Attempts, OffersBy, Completed, AllStranded;
    ghost var w := db.Value();
    var now := db.now;
    var pending := Rows(Lapsed(db.Value()));
    order := pending;
    var bookingOf := map id | id in Lapsed(db.Value()) :: db.offers[id].booking;
    expired := UpdateAll(db, pending, schedule, now, w);
    var toCascade := seq(|expired|, i requires 0 <= i < |expired| && expired[i] in bookingOf => bookingOf[expired[i]]);
    assert toCascade == BookingsOf(w, expired);
    ClaimsAreOnBookings(w, Updates(schedule, order, now), expired);
    var made, _ := AttemptAll(db, schedule, |pending|, toCascade, readings, w, Updates(schedule, order, now));
    created := made;
    var k := |pending| + |expired|;
    Play(db, At(schedule, k), w, ThroughCascade(w, schedule, order, readings));
    recovered, stranded := RedispatchStranded(db, 5, schedule, k + 1, readings, w,
                                              ThroughCascade(w, schedule, order, readings) + At(schedule, k));
  }

  lemma ClaimsAreOnBookings(w: World, trace: seq<Step>, ids: seq<OfferId>)
    requires Safe(w) && forall id :: id in ids ==> id in w.offers
    ensures forall i :: 0 <= i < |ids| ==> BookingsOf(w, ids)[i] in Run(w, trace).bookings
  {
    hide Run;
    RunEvolves(w, trace);
    forall i | 0 <= i < |ids| ensures BookingsOf(w, ids)[i] in Run(w, trace).bookings {
      OfferIsOk(w, ids[i]);
    }
  }

  /**
   * Right after its follow-up attempt, a booking whose offer this worker closed has a live offer, is marked as having
   * nobody left, met the ceiling, or was passed over because it is no longer pending, live or held; or the attempt waits
   * for a cancellation.
   */
  lemma FollowUpConcludes(w: World, schedule: seq<seq<Step>>, order: seq<OfferId>, readings: map<nat, Reading>, i: nat)
    requires Safe(w) && Lists(order, Lapsed(w)) && (forall id :: id in order ==> id in w.offers)
    requires i < |Claimed(w, schedule, order, w.now)| && |order| + i in readings
    ensures var bs := BookingsOf(w, Claimed(w, schedule, order, w.now));
            var done := Updates(schedule, order, w.now);
            var before := Before(w, done, schedule, |order|, bs, readings, i);
            var after := Run(w, done + Attempts(schedule, |order|, bs[..i + 1], readings));
            && AttemptedAt(before, after, bs[i], readings[|order| + i])
            && done + Attempts(schedule, |order|, bs[..i + 1], readings) <= ThroughCascade(w, schedule, order, readings)
  {
    hide Run, Safe, Claimed, Updates, Attempts, AttemptedAt, Before;
    var bs := BookingsOf(w, Claimed(w, schedule, order, w.now));
    ClaimsAreOnBookings(w, Updates(schedule, order, w.now), Claimed(w, schedule, order, w.now));
    AttemptConcludes(w, Updates(schedule, order, w.now), schedule, |order|, bs, readings, i);
    AttemptsExtend(schedule, |order|, bs, readings, i + 1);
  }

  /** After the sweep every offer it read is settled, whatever else happened, and its claims are exclusive. */
  lemma SweepSettles(w: World, schedule: seq<seq<Step>>, order: seq<OfferId>, more: seq<Step>)
    requires Safe(w) && Lists(order, Lapsed(w))
    ensures Swept(w, Updates(schedule, order, w.now) + more, order, Claimed(w, schedule, order, w.now))
  {
    hide Run, Safe, Claimed, Updates, Swept;
    assert forall i :: 0 <= i < |order| ==> order[i] in order;
    UpdatesSettle(w, schedule, order);
    SweptStays(w, Updates(schedule, order, w.now), more, order, Claimed(w, schedule, order, w.now));
  }

  /** No later sweep lists an offer this one has settled, whatever happens in between. */
  lemma LaterSweepsSkipTheSettled(w: World, schedule: seq<seq<Step>>, order: seq<OfferId>, more: seq<Step>)
    requires Safe(w) && Lists(order, Lapsed(w))
    ensures Lapsed(Run(w, Updates(schedule, order, w.now) + more)) !! Lapsed(w)
  {
    SweepSettles(w, schedule, order, more);
    hide Run, Safe, Claimed, Updates;
    forall id | id in Lapsed(w) ensures id !in Lapsed(Run(w, Updates(schedule, order, w.now) + more)) {
      var i :| 0 <= i < |order| && order[i] == id;
    }
  }
}
