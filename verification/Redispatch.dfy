/** The rescue of bookings left searching with nobody asked. */
module Redispatch {
  import opened Domain
  import opened Worlds
  import opened Candidates
  import opened Protocol
  import opened Safety
  import opened Databases
  import opened DispatchService
  import opened Interleaving

  /** Searching for a while, with nobody holding or considering the booking. */
  predicate Stranded(w: World, b: BookingId, staleMinutes: nat) {
    && b in w.bookings && w.bookings[b].status.Pending? && w.bookings[b].dispatch.Searching?
    && w.bookings[b].updatedAt < w.now - staleMinutes * MINUTE
    && !HasLiveOffer(w, b) && !IsReserved(w, b)
  }

  function AllStranded(w: World, staleMinutes: nat): set<BookingId> {
    set b | b in w.bookings && Stranded(w, b, staleMinutes)
  }

  /** The list holds every member of the set once. */
  ghost predicate Lists(order: seq<nat>, members: set<nat>) {
    && (forall x :: x in order <==> x in members)
    && forall i, j :: 0 <= i < j < |order| ==> order[i] != order[j]
  }

  /** The rows of a query in whatever order the database returns them. */
  method Rows(members: set<nat>) returns (order: seq<nat>)
    ensures Lists(order, members)
  {
    order := [];
    var todo := members;
    while todo != {}
      invariant todo <= members && Lists(order, members - todo)
      decreases todo
    {
      var x :| x in todo;
      todo, order := todo - {x}, order + [x];
    }
  }

  /**
   * Attempts every booking stranded at the start, each in its own transaction, while others commit in between; a
   * statement without a reading is an attempt that raised. It reports how many attempts did not raise.
   */
  method RedispatchStranded(db: Database, staleMinutes: nat, schedule: seq<seq<Step>>, from: nat,
                            readings: map<nat, Reading>, ghost w: World, ghost trace: seq<Step>)
    returns (recovered: nat, ghost order: seq<BookingId>)
    requires Safe(w) && db.Value() == Run(w, trace)
    modifies db
    ensures Lists(order, AllStranded(Run(w, trace), staleMinutes))
    ensures db.Value() == Run(w, trace + Attempts(schedule, from, order, readings))
    ensures recovered == Completed(from, |order|, readings)
  {
    hide Run, Safe, Attempts, Completed;
    var stranded := Rows(AllStranded(db.Value(), staleMinutes));
    assert forall i :: 0 <= i < |stranded| ==> stranded[i] in stranded;
    var _, completed := AttemptAll(db, schedule, from, stranded, readings, w, trace);
    recovered, order := completed, stranded;
  }

  // ---- A pass nobody disturbs ------------------------------------------------

  /** The attempt does not raise, and no cancellation already holds the booking. */
  predicate Tried(w: World, b: BookingId, readings: map<nat, Reading>, k: nat) { k in readings && !Locked(w, b) }

  /** The first n bookings of the list that were tried are dispatched, and no other booking has changed. */
  ghost predicate Rescuing(w: World, w': World, order: seq<BookingId>, n: nat, from: nat, readings: map<nat, Reading>)
    requires n <= |order|
  {
    && SameSurroundings(w, w') && w'.inFlight == w.inFlight && w'.bookings.Keys == w.bookings.Keys
    && (forall i :: 0 <= i < n && Tried(w, order[i], readings, from + i) ==>
                      order[i] in w.bookings && Dispatched(w, w', order[i], readings[from + i]))
    && (forall b :: b in w.bookings && (forall i :: 0 <= i < n && Tried(w, order[i], readings, from + i) ==> order[i] != b)
                    ==> SameFolder(w, w', b))
  }

  lemma NothingRescuedYet(w: World, order: seq<BookingId>, from: nat, readings: map<nat, Reading>)
    ensures Rescuing(w, w, order, 0, from, readings)
  {
  }

  lemma RescuingWaits(w: World, w': World, order: seq<BookingId>, n: nat, from: nat, readings: map<nat, Reading>)
    requires n < |order| && Rescuing(w, w', order, n, from, readings) && !Tried(w, order[n], readings, from + n)
    ensures Rescuing(w, w', order, n + 1, from, readings)
  {
    hide Dispatched, SameFolder, SameSurroundings, Tried;
  }

  /** One more booking is rescued, and the others keep what they had. */
  lemma RescuingGrows(w: World, w1: World, w2: World, order: seq<BookingId>, n: nat, from: nat, readings: map<nat, Reading>)
    requires n < |order| && Rescuing(w, w1, order, n, from, readings) && Tried(w, order[n], readings, from + n)
    requires forall i :: 0 <= i < n ==> order[i] != order[n]
    requires order[n] in w.bookings && OnlyTouches(w1, w2, order[n]) && SameSurroundings(w1, w2)
    requires w2.bookings.Keys == w1.bookings.Keys && w2.inFlight == w1.inFlight
    requires Dispatched(w, w2, order[n], readings[from + n])
    ensures Rescuing(w, w2, order, n + 1, from, readings)
  {
    hide Dispatched, SameFolder, OnlyTouches;
    forall i | 0 <= i < n + 1 && Tried(w, order[i], readings, from + i)
      ensures order[i] in w.bookings && Dispatched(w, w2, order[i], readings[from + i])
    {
      if i < n {
        TouchedElsewhere(w1, w2, order[n], order[i]);
        DispatchedIsLocal(w, w1, w2, order[i], readings[from + i]);
      }
    }
    forall b | b in w.bookings && (forall i :: 0 <= i < n + 1 && Tried(w, order[i], readings, from + i) ==> order[i] != b)
      ensures SameFolder(w, w2, b)
    {
      assert order[n] != b && SameFolder(w, w1, b);
      TouchedElsewhere(w1, w2, order[n], b);
      SameFolderTwice(w, w1, w2, b);
    }
  }

  lemma RescueStep(w: World, w': World, order: seq<BookingId>, n: nat, from: nat, readings: map<nat, Reading>)
    requires n < |order| && Rescuing(w, w', order, n, from, readings) && Inv(w')
    requires Tried(w, order[n], readings, from + n) && Stranded(w, order[n], 0)
    requires forall i :: 0 <= i < n ==> order[i] != order[n]
    ensures order[n] in w'.bookings
    ensures Rescuing(w, AssignNextContractor(w', order[n], readings[from + n]).0, order, n + 1, from, readings)
  {
    var b, r := order[n], readings[from + n];
    assert SameFolder(w, w', b) && SameSurroundings(w, w') && KeysOk(w');
    hide Rescuing, Inv, Dispatched, SameFolder, OnlyTouches, Stranded, AssignNextContractor, Tried, KeysOk,
         SameSurroundings;
    AssignKeepsInv(w', b, r);
    AttemptDispatches(w, w', b, r);
    AssignKeepsSurroundings(w', b, r);
    BookingKept(w', AssignNextContractor(w', b, r).0, b);
    RescuingGrows(w, w', AssignNextContractor(w', b, r).0, order, n, from, readings);
  }

  lemma BookingKept(w: World, w': World, b: BookingId)
    requires OnlyTouches(w, w', b) && b in w.bookings
    ensures w'.bookings.Keys == w.bookings.Keys
  {
  }

  lemma StrandedNow(w: World, b: BookingId, staleMinutes: nat)
    requires Stranded(w, b, staleMinutes)
    ensures Stranded(w, b, 0)
  {
  }

  /** The attempt on the n-th booking, whether it raises, waits or is made. */
  lemma PassStep(w: World, w': World, order: seq<BookingId>, n: nat, from: nat, readings: map<nat, Reading>, steps: seq<Step>)
    requires n < |order| && Rescuing(w, Run(w', steps), order, n, from, readings) && Inv(Run(w', steps))
    requires Stranded(w, order[n], 0) && forall i :: 0 <= i < n ==> order[i] != order[n]
    ensures Rescuing(w, Run(w', steps + AttemptSteps(order[n], readings, from + n)), order, n + 1, from, readings)
  {
    hide Run, Inv, Stranded, AssignNextContractor;
    if from + n in readings {
      RunThen(w', steps, Dispatch(order[n], readings[from + n]));
    } else {
      assert steps + [] == steps;
    }
    if Tried(w, order[n], readings, from + n) {
      RescueStep(w, Run(w', steps), order, n, from, readings);
    } else {
      RescuingWaits(w, Run(w', steps), order, n, from, readings);
    }
  }

  /**
   * A pass nobody disturbs: every stranded booking that was tried has a live offer, is marked as having nobody left,
   * or met the ceiling; no other booking changed.
   */
  lemma {:induction false} QuietPassRescues(w: World, staleMinutes: nat, order: seq<BookingId>, from: nat,
                                           readings: map<nat, Reading>, n: nat)
    requires Safe(w) && Lists(order, AllStranded(w, staleMinutes)) && n <= |order|
    ensures Safe(Run(w, Attempts([], from, order[..n], readings)))
    ensures Rescuing(w, Run(w, Attempts([], from, order[..n], readings)), order, n, from, readings)
  {
    hide *;
    RunKeepsInv(w, Attempts([], from, order[..n], readings));
    if n == 0 {
      NoAttemptsYet(w, [], [], from, order, readings);
      RunNothing(w);
      NothingRescuedYet(w, order, from, readings);
    } else {
      var m := n - 1;
      var done := Attempts([], from, order[..m], readings);
      QuietPassRescues(w, staleMinutes, order, from, readings, m);
      QuietAttempt(from, order, readings, m);
      InOrder(w, staleMinutes, order, m);
      SafeIsConsistent(Run(w, done));
      PassStep(w, w, order, m, from, readings, done);
    }
  }

  lemma QuietAttempt(from: nat, order: seq<BookingId>, readings: map<nat, Reading>, n: nat)
    requires n < |order|
    ensures Attempts([], from, order[..n + 1], readings)
         == Attempts([], from, order[..n], readings) + AttemptSteps(order[n], readings, from + n)
  {
    AttemptsThen([], from, order, readings, n);
    assert Attempts([], from, order[..n], readings) + [] == Attempts([], from, order[..n], readings);
  }

  lemma InOrder(w: World, staleMinutes: nat, order: seq<BookingId>, n: nat)
    requires n < |order| && Lists(order, AllStranded(w, staleMinutes))
    ensures Stranded(w, order[n], 0) && forall i :: 0 <= i < n ==> order[i] != order[n]
  {
    assert order[n] in order;
    StrandedNow(w, order[n], staleMinutes);
  }

  lemma SafeIsConsistent(w: World)
    requires Safe(w)
    ensures Inv(w)
  {
  }

  /** What such a pass leaves each of them with. */
  lemma QuietPassConcludes(w: World, w': World, staleMinutes: nat, order: seq<BookingId>, from: nat,
                           readings: map<nat, Reading>, i: nat)
    requires Lists(order, AllStranded(w, staleMinutes)) && Rescuing(w, w', order, |order|, from, readings)
    requires i < |order| && Tried(w, order[i], readings, from + i)
    ensures var b := order[i];
            && b in w.bookings && b in w'.bookings
            && (HasLiveOffer(w', b) || w'.bookings[b].dispatch.NoContractor?
                || Decide(w, b, readings[from + i]).CeilingBreached?)
  {
    var b, r := order[i], readings[from + i];
    assert order[i] in order && Stranded(w, b, staleMinutes);
    UnheldIsAttempted(w, b, r);
    AttemptsConclude(w, w', b, r);
  }
}
