/** Closing an account: the protocol's own cancel and decline steps, composed in one transaction. */
module AccountDeletion {
  import opened Domain
  import opened Worlds
  import opened Candidates
  import opened Frames
  import opened Protocol
  import opened Safety
  import opened History
  import opened Databases
  import opened DispatchService
  import opened Responses
  import BookingService
  import OfferService

  datatype Blocker = ActiveBooking(b: BookingId) | PaymentInProgress(b: BookingId) | ActiveJob(b: BookingId)
                   | PayoutPending(b: BookingId)

  /** What jobs and payouts say about an account: bookings whose job is completed, payouts still due. */
  datatype Obligations = Obligations(completed: set<BookingId>, payoutsDue: set<BookingId>)

  function OwnPending(w: World, user: UserId): set<BookingId> {
    set b | b in w.bookings && w.bookings[b].customer == user && w.bookings[b].status.Pending?
  }

  function PendingTo(w: World, user: UserId): set<OfferId> {
    set id | id in w.offers && w.offers[id].contractor == user && w.offers[id].status.Pending?
  }

  predicate ChargeStarted(p: Payment) {
    p.status.Pending? || p.status.Processing? || p.status.RequiresAction? || p.status.Succeeded?
  }

  /** A booking, payment, job or payout somebody is still waiting for. */
  predicate Blocks(w: World, user: UserId, due: Obligations, blocker: Blocker) {
    match blocker
    case ActiveBooking(b) =>
      b in w.bookings && w.bookings[b].customer == user && w.bookings[b].status.Confirmed? && b !in due.completed
    case PaymentInProgress(b) => b in OwnPending(w, user) && b in w.payments && ChargeStarted(w.payments[b])
    case ActiveJob(b) =>
      && HasProfile(w, user)
      && ((exists id :: id in w.offers && w.offers[id].booking == b && w.offers[id].contractor == user
                        && w.offers[id].status.AcceptedPendingPayment?)
          || (b in w.bookings && w.bookings[b].assignee == Some(user) && w.bookings[b].status.Confirmed?
              && b !in due.completed))
    case PayoutPending(b) => b in due.payoutsDue
  }

  /** One entry per booking, in whatever order the query returns them. */
  method Report(bookings: set<BookingId>, entry: BookingId -> Blocker) returns (entries: seq<Blocker>)
    ensures forall x :: x in entries <==> exists b :: b in bookings && x == entry(b)
  {
    entries := [];
    var todo := bookings;
    while todo != {}
      invariant todo <= bookings
      invariant forall x :: x in entries <==> exists b :: b in bookings - todo && x == entry(b)
      decreases todo
    {
      var b :| b in todo;
      assert bookings - (todo - {b}) == bookings - todo + {b};
      todo, entries := todo - {b}, entries + [entry(b)];
    }
  }

  /** Everything that blocks the deletion, and nothing else. */
  method DeletionBlockers(db: Database, user: UserId, due: Obligations) returns (blockers: seq<Blocker>)
    ensures forall x :: x in blockers <==> Blocks(db.Value(), user, due, x)
  {
    var active := set b | b in db.bookings && db.bookings[b].customer == user && db.bookings[b].status.Confirmed?
                          && b !in due.completed;
    var first := Report(active, (b: BookingId) => ActiveBooking(b));
    var paying := set b | b in OwnPending(db.Value(), user) && b in db.payments && ChargeStarted(db.payments[b]);
    var second := Report(paying, (b: BookingId) => PaymentInProgress(b));
    var jobs: set<BookingId> := {};
    if HasProfile(db.Value(), user) {
      jobs := (set id | id in db.offers && db.offers[id].contractor == user
                        && db.offers[id].status.AcceptedPendingPayment? :: db.offers[id].booking)
            + (set b | b in db.bookings && db.bookings[b].assignee == Some(user)
                       && db.bookings[b].status.Confirmed? && b !in due.completed);
    }
    var third := Report(jobs, (b: BookingId) => ActiveJob(b));
    var fourth := Report(due.payoutsDue, (b: BookingId) => PayoutPending(b));
    blockers := first + second + third + fourth;
    forall x ensures x in blockers <==> Blocks(db.Value(), user, due, x) {
      match x
      case ActiveBooking(b) => assert x in blockers <==> b in active;
      case PaymentInProgress(b) => assert x in blockers <==> b in paying;
      case ActiveJob(b) =>
        assert x in blockers <==> b in jobs;
        assert b in jobs <==> Blocks(db.Value(), user, due, x);
      case PayoutPending(b) => assert x in blockers <==> b in due.payoutsDue;
    }
  }

  // ---- When it succeeds ------------------------------------------------------

  /** Every inner cancellation goes through. */
  predicate CanCancelOwn(w: World, user: UserId) {
    forall b :: b in OwnPending(w, user) ==>
                  user in w.users && w.users[user].HasCustomerAccess() && (b in w.payments ==> Uncharged(w.payments[b]))
  }

  predicate MayRefuse(w: World, user: UserId, id: OfferId, attempts: map<OfferId, Reading>)
    requires id in w.offers
  {
    user in w.users && w.users[user].HasContractorAccess() && w.offers[id].IsActionable(w.now) && id in attempts
  }

  /**
   * Every inner refusal goes through: each pending offer is still answerable, by an account allowed to answer, and the
   * dispatch attempt that follows does not raise. `attempts` holds the readings of those that do not.
   */
  predicate CanDeclineAll(w: World, user: UserId, attempts: map<OfferId, Reading>) {
    HasProfile(w, user) ==> forall id :: id in PendingTo(w, user) ==> MayRefuse(w, user, id, attempts)
  }

  /** Exactly when a request of a signed-in account succeeds. */
  ghost predicate Deletable(w: World, user: UserId, confirmed: bool, due: Obligations, attempts: map<OfferId, Reading>)
    requires user in w.users
  {
    && !w.users[user].HasAdminAccess()
    && confirmed
    && (forall x :: !Blocks(w, user, due, x))
    && CanCancelOwn(w, user)
    && CanDeclineAll(w, user, attempts)
  }

  // ---- What it leaves --------------------------------------------------------

  /** Only the given offers to the account are open. */
  ghost predicate OnlyOpenAmong(w: World, user: UserId, ids: set<OfferId>) {
    forall id :: id in w.offers && w.offers[id].contractor == user && IsOpen(w.offers[id]) ==> id in ids
  }

  /** No open offer is addressed to the account. */
  ghost predicate NoOpenOfferTo(w: World, user: UserId) { OnlyOpenAmong(w, user, {}) }

  /** The profile table with one account withdrawn from dispatch. */
  function Withdrawn(profiles: seq<Profile>, user: UserId): seq<Profile> {
    seq(|profiles|, i requires 0 <= i < |profiles| =>
      if profiles[i].user == user then profiles[i].(available := false) else profiles[i])
  }

  function Withdrawing(w: World, user: UserId): World { w.(profiles := Withdrawn(w.profiles, user)) }

  function Erased(user: User): User { user.(isActive := false, status := AccountStatus.Deleted) }

  function Refusing(w: World, id: OfferId): World
    requires id in w.offers
  {
    PutOffer(w, id, DeclinedOffer(w.offers[id], w.now))
  }

  /** The offer was refused, and the dispatch attempt that follows a refusal was made for its booking. */
  ghost predicate PassedOn(w: World, w': World, id: OfferId, r: Reading) {
    id in w.offers && Dispatched(Refusing(w, id), w', w.offers[id].booking, r)
  }

  /** An open offer to the account is on this booking. */
  predicate AskedAbout(w: World, user: UserId, b: BookingId) {
    HasProfile(w, user) && exists id :: id in PendingTo(w, user) && w.offers[id].booking == b
  }

  /**
   * What both loops leave: the account is out of dispatch, its pending bookings are cancelled, each offer waiting for
   * its answer is passed on, none is open to it, and every other booking is as it was.
   */
  ghost predicate WorkClosed(w: World, w': World, user: UserId, attempts: map<OfferId, Reading>) {
    && w' == Withdrawing(w, user).(bookings := w'.bookings, offers := w'.offers, nextOffer := w'.nextOffer)
    && w'.bookings.Keys == w.bookings.Keys
    && (forall b :: b in OwnPending(w, user) ==> SameFolder(Cancelling(w, b), w', b))
    && (HasProfile(w, user) ==>
          && NoOpenOfferTo(w', user)
          && forall id :: id in PendingTo(w, user) ==> id in attempts && PassedOn(Withdrawing(w, user), w', id, attempts[id]))
    && (forall b :: b in w.bookings && b !in OwnPending(w, user) && !AskedAbout(w, user, b) ==> SameFolder(w, w', b))
  }

  /** Everything a deletion does: it closes the work and erases the account's own row. */
  ghost predicate DeletedFrom(w: World, w': World, user: UserId, attempts: map<OfferId, Reading>)
    requires user in w.users
  {
    w'.users == w.users[user := Erased(w.users[user])] && WorkClosed(w, w'.(users := w.users), user, attempts)
  }

  // ---- First loop ------------------------------------------------------------

  /** The given bookings are cancelled and every other booking is as it was. */
  ghost predicate CancelledSoFar(w: World, w': World, done: set<BookingId>) {
    && w' == w.(bookings := w'.bookings, offers := w'.offers)
    && w'.bookings.Keys == w.bookings.Keys && done <= w.bookings.Keys
    && (forall b :: b in done ==> SameFolder(Cancelling(w, b), w', b))
    && (forall b :: b in w.bookings && b !in done ==> SameFolder(w, w', b))
  }

  function CancelledFolder(f: Folder, now: Time): Folder {
    Folder(f.booking.(status := Cancelled, cancelledAt := Some(now), updatedAt := now),
           map id | id in f.offers ::
             if IsOpen(f.offers[id]) then ClosedByCancellation(f.offers[id], now) else f.offers[id],
           f.payment)
  }

  lemma CancellingOneFolder(w: World, b: BookingId)
    requires b in w.bookings
    ensures FolderOf(Cancelling(w, b), b) == CancelledFolder(FolderOf(w, b), w.now)
  {
    assert OffersOf(Cancelling(w, b), b) == CancelledFolder(FolderOf(w, b), w.now).offers;
  }

  lemma CancelDecision(w: World, w': World, user: UserId, b: BookingId)
    requires SameFolder(w, w', b) && w'.users == w.users && b in OwnPending(w, user)
    ensures CancelBooking(w', Some(user), b).1.Done? <==>
            user in w.users && w.users[user].HasCustomerAccess() && (b in w.payments ==> Uncharged(w.payments[b]))
    ensures CancelBooking(w', Some(user), b).1.Done? ==> CancelBooking(w', Some(user), b).0 == Cancelling(w', b)
  {
    hide OffersOf;
  }

  /** From equal folders the cancellation leaves equal folders. */
  lemma CancellingAlike(w: World, w': World, b: BookingId)
    requires SameFolder(w, w', b) && w'.now == w.now
    ensures SameFolder(Cancelling(w, b), Cancelling(w', b), b)
  {
    CancellingOneFolder(w, b);
    CancellingOneFolder(w', b);
  }

  lemma CancelledFurther(w: World, w': World, next: World, done: set<BookingId>, b: BookingId)
    requires CancelledSoFar(w, w', done) && b in w.bookings && b !in done
    requires next == w'.(bookings := next.bookings, offers := next.offers) && OnlyTouches(w', next, b)
    requires SameFolder(Cancelling(w, b), next, b)
    ensures CancelledSoFar(w, next, done + {b})
  {
    hide SameFolder, OnlyTouches, Cancelling;
    BookingsKept(w', next, b);
    forall k | k in done + {b} ensures SameFolder(Cancelling(w, k), next, k) {
      if k != b {
        TouchedElsewhere(w', next, b, k);
        SameFolderTwice(Cancelling(w, k), w', next, k);
      }
    }
    forall k | k in w.bookings && k !in done + {b} ensures SameFolder(w, next, k) {
      TouchedElsewhere(w', next, b, k);
      SameFolderTwice(w, w', next, k);
    }
  }

  lemma BookingsKept(w: World, w': World, b: BookingId)
    requires OnlyTouches(w, w', b) && b in w.bookings
    ensures w'.bookings.Keys == w.bookings.Keys
  {
  }

  lemma CancelOneMore(w: World, w': World, done: set<BookingId>, user: UserId, b: BookingId)
    requires Inv(w') && CancelledSoFar(w, w', done) && b in OwnPending(w, user) && b !in done
    ensures CancelBooking(w', Some(user), b).1.Done? <==>
            user in w.users && w.users[user].HasCustomerAccess() && (b in w.payments ==> Uncharged(w.payments[b]))
    ensures CancelBooking(w', Some(user), b).1.Done? ==>
              CancelledSoFar(w, CancelBooking(w', Some(user), b).0, done + {b})
  {
    assert SameFolder(w, w', b) && w'.users == w.users && w'.now == w.now;
    CancelDecision(w, w', user, b);
    assert w'.bookings[b].status.Pending?;
    hide CancelBooking, SameFolder, Inv, OnlyTouches, CancelledSoFar;
    CancellingKeepsInv(w', b);
    CancellingAlike(w, w', b);
    CancelledFurther(w, w', Cancelling(w', b), done, b);
  }

  /** No cancellation in progress holds a booking the deletion needs: it would have to wait for its end. */
  predicate Free(w: World, user: UserId) {
    && (forall b :: b in OwnPending(w, user) ==> !Locked(w, b))
    && (forall id :: id in PendingTo(w, user) ==> !Locked(w, w.offers[id].booking))
  }

  /** The two steps of a cancellation inside the deletion, or the one that is refused. */
  function CancelSteps(w: World, user: UserId, b: BookingId): seq<Step> {
    [StartCancel(Some(user), b)] + if BeginCancel(w, Some(user), b).1.Done? then [EndCancel(b)] else []
  }

  lemma CancelStepsRun(w: World, trace: seq<Step>, user: UserId, b: BookingId)
    requires var cur := Run(w, trace); !Locked(cur, b) && b in cur.bookings
    ensures Run(w, trace + CancelSteps(Run(w, trace), user, b)) == CancelBooking(Run(w, trace), Some(user), b).0
  {
    hide Run;
    var cur := Run(w, trace);
    var begin := StartCancel(Some(user), b);
    RunThen(w, trace, begin);
    hide CancelError;
    if BeginCancel(cur, Some(user), b).1.Done? {
      RunThen(w, trace + [begin], EndCancel(b));
      CancelAtOnce(cur, Some(user), b);
      BeganIsLocked(cur, user, b);
      assert trace + [begin] + [EndCancel(b)] == trace + CancelSteps(cur, user, b);
    } else {
      assert [begin] + [] == [begin];
    }
  }

  lemma BeganIsLocked(w: World, user: UserId, b: BookingId)
    requires !Locked(w, b) && b in w.bookings && BeginCancel(w, Some(user), b).1.Done?
    ensures var begun := Next(w, StartCancel(Some(user), b));
            begun == BeginCancel(w, Some(user), b).0 && Next(begun, EndCancel(b)) == FinishCancel(begun, b)
  {
    hide CancelError, FinishCancel;
  }

  /** Cancels every booking still pending; the first refusal ends the loop. */
  method CancelOwn(db: Database, user: UserId) returns (ok: bool, ghost trace: seq<Step>)
    requires Safe(db.Value()) && forall b :: b in OwnPending(db.Value(), user) ==> !Locked(db.Value(), b)
    modifies db
    ensures db.Value() == Run(old(db.Value()), trace)
    ensures ok <==> old(CanCancelOwn(db.Value(), user))
    ensures ok ==> CancelledSoFar(old(db.Value()), db.Value(), old(OwnPending(db.Value(), user)))
  {
    hide Run, Safe, Inv, CancelledSoFar, CancelBooking, CancelSteps;
    ghost var w := db.Value();
    RunNothing(w);
    NothingCancelledYet(w);
    var todo := OwnPending(db.Value(), user);
    ghost var own := todo;
    trace := [];
    assert own - todo == {};
    while todo != {}
      invariant todo <= own && db.Value() == Run(w, trace) && CancelledSoFar(w, db.Value(), own - todo)
      invariant forall b :: b in own - todo ==>
                              user in w.users && w.users[user].HasCustomerAccess()
                              && (b in w.payments ==> Uncharged(w.payments[b]))
      decreases todo
    {
      var b :| b in todo;
      RunKeepsInv(w, trace);
      SafeIsInv(db.Value());
      FlightSoFar(w, db.Value(), own - todo);
      CancelOneMore(w, db.Value(), own - todo, user, b);
      CancelStepsRun(w, trace, user, b);
      trace := trace + CancelSteps(db.Value(), user, b);
      var outcome := BookingService.Cancel(db, Some(user), b);
      if outcome.Refused? {
        return false, trace;
      }
      assert own - (todo - {b}) == own - todo + {b};
      todo := todo - {b};
    }
    assert own - todo == own;
    ok := true;
  }

  lemma SafeIsInv(w: World)
    requires Safe(w)
    ensures Inv(w) && KeysOk(w)
  {
  }

  lemma FlightSoFar(w: World, w': World, done: set<BookingId>)
    requires CancelledSoFar(w, w', done)
    ensures w'.inFlight == w.inFlight && w'.bookings.Keys == w.bookings.Keys && w'.nextOffer == w.nextOffer
  {
  }

  lemma NothingCancelledYet(w: World)
    ensures CancelledSoFar(w, w, {})
  {
  }

  // ---- Second loop -----------------------------------------------------------

  /** Two pending offers of one contractor are on different bookings. */
  lemma PendingOffersAreApart(w: World, user: UserId, i: OfferId, j: OfferId)
    requires Inv(w) && i in PendingTo(w, user) && j in PendingTo(w, user) && i != j
    ensures w.offers[i].booking != w.offers[j].booking
  {
    if w.offers[i].booking == w.offers[j].booking {
      OffersGoToDifferentPeople(w, i, j);
    }
  }

  /** The handled offers are passed on, no other booking has changed, and only the rest are still open to the account. */
  ghost predicate DeclinedSoFar(m: World, cur: World, handled: set<OfferId>, user: UserId, attempts: map<OfferId, Reading>) {
    && cur == m.(bookings := cur.bookings, offers := cur.offers, nextOffer := cur.nextOffer)
    && cur.bookings.Keys == m.bookings.Keys
    && handled <= PendingTo(m, user)
    && (forall id :: id in handled ==> id in attempts && PassedOn(m, cur, id, attempts[id]))
    && (forall b :: b in m.bookings && !Concerned(m, handled, b) ==> SameFolder(m, cur, b))
    && OnlyOpenAmong(cur, user, PendingTo(m, user) - handled)
  }

  /** One of the offers is on this booking. */
  predicate Concerned(m: World, ids: set<OfferId>, b: BookingId) {
    exists id :: id in ids && id in m.offers && m.offers[id].booking == b
  }

  ghost predicate OutOfDispatch(w: World, user: UserId) {
    forall p :: p in w.profiles && p.user == user ==> !p.available
  }

  /** A dispatch attempt cannot choose an account that is out of dispatch. */
  lemma AssignAvoids(w: World, b: BookingId, r: Reading, user: UserId, todo: set<OfferId>)
    requires b in w.bookings && OutOfDispatch(w, user)
    requires OnlyOpenAmong(w, user, todo)
    ensures var w' := AssignNextContractor(w, b, r).0;
            && w' == w.(bookings := w'.bookings, offers := w'.offers, nextOffer := w'.nextOffer)
            && w'.bookings.Keys == w.bookings.Keys
            && OnlyOpenAmong(w', user, todo)
  {
    if Decide(w, b, r).Offering? {
      ChosenIsAdmissible(w, b, r);
    }
  }

  lemma DeclineDecision(m: World, cur: World, user: UserId, id: OfferId, attempts: map<OfferId, Reading>)
    requires Inv(m) && Inv(cur) && id in PendingTo(m, user) && HasProfile(m, user) && SameSurroundings(m, cur)
    requires SameFolder(m, cur, m.offers[id].booking)
    ensures id in cur.offers && cur.offers[id] == m.offers[id]
    ensures DeclineOffer(cur, user, id, if id in attempts then Some(attempts[id]) else None).1.Done? <==>
            MayRefuse(m, user, id, attempts)
  {
    hide DeclineOffer;
    OfferIsOk(m, id);
    var b := m.offers[id].booking;
    assert id in OffersOf(cur, b) && OffersOf(cur, b)[id] == m.offers[id];
    DeclineExactly(cur, user, id, if id in attempts then Some(attempts[id]) else None);
  }

  lemma RefusingOneFolder(w: World, w': World, id: OfferId)
    requires id in w.offers && id in w'.offers && w.offers[id] == w'.offers[id] && w.now == w'.now
    requires SameFolder(w, w', w.offers[id].booking)
    ensures SameFolder(Refusing(w, id), Refusing(w', id), w.offers[id].booking)
  {
    var b := w.offers[id].booking;
    assert OffersOf(Refusing(w, id), b) == OffersOf(w, b)[id := DeclinedOffer(w.offers[id], w.now)];
    assert OffersOf(Refusing(w', id), b) == OffersOf(w', b)[id := DeclinedOffer(w.offers[id], w.now)];
  }

  /** One more refusal passes its booking on. */
  lemma RefusalPassesOn(m: World, cur: World, user: UserId, id: OfferId, r: Reading)
    requires Inv(m) && Inv(cur) && SameSurroundings(m, cur) && id in PendingTo(m, user) && id in cur.offers
    requires cur.offers[id] == m.offers[id] && m.offers[id].IsActionable(m.now)
    requires SameFolder(m, cur, m.offers[id].booking)
    ensures m.offers[id].booking in Refusing(cur, id).bookings
    ensures PassedOn(m, AssignNextContractor(Refusing(cur, id), m.offers[id].booking, r).0, id, r)
  {
    var b := m.offers[id].booking;
    OfferIsOk(cur, id);
    RefusingOneFolder(m, cur, id);
    CloseKeepsInv(cur, id, DeclinedOffer(cur.offers[id], cur.now));
    hide Consistent, SameFolder, Dispatched, AssignNextContractor;
    AttemptDispatches(Refusing(m, id), Refusing(cur, id), m.offers[id].booking, r);
  }

  lemma DeclinedFurther(m: World, cur: World, next: World, handled: set<OfferId>, user: UserId, id: OfferId,
                        attempts: map<OfferId, Reading>)
    requires Inv(m) && DeclinedSoFar(m, cur, handled, user, attempts)
    requires id in PendingTo(m, user) - handled && id in attempts
    requires OnlyTouches(cur, next, m.offers[id].booking) && next.bookings.Keys == cur.bookings.Keys
    requires next == cur.(bookings := next.bookings, offers := next.offers, nextOffer := next.nextOffer)
    requires PassedOn(m, next, id, attempts[id])
    requires OnlyOpenAmong(next, user, PendingTo(m, user) - handled - {id})
    ensures DeclinedSoFar(m, next, handled + {id}, user, attempts)
  {
    hide Inv, PassedOn, SameFolder, OnlyTouches, OnlyOpenAmong, Concerned;
    forall k | k in handled + {id} ensures k in attempts && PassedOn(m, next, k, attempts[k]) {
      if k != id {
        EarlierStayPassedOn(m, cur, next, user, id, k, attempts[k]);
      }
    }
    forall c | c in m.bookings && !Concerned(m, handled + {id}, c) ensures SameFolder(m, next, c) {
      OthersStayUntouched(m, cur, next, handled, id, c);
    }
    assert PendingTo(m, user) - handled - {id} == PendingTo(m, user) - (handled + {id});
  }

  lemma EarlierStayPassedOn(m: World, cur: World, next: World, user: UserId, id: OfferId, k: OfferId, r: Reading)
    requires Inv(m) && id in PendingTo(m, user) && k in PendingTo(m, user) && k != id
    requires OnlyTouches(cur, next, m.offers[id].booking) && cur.bookings.Keys == m.bookings.Keys
    requires PassedOn(m, cur, k, r)
    ensures PassedOn(m, next, k, r)
  {
    PendingOffersAreApart(m, user, k, id);
    OfferIsOk(m, k);
    hide Inv, PassedOn, SameFolder, OnlyTouches;
    TouchedElsewhere(cur, next, m.offers[id].booking, m.offers[k].booking);
    StaysPassedOn(m, cur, next, k, r);
  }

  lemma OthersStayUntouched(m: World, cur: World, next: World, handled: set<OfferId>, id: OfferId, c: BookingId)
    requires id in m.offers && c in m.bookings && !Concerned(m, handled + {id}, c)
    requires !Concerned(m, handled, c) ==> SameFolder(m, cur, c)
    requires OnlyTouches(cur, next, m.offers[id].booking) && cur.bookings.Keys == m.bookings.Keys
    ensures SameFolder(m, next, c)
  {
    hide SameFolder, OnlyTouches;
    assert id in handled + {id} && handled <= handled + {id};
    TouchedElsewhere(cur, next, m.offers[id].booking, c);
    SameFolderTwice(m, cur, next, c);
  }

  lemma StaysPassedOn(m: World, cur: World, next: World, id: OfferId, r: Reading)
    requires PassedOn(m, cur, id, r) && SameFolder(cur, next, m.offers[id].booking)
    ensures PassedOn(m, next, id, r)
  {
    DispatchedIsLocal(Refusing(m, id), cur, next, m.offers[id].booking, r);
  }

  /** One listed offer is refused exactly when it may be, and then its booking is passed on. */
  lemma DeclineOneMore(m: World, cur: World, handled: set<OfferId>, user: UserId, id: OfferId,
                       attempts: map<OfferId, Reading>)
    requires Inv(m) && Inv(cur) && DeclinedSoFar(m, cur, handled, user, attempts) && id in PendingTo(m, user) - handled
    requires HasProfile(m, user) && OutOfDispatch(m, user)
    ensures var r := if id in attempts then Some(attempts[id]) else None;
            && id in cur.offers && cur.offers[id] == m.offers[id] && cur.inFlight == m.inFlight
            && (DeclineOffer(cur, user, id, r).1.Done? <==> MayRefuse(m, user, id, attempts))
            && (DeclineOffer(cur, user, id, r).1.Done? ==>
                  DeclinedSoFar(m, DeclineOffer(cur, user, id, r).0, handled + {id}, user, attempts))
  {
    var r := if id in attempts then Some(attempts[id]) else None;
    assert cur.bookings.Keys == m.bookings.Keys && id in m.offers;
    OfferIsOk(m, id);
    UntouchedSoFar(m, cur, handled, user, id, attempts);
    DeclineDecision(m, cur, user, id, attempts);
    hide *;
    if DeclineOffer(cur, user, id, r).1.Done? {
      DeclineCascades(cur, user, id, r);
      DeclineWentThrough(m, cur, handled, user, id, attempts, DeclineOffer(cur, user, id, r).0);
    }
  }

  lemma DeclineWentThrough(m: World, cur: World, handled: set<OfferId>, user: UserId, id: OfferId,
                           attempts: map<OfferId, Reading>, next: World)
    requires Inv(m) && Inv(cur) && DeclinedSoFar(m, cur, handled, user, attempts) && id in PendingTo(m, user) - handled
    requires OutOfDispatch(m, user) && MayRefuse(m, user, id, attempts)
    requires SameSurroundings(m, cur) && m.offers[id].booking in m.bookings && SameFolder(m, cur, m.offers[id].booking)
    requires id in cur.offers && cur.offers[id] == m.offers[id] && m.offers[id].booking in cur.bookings
    requires next == AssignNextContractor(Refusing(cur, id), m.offers[id].booking, attempts[id]).0
    ensures DeclinedSoFar(m, next, handled + {id}, user, attempts)
  {
    var b := m.offers[id].booking;
    RefusalPassesOn(m, cur, user, id, attempts[id]);
    CloseKeepsInv(cur, id, DeclinedOffer(cur.offers[id], cur.now));
    AssignKeepsInv(Refusing(cur, id), b, attempts[id]);
    TouchesTwice(cur, Refusing(cur, id), next, b);
    RestStillOpen(m, cur, handled, user, id, attempts);
    AssignAvoids(Refusing(cur, id), b, attempts[id], user, PendingTo(m, user) - handled - {id});
    hide Inv, AssignNextContractor, PassedOn, SameFolder, OnlyTouches, DeclinedSoFar, PendingTo, OnlyOpenAmong;
    DeclinedFurther(m, cur, next, handled, user, id, attempts);
  }

  lemma RestStillOpen(m: World, cur: World, handled: set<OfferId>, user: UserId, id: OfferId,
                      attempts: map<OfferId, Reading>)
    requires DeclinedSoFar(m, cur, handled, user, attempts) && id in PendingTo(m, user) - handled && id in cur.offers
    ensures OutOfDispatch(m, user) ==> OutOfDispatch(Refusing(cur, id), user)
    ensures OnlyOpenAmong(Refusing(cur, id), user, PendingTo(m, user) - handled - {id})
  {
    hide PassedOn, SameFolder;
  }

  lemma TouchesTwice(w0: World, w1: World, w2: World, b: BookingId)
    requires OnlyTouches(w0, w1, b) && OnlyTouches(w1, w2, b)
    ensures OnlyTouches(w0, w2, b)
  {
    hide OffersOf;
    forall other | other in w0.bookings && other != b ensures SameFolder(w0, w2, other) {
      SameFolderTwice(w0, w1, w2, other);
    }
  }

  lemma UntouchedSoFar(m: World, cur: World, handled: set<OfferId>, user: UserId, id: OfferId,
                       attempts: map<OfferId, Reading>)
    requires Inv(m) && DeclinedSoFar(m, cur, handled, user, attempts) && id in PendingTo(m, user) - handled
    requires m.offers[id].booking in m.bookings
    ensures SameFolder(m, cur, m.offers[id].booking) && SameSurroundings(m, cur)
  {
    hide Inv;
    forall k | k in handled ensures m.offers[k].booking != m.offers[id].booking {
      PendingOffersAreApart(m, user, k, id);
    }
    assert !Concerned(m, handled, m.offers[id].booking);
  }

  /** Refuses every pending offer of the account; each refusal passes its booking on. */
  method DeclineAll(db: Database, user: UserId, attempts: map<OfferId, Reading>) returns (ok: bool, ghost trace: seq<Step>)
    requires Safe(db.Value()) && HasProfile(db.Value(), user) && OutOfDispatch(db.Value(), user)
    requires forall id :: id in PendingTo(db.Value(), user) ==> !Locked(db.Value(), db.offers[id].booking)
    requires forall id :: id in db.offers && db.offers[id].contractor == user ==>
                            !db.offers[id].status.AcceptedPendingPayment?
    modifies db
    ensures db.Value() == Run(old(db.Value()), trace)
    ensures ok <==> old(CanDeclineAll(db.Value(), user, attempts))
    ensures ok ==> DeclinedSoFar(old(db.Value()), db.Value(), old(PendingTo(db.Value(), user)), user, attempts)
  {
    hide Run, Safe, Inv, DeclinedSoFar, MayRefuse, OutOfDispatch, DeclineOffer;
    SafeIsInv(db.Value());
    ghost var m := db.Value();
    RunNothing(m);
    var todo := PendingTo(db.Value(), user);
    ghost var listed := todo;
    NothingDeclinedYet(m, user, attempts);
    trace := [];
    assert listed - todo == {};
    while todo != {}
      invariant todo <= listed && db.Value() == Run(m, trace)
      invariant DeclinedSoFar(m, db.Value(), listed - todo, user, attempts)
      invariant forall id :: id in listed - todo ==> MayRefuse(m, user, id, attempts)
      decreases todo
    {
      var id :| id in todo;
      var attempt := if id in attempts then Some(attempts[id]) else None;
      RunKeepsInv(m, trace);
      SafeIsInv(db.Value());
      DeclineOneMore(m, db.Value(), listed - todo, user, id, attempts);
      RunThen(m, trace, Step.Decline(user, id, attempt));
      var outcome := OfferService.Decline(db, user, id, attempt);
      trace := trace + [Step.Decline(user, id, attempt)];
      if outcome.Refused? {
        return false, trace;
      }
      assert listed - (todo - {id}) == listed - todo + {id};
      todo := todo - {id};
    }
    assert listed - todo == listed;
    ok := true;
  }

  lemma NothingDeclinedYet(m: World, user: UserId, attempts: map<OfferId, Reading>)
    requires forall id :: id in m.offers && m.offers[id].contractor == user ==> !m.offers[id].status.AcceptedPendingPayment?
    ensures DeclinedSoFar(m, m, {}, user, attempts)
  {
  }

  // ---- The whole transaction -------------------------------------------------

  lemma WaitsForAnswer(w: World, user: UserId, id: OfferId)
    ensures id in PendingTo(w, user) <==> id in w.offers && w.offers[id].contractor == user && w.offers[id].status.Pending?
  {
  }

  lemma AddresseeStays(w: World, w': World, id: OfferId)
    requires Evolves(w, w') && w'.nextOffer == w.nextOffer && id in w'.offers && id < w'.nextOffer
    ensures id in w.offers && w.offers[id].contractor == w'.offers[id].contractor
  {
    assert OfferEvolves(w.offers[id], w'.offers[id]);
  }

  /** Cancelling an account's own bookings never touches an offer addressed to it: nobody is offered their own booking. */
  lemma OwnOffersSpared(w: World, trace: seq<Step>, user: UserId)
    requires Safe(w) && CancelledSoFar(w, Run(w, trace), OwnPending(w, user))
    ensures PendingTo(Run(w, trace), user) == PendingTo(w, user)
    ensures forall id :: id in Run(w, trace).offers && Run(w, trace).offers[id].contractor == user ==>
                           id in w.offers && w.offers[id] == Run(w, trace).offers[id]
  {
    hide *;
    var w' := Run(w, trace);
    RunEvolves(w, trace);
    SafeIsInv(w');
    SafeIsInv(w);
    FlightSoFar(w, w', OwnPending(w, user));
    forall id | id in w'.offers && w'.offers[id].contractor == user
      ensures id in w.offers && w.offers[id] == w'.offers[id]
    {
      OfferIsOk(w', id);
      AddresseeStays(w, w', id);
      SparedOffer(w, w', user, id);
    }
    forall id ensures id in PendingTo(w', user) <==> id in PendingTo(w, user) {
      WaitsForAnswer(w, user, id);
      WaitsForAnswer(w', user, id);
      if id in PendingTo(w, user) {
        SparedOffer(w, w', user, id);
      }
    }
  }

  lemma SparedOffer(w: World, w': World, user: UserId, id: OfferId)
    requires Inv(w) && CancelledSoFar(w, w', OwnPending(w, user)) && id in w.offers && w.offers[id].contractor == user
    ensures id in w'.offers && w'.offers[id] == w.offers[id]
  {
    OfferIsOk(w, id);
    var b := w.offers[id].booking;
    assert SameFolder(w, w', b);
    assert id in OffersOf(w', b) && OffersOf(w', b)[id] == w.offers[id];
  }

  lemma WithdrawingIsAllowed(w: World, user: UserId)
    requires KeysOk(w)
    ensures EnvironmentMay(w, w.users, Withdrawn(w.profiles, user))
  {
    var ps := Withdrawn(w.profiles, user);
    forall p | p in w.profiles ensures exists q :: q in ps && q.user == p.user {
      var i :| 0 <= i < |w.profiles| && w.profiles[i] == p;
      assert ps[i] in ps;
    }
  }

  lemma ErasingIsAllowed(w: World, user: UserId, erased: User)
    requires KeysOk(w)
    ensures EnvironmentMay(w, w.users[user := erased], w.profiles)
  {
  }

  lemma NothingReserved(w: World, user: UserId, due: Obligations)
    requires HasProfile(w, user) && forall x :: !Blocks(w, user, due, x)
    ensures forall id :: id in w.offers && w.offers[id].contractor == user ==> !w.offers[id].status.AcceptedPendingPayment?
  {
    forall id | id in w.offers && w.offers[id].contractor == user
      ensures !w.offers[id].status.AcceptedPendingPayment?
    {
      assert !Blocks(w, user, due, ActiveJob(w.offers[id].booking));
    }
  }

  lemma WithdrawnIsOut(w: World, user: UserId, attempts: map<OfferId, Reading>)
    ensures var m := Withdrawing(w, user);
            && (HasProfile(m, user) <==> HasProfile(w, user)) && OutOfDispatch(m, user)
            && (CanDeclineAll(m, user, attempts) <==> CanDeclineAll(w, user, attempts))
            && PendingTo(m, user) == PendingTo(w, user)
  {
    var m := Withdrawing(w, user);
    assert forall i :: 0 <= i < |w.profiles| ==> m.profiles[i].user == w.profiles[i].user;
    assert PendingTo(m, user) == PendingTo(w, user);
    assert forall id :: id in PendingTo(w, user) ==> MayRefuse(m, user, id, attempts) == MayRefuse(w, user, id, attempts);
  }

  lemma NothingToWithdraw(w: World, user: UserId)
    requires !HasProfile(w, user)
    ensures Withdrawing(w, user) == w
  {
    assert Withdrawn(w.profiles, user) == w.profiles;
  }

  /** Takes the account's profile out of dispatch. */
  method Withdraw(db: Database, user: UserId) returns (ghost withdraw: Step)
    requires Safe(db.Value())
    modifies db
    ensures db.Value() == Run(old(db.Value()), [withdraw]) && Safe(db.Value())
    ensures db.Value() == old(Withdrawing(db.Value(), user))
  {
    SafeIsInv(db.Value());
    hide Run, Safe, Inv;
    ghost var w := db.Value();
    withdraw := Environment(db.users, Withdrawn(db.profiles, user));
    WithdrawingIsAllowed(w, user);
    NextKeepsInv(w, withdraw);
    RunNothing(w);
    RunThen(w, [], withdraw);
    assert [] + [withdraw] == [withdraw];
    db.profiles := Withdrawn(db.profiles, user);
  }

  /** The contractor's half: out of dispatch first, then every open offer passed on. */
  method LeaveDispatch(db: Database, user: UserId, attempts: map<OfferId, Reading>)
    returns (ok: bool, ghost trace: seq<Step>)
    requires Safe(db.Value()) && HasProfile(db.Value(), user)
    requires forall id :: id in PendingTo(db.Value(), user) ==> !Locked(db.Value(), db.offers[id].booking)
    requires forall id :: id in db.offers && db.offers[id].contractor == user ==> !db.offers[id].status.AcceptedPendingPayment?
    modifies db
    ensures db.Value() == Run(old(db.Value()), trace)
    ensures ok <==> old(CanDeclineAll(db.Value(), user, attempts))
    ensures ok ==> DeclinedSoFar(old(Withdrawing(db.Value(), user)), db.Value(), old(PendingTo(db.Value(), user)), user, attempts)
  {
    hide Run, Safe, HasProfile, CanDeclineAll, Withdrawn, DeclinedSoFar, OutOfDispatch;
    ghost var w := db.Value();
    WithdrawnIsOut(w, user, attempts);
    ghost var withdraw := Withdraw(db, user);
    ok, trace := DeclineAll(db, user, attempts);
    RunConcat(w, [withdraw], trace);
    trace := [withdraw] + trace;
  }

  /** After the cancellations the contractor's half is exactly as possible as it was before them. */
  lemma DecliningUnaffected(w: World, trace: seq<Step>, user: UserId, due: Obligations, attempts: map<OfferId, Reading>)
    requires Safe(w) && CancelledSoFar(w, Run(w, trace), OwnPending(w, user)) && forall x :: !Blocks(w, user, due, x)
    ensures CanDeclineAll(Run(w, trace), user, attempts) <==> CanDeclineAll(w, user, attempts)
    ensures HasProfile(w, user) <==> HasProfile(Run(w, trace), user)
    ensures PendingTo(Run(w, trace), user) == PendingTo(w, user)
    ensures forall id :: id in PendingTo(w, user) ==> id in Run(w, trace).offers && Run(w, trace).offers[id] == w.offers[id]
    ensures HasProfile(w, user) ==>
              forall id :: id in Run(w, trace).offers && Run(w, trace).offers[id].contractor == user ==>
                             !Run(w, trace).offers[id].status.AcceptedPendingPayment?
  {
    hide Run;
    OwnOffersSpared(w, trace, user);
    assert forall id :: id in PendingTo(w, user) ==> w.offers[id] == Run(w, trace).offers[id];
    if HasProfile(w, user) {
      NothingReserved(w, user, due);
    }
  }

  /** Marks the account deleted. */
  method Erase(db: Database, user: UserId, ghost w: World, ghost trace: seq<Step>) returns (ghost erase: Step)
    requires user in db.users && KeysOk(db.Value()) && db.Value() == Run(w, trace)
    modifies db
    ensures db.Value() == Run(w, trace + [erase])
    ensures db.Value() == old(db.Value().(users := db.users[user := Erased(db.users[user])]))
  {
    hide Run;
    var erased := db.users[user].(isActive := false, status := AccountStatus.Deleted);
    ErasingIsAllowed(db.Value(), user, erased);
    erase := Environment(db.users[user := erased], db.profiles);
    RunThen(w, trace, erase);
    db.users := db.users[user := erased];
  }

  lemma NoneAddressed(w: World, mid: World, user: UserId)
    requires CancelledSoFar(w, mid, OwnPending(w, user)) && !HasProfile(w, user)
    ensures WorkClosed(w, mid, user, map[])
  {
    hide SameFolder;
    NothingToWithdraw(w, user);
  }

  /** An offer addressed to the account is never on a booking of its own. */
  lemma NotAskedAboutOwn(w: World, user: UserId, id: OfferId)
    requires Inv(w) && id in PendingTo(w, user)
    ensures w.offers[id].booking in w.bookings && w.offers[id].booking !in OwnPending(w, user)
  {
    OfferIsOk(w, id);
  }

  /** What was passed on after the cancellations was passed on from the start. */
  lemma PassedOnFromTheStart(m: World, m1: World, w': World, id: OfferId, r: Reading)
    requires PassedOn(m1, w', id, r) && id in m.offers && m.offers[id] == m1.offers[id]
    requires SameFolder(m, m1, m.offers[id].booking) && SameSurroundings(m, m1)
    ensures PassedOn(m, w', id, r)
  {
    var b := m.offers[id].booking;
    RefusingOneFolder(m, m1, id);
    hide SameFolder, Dispatched;
    DispatchedFromEither(Refusing(m, id), Refusing(m1, id), w', b, r);
  }

  /** Both loops have run: the cancellations from w to mid, the withdrawal, and the refusals from there to w'. */
  ghost predicate BothRan(w: World, mid: World, w': World, user: UserId, attempts: map<OfferId, Reading>) {
    && CancelledSoFar(w, mid, OwnPending(w, user)) && HasProfile(w, user)
    && PendingTo(mid, user) == PendingTo(w, user)
    && (forall id :: id in PendingTo(w, user) ==> mid.offers[id] == w.offers[id])
    && DeclinedSoFar(Withdrawing(mid, user), w', PendingTo(mid, user), user, attempts)
  }

  /** A booking without an offer to the account is as the cancellations left it. */
  lemma OnlyAskedChange(w: World, mid: World, w': World, user: UserId, attempts: map<OfferId, Reading>, b: BookingId)
    requires BothRan(w, mid, w', user, attempts) && b in w.bookings
    requires forall id :: id in PendingTo(w, user) ==> w.offers[id].booking != b
    ensures SameFolder(mid, w', b)
  {
    hide PassedOn, SameFolder, HasProfile, Withdrawn;
    var m1 := Withdrawing(mid, user);
    WithdrawingKeepsFolders(mid, user, b);
    assert !Concerned(m1, PendingTo(mid, user), b) && SameFolder(m1, w', b);
    SameFolderTwice(mid, m1, w', b);
  }

  lemma BothPassOn(w: World, mid: World, w': World, user: UserId, attempts: map<OfferId, Reading>, id: OfferId)
    requires Inv(w) && BothRan(w, mid, w', user, attempts) && id in PendingTo(w, user)
    ensures id in attempts && PassedOn(Withdrawing(w, user), w', id, attempts[id])
  {
    hide Inv, PassedOn, SameFolder, HasProfile, Withdrawn;
    NotAskedAboutOwn(w, user, id);
    BothHalvesAgree(w, mid, user, w.offers[id].booking);
    PassedOnFromTheStart(Withdrawing(w, user), Withdrawing(mid, user), w', id, attempts[id]);
  }

  lemma BothCancel(w: World, mid: World, w': World, user: UserId, attempts: map<OfferId, Reading>, b: BookingId)
    requires Inv(w) && BothRan(w, mid, w', user, attempts) && b in w.bookings
    ensures b in OwnPending(w, user) ==> SameFolder(Cancelling(w, b), w', b)
    ensures b !in OwnPending(w, user) && !AskedAbout(w, user, b) ==> SameFolder(w, w', b)
  {
    forall id | id in PendingTo(w, user) ensures w.offers[id].booking !in OwnPending(w, user) {
      NotAskedAboutOwn(w, user, id);
    }
    hide Inv, PassedOn, SameFolder, HasProfile, Withdrawn, DeclinedSoFar, Cancelling;
    if b in OwnPending(w, user) {
      OnlyAskedChange(w, mid, w', user, attempts, b);
      SameFolderTwice(Cancelling(w, b), mid, w', b);
    } else if !AskedAbout(w, user, b) {
      OnlyAskedChange(w, mid, w', user, attempts, b);
      SameFolderTwice(w, mid, w', b);
    }
  }

  lemma BothFrame(w: World, mid: World, w': World, user: UserId, attempts: map<OfferId, Reading>)
    requires BothRan(w, mid, w', user, attempts)
    ensures w' == Withdrawing(w, user).(bookings := w'.bookings, offers := w'.offers, nextOffer := w'.nextOffer)
    ensures w'.bookings.Keys == w.bookings.Keys && NoOpenOfferTo(w', user)
  {
    hide PassedOn, SameFolder, HasProfile, Withdrawn, OnlyOpenAmong;
    assert PendingTo(Withdrawing(mid, user), user) == PendingTo(mid, user);
    assert PendingTo(mid, user) - PendingTo(mid, user) == {};
  }

  lemma BothHalves(w: World, mid: World, w': World, user: UserId, attempts: map<OfferId, Reading>)
    requires Inv(w) && BothRan(w, mid, w', user, attempts)
    ensures WorkClosed(w, w', user, attempts)
  {
    hide Inv, PassedOn, SameFolder, HasProfile, AskedAbout, Cancelling, BothRan, OwnPending, PendingTo, Withdrawing,
         NoOpenOfferTo;
    forall id | id in PendingTo(w, user) ensures id in attempts && PassedOn(Withdrawing(w, user), w', id, attempts[id]) {
      BothPassOn(w, mid, w', user, attempts, id);
    }
    forall b | b in w.bookings
      ensures b in OwnPending(w, user) ==> SameFolder(Cancelling(w, b), w', b)
      ensures b !in OwnPending(w, user) && !AskedAbout(w, user, b) ==> SameFolder(w, w', b)
    {
      BothCancel(w, mid, w', user, attempts, b);
    }
    BothFrame(w, mid, w', user, attempts);
    OwnAreBookings(w, user);
  }

  lemma OwnAreBookings(w: World, user: UserId)
    ensures OwnPending(w, user) <= w.bookings.Keys
  {
  }

  lemma BothHalvesAgree(w: World, mid: World, user: UserId, b: BookingId)
    requires SameFolder(w, mid, b)
    ensures SameFolder(Withdrawing(w, user), Withdrawing(mid, user), b)
  {
    WithdrawingKeepsFolders(w, user, b);
    WithdrawingKeepsFolders(mid, user, b);
  }

  lemma WithdrawingKeepsFolders(w: World, user: UserId, b: BookingId)
    requires b in w.bookings
    ensures SameFolder(w, Withdrawing(w, user), b)
  {
  }

  /** Both loops, in order; false as soon as an inner call is refused. */
  method CloseWork(db: Database, user: UserId, due: Obligations, attempts: map<OfferId, Reading>)
    returns (ok: bool, ghost trace: seq<Step>)
    requires Safe(db.Value()) && Free(db.Value(), user) && forall x :: !Blocks(db.Value(), user, due, x)
    modifies db
    ensures db.Value() == Run(old(db.Value()), trace)
    ensures ok <==> old(CanCancelOwn(db.Value(), user) && CanDeclineAll(db.Value(), user, attempts))
    ensures ok ==> WorkClosed(old(db.Value()), db.Value(), user, attempts)
  {
    hide Run, Safe, Inv, Blocks, CancelledSoFar, DeclinedSoFar, WorkClosed, Withdrawing, PendingTo, OwnPending, MayRefuse;
    ghost var w := db.Value();
    SafeIsInv(w);
    ok, trace := CancelOwn(db, user);
    if !ok {
      return;
    }
    ghost var mid := db.Value();
    RunKeepsInv(w, trace);
    DecliningUnaffected(w, trace, user, due, attempts);
    FlightSoFar(w, mid, OwnPending(w, user));
    if HasProfile(db.Value(), user) {
      ghost var more;
      ok, more := LeaveDispatch(db, user, attempts);
      RunConcat(w, trace, more);
      trace := trace + more;
      if ok {
        BothHalves(w, mid, db.Value(), user, attempts);
      }
    } else {
      NoneAddressed(w, mid, user);
      AttemptsDoNotMatter(w, mid, user, attempts);
    }
  }

  lemma AttemptsDoNotMatter(w: World, w': World, user: UserId, attempts: map<OfferId, Reading>)
    requires WorkClosed(w, w', user, map[]) && !HasProfile(w, user)
    ensures WorkClosed(w, w', user, attempts)
  {
    hide SameFolder;
  }

  /**
   * Deletes a signed-in account, once the bookings it needs are free and with nothing in between. It succeeds exactly
   * when Deletable says so; a refusal, wherever it strikes, leaves no trace; success does what DeletedFrom says and
   * nothing else, and is a run of ordinary steps.
   */
  method DeleteAccount(db: Database, user: UserId, confirmed: bool, due: Obligations, attempts: map<OfferId, Reading>)
    returns (ok: bool, ghost trace: seq<Step>)
    requires Safe(db.Value()) && Free(db.Value(), user) && user in db.users
    modifies db
    ensures ok <==> old(Deletable(db.Value(), user, confirmed, due, attempts))
    ensures db.Value() == Run(old(db.Value()), trace) && Safe(db.Value())
    ensures !ok ==> db.Value() == old(db.Value())
    ensures ok ==> DeletedFrom(old(db.Value()), db.Value(), user, attempts)
  {
    hide Run, Safe, Inv, Blocks, WorkClosed, CanCancelOwn, CanDeclineAll, Free;
    ghost var w := db.Value();
    RunNothing(w);
    if db.users[user].HasAdminAccess() || !confirmed {
      return false, [];
    }
    var blockers := DeletionBlockers(db, user, due);
    if blockers != [] {
      assert blockers[0] in blockers && Blocks(w, user, due, blockers[0]);
      return false, [];
    }
    var saved := db.Value();
    ok, trace := CloseWork(db, user, due, attempts);
    if !ok {
      db.Restore(saved);
      return false, [];
    }
    RunKeepsInv(w, trace);
    SafeIsInv(db.Value());
    ghost var closed := db.Value();
    AccountsKept(w, closed, user, attempts);
    ghost var erase := Erase(db, user, w, trace);
    trace := trace + [erase];
    RunKeepsInv(w, trace);
    assert db.Value().(users := w.users) == closed;
  }

  lemma AccountsKept(w: World, closed: World, user: UserId, attempts: map<OfferId, Reading>)
    requires WorkClosed(w, closed, user, attempts)
    ensures closed.users == w.users
  {
    hide SameFolder, PassedOn;
  }

  /** The account is gone: nothing pending of its own, nothing asked of it, and out of dispatch. */
  ghost predicate Closed(w: World, user: UserId) {
    && user in w.users && w.users[user].status.Deleted? && !w.users[user].isActive
    && OwnPending(w, user) == {}
    && OutOfDispatch(w, user)
    && (HasProfile(w, user) ==> NoOpenOfferTo(w, user))
  }

  lemma QueriesIgnoreProfiles(w: World, w': World, b: BookingId)
    requires w' == w.(profiles := w'.profiles)
    ensures HasLiveOffer(w', b) == HasLiveOffer(w, b) && IsReserved(w', b) == IsReserved(w, b)
  {
  }

  /** An attempt keeps the customer, and every offer the booking had. */
  lemma DispatchKeepsRows(w: World, w': World, b: BookingId, r: Reading, id: OfferId)
    requires Dispatched(w, w', b, r) && id in w.offers && w.offers[id].booking == b
    ensures w'.bookings[b].customer == w.bookings[b].customer && w'.bookings[b].status == w.bookings[b].status
    ensures id in w'.offers && w'.offers[id] == w.offers[id]
  {
    hide Decide;
    assert FolderOf(w', b).booking == w'.bookings[b] && id in OffersOf(w, b);
    assert id in FolderOf(w', b).offers;
    assert OffersOf(w', b)[id] == OffersOf(w, b)[id];
  }

  lemma NoneOwnLeft(w: World, closed: World, user: UserId, attempts: map<OfferId, Reading>, b: BookingId)
    requires Inv(w) && WorkClosed(w, closed, user, attempts) && b in w.bookings
    ensures closed.bookings[b].customer == user ==> !closed.bookings[b].status.Pending?
  {
    if b in OwnPending(w, user) {
      assert SameFolder(Cancelling(w, b), closed, b);
      assert FolderOf(closed, b).booking == closed.bookings[b];
    } else if AskedAbout(w, user, b) {
      var id :| id in PendingTo(w, user) && w.offers[id].booking == b;
      OfferIsOk(w, id);
      hide Inv, Decide, OffersOf, Withdrawn, SameFolder;
      assert PassedOn(Withdrawing(w, user), closed, id, attempts[id]);
      DispatchKeepsRows(Refusing(Withdrawing(w, user), id), closed, b, attempts[id], id);
    } else {
      assert SameFolder(w, closed, b);
      assert FolderOf(closed, b).booking == closed.bookings[b];
    }
  }

  lemma DeletionCloses(w: World, w': World, user: UserId, attempts: map<OfferId, Reading>)
    requires user in w.users && DeletedFrom(w, w', user, attempts) && Inv(w)
    ensures Closed(w', user)
  {
    WithdrawnIsOut(w, user, attempts);
    forall b | b in w'.bookings ensures b !in OwnPending(w', user) {
      NoneOwnLeft(w, w'.(users := w.users), user, attempts, b);
    }
    hide Inv, PassedOn, SameFolder, Withdrawn;
  }

  /**
   * A booking whose offer the deletion refused keeps its customer and its refused offer, and now has a live offer to
   * somebody else, is marked as having nobody left, or met the ceiling.
   */
  lemma PassedOnMeans(w: World, w': World, user: UserId, id: OfferId, attempts: map<OfferId, Reading>)
    requires Inv(w) && WorkClosed(w, w', user, attempts) && HasProfile(w, user) && id in PendingTo(w, user)
    requires w.offers[id].IsActionable(w.now)
    ensures var b := w.offers[id].booking;
            && b in w.bookings && b in w'.bookings && id in attempts
            && w'.bookings[b].customer == w.bookings[b].customer != user
            && id in w'.offers && w'.offers[id] == DeclinedOffer(w.offers[id], w.now)
            && (HasLiveOffer(w', b) || w'.bookings[b].dispatch.NoContractor?
                || Decide(Refusing(Withdrawing(w, user), id), b, attempts[id]).CeilingBreached?)
            && forall j :: j in w'.offers && w'.offers[j].IsActionable(w'.now) ==> w'.offers[j].contractor != user
  {
    var b := w.offers[id].booking;
    OfferIsOk(w, id);
    AnswerableOffer(w, id);
    UnheldAfterClosing(w, id);
    var closed := Refusing(Withdrawing(w, user), id);
    assert PassedOn(Withdrawing(w, user), w', id, attempts[id]);
    QueriesIgnoreProfiles(Refusing(w, id), closed, b);
    UnheldIsAttempted(closed, b, attempts[id]);
    hide Inv, Decide, Withdrawn, HasLiveOffer, IsReserved;
    DispatchKeepsRows(closed, w', b, attempts[id], id);
    AttemptsConclude(closed, w', b, attempts[id]);
  }

  // ---- Afterwards ------------------------------------------------------------

  /** Both edits that would let dispatch choose the account: active again, and available again. */
  predicate Reinstated(w: World, user: UserId) {
    && user in w.users && w.users[user].isActive && w.users[user].status.Active?
    && exists p :: p in w.profiles && p.user == user && p.available
  }

  lemma ClosedIsNotReinstated(w: World, user: UserId)
    requires Closed(w, user)
    ensures !Reinstated(w, user)
  {
  }

  lemma AssignedIsReinstated(w: World, b: BookingId, r: Reading, id: OfferId)
    requires b in w.bookings && id in AssignNextContractor(w, b, r).0.offers && id !in w.offers
    ensures Reinstated(w, AssignNextContractor(w, b, r).0.offers[id].contractor)
  {
    if Decide(w, b, r).Offering? {
      ChosenIsAdmissible(w, b, r);
    }
  }

  lemma CascadedIsReinstated(w: World, user: UserId, j: OfferId, r: Option<Reading>, id: OfferId)
    requires id in DeclineOffer(w, user, j, r).0.offers && id !in w.offers
    ensures Reinstated(w, DeclineOffer(w, user, j, r).0.offers[id].contractor)
  {
    hide AssignNextContractor, Reinstated;
    var declined := PutOffer(w, j, DeclinedOffer(w.offers[j], w.now));
    AssignedIsReinstated(declined, w.offers[j].booking, r.value, id);
    SameStanding(w, declined, DeclineOffer(w, user, j, r).0.offers[id].contractor);
  }

  lemma SameStanding(w: World, w': World, user: UserId)
    requires w'.users == w.users && w'.profiles == w.profiles
    ensures Reinstated(w', user) == Reinstated(w, user)
  {
  }

  /** Only an account that is active and available is ever offered work, at the very step that offers it. */
  lemma OfferedIsReinstated(w: World, s: Step, id: OfferId)
    requires id in Next(w, s).offers && id !in w.offers
    ensures Reinstated(w, Next(w, s).offers[id].contractor)
  {
    hide AssignNextContractor, DeclineOffer, CreateBooking, Reinstated;
    if s.Dispatch? {
      AssignedIsReinstated(w, s.b, s.reading, id);
    } else if s.Decline? {
      CascadedIsReinstated(w, s.user, s.id, s.attempt, id);
    } else if !s.Environment? {
      NothingAdded(w, s);
    }
  }

  /** Nothing but an edit of accounts and profiles reinstates anybody. */
  lemma ReinstatingIsAnEdit(w: World, s: Step, user: UserId)
    requires !Reinstated(w, user) && Reinstated(Next(w, s), user)
    ensures s.Environment?
  {
    hide Next;
    StepWrites(w, s);
  }

  /** The offers addressed to the account were all there before. */
  ghost predicate NothingNewTo(w: World, w': World, user: UserId) {
    forall id :: id in w'.offers && w'.offers[id].contractor == user ==> id in w.offers
  }

  /**
   * A closed account is offered work again only after both edits: in a run in which it is never active and available
   * at once, no offer is made to it. (An administrator can activate a deleted account; nobody else can.)
   */
  lemma {:induction false} ClosedNeedsReinstating(w: World, steps: seq<Step>, user: UserId)
    requires Safe(w) && !Reinstated(w, user) && !NothingNewTo(w, Run(w, steps), user)
    ensures exists n :: 0 < n < |steps| && Reinstated(Run(w, steps[..n]), user)
  {
    hide Next, Safe, Reinstated;
    if steps == [] {
      RunNothing(w);
      assert false;
    } else {
      var n := |steps| - 1;
      var before := Run(w, steps[..n]);
      if NothingNewTo(w, before, user) {
        var id :| id in Run(w, steps).offers && Run(w, steps).offers[id].contractor == user && id !in w.offers;
        RunEvolves(w, steps[..n]);
        NextEvolves(before, steps[n]);
        StillAddressed(w, before, steps[n], user, id);
        RunNothing(w);
        assert n == 0 ==> steps[..n] == [];
        OfferedIsReinstated(before, steps[n], id);
      } else {
        ClosedNeedsReinstating(w, steps[..n], user);
        var k :| 0 < k < n && Reinstated(Run(w, steps[..n][..k]), user);
        assert steps[..n][..k] == steps[..k];
      }
    }
  }

  lemma StillAddressed(w: World, before: World, s: Step, user: UserId, id: OfferId)
    requires Safe(before) && NothingNewTo(w, before, user) && Evolves(before, Next(before, s))
    requires id in Next(before, s).offers && Next(before, s).offers[id].contractor == user && id !in w.offers
    ensures id !in before.offers
  {
    hide Next;
    if id in before.offers {
      KeepsItsAddressee(before, Next(before, s), id);
    }
  }

  lemma KeepsItsAddressee(w: World, w': World, id: OfferId)
    requires Safe(w) && Evolves(w, w') && id in w.offers && id in w'.offers
    ensures w'.offers[id].contractor == w.offers[id].contractor
  {
    OfferIsOk(w, id);
    assert OfferEvolves(w.offers[id], w'.offers[id]);
  }

  // ---- What the blockers do not report ---------------------------------------

  /**
   * An account without blockers can still be refused, in exactly five situations: it may not cancel a booking of its
   * own, one of them was refunded, it may not answer an offer, an offer to it has lapsed and no sweep has closed it yet,
   * or the dispatch attempt after a refusal raises.
   */
  lemma UnreportedObstacles(w: World, user: UserId, due: Obligations, attempts: map<OfferId, Reading>)
    requires user in w.users && !w.users[user].HasAdminAccess() && forall x :: !Blocks(w, user, due, x)
    ensures !Deletable(w, user, true, due, attempts) <==>
            || (OwnPending(w, user) != {} && !w.users[user].HasCustomerAccess())
            || (exists b :: b in OwnPending(w, user) && b in w.payments && w.payments[b].status.Refunded?)
            || (HasProfile(w, user) && PendingTo(w, user) != {} && !w.users[user].HasContractorAccess())
            || (HasProfile(w, user) && exists id :: id in PendingTo(w, user) && w.offers[id].expiresAt <= w.now)
            || (HasProfile(w, user) && exists id :: id in PendingTo(w, user) && id !in attempts)
  {
    hide HasProfile, Blocks;
    forall b | b in OwnPending(w, user) && b in w.payments
      ensures Uncharged(w.payments[b]) <==> !w.payments[b].status.Refunded?
    {
      OnlyRefundsStandInTheWay(w, user, due, b);
    }
  }

  /** Without blockers, the payment half fails exactly on a refunded payment of a booking still pending. */
  lemma OnlyRefundsStandInTheWay(w: World, user: UserId, due: Obligations, b: BookingId)
    requires forall x :: !Blocks(w, user, due, x)
    requires b in OwnPending(w, user) && b in w.payments
    ensures Uncharged(w.payments[b]) <==> !w.payments[b].status.Refunded?
  {
    assert !Blocks(w, user, due, PaymentInProgress(b));
  }
}
