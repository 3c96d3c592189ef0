/** Small runs from the empty database that show situations the theorems speak of do occur. */
module Scenarios {
  import opened Domain
  import opened Worlds
  import opened Candidates
  import opened Protocol
  import opened Safety
  import opened History
  import opened AccountDeletion
  import Quotes

  const SETTINGS: Settings := Settings(50_000, false, 0)
  const CONFIG: Config := Config(0, 0, 0, "AUD", NearestCent, 1, 0, 60, ServiceHours(false, 0, 0))
  const CONTRACTOR: User := User(Role.Contractor, false, true, AccountStatus.Active)
  const CUSTOMER: User := User(Role.Customer, false, true, AccountStatus.Active)
  const USERS: map<UserId, User> := map[1 := CONTRACTOR, 2 := CUSTOMER]
  const PROFILES: seq<Profile> := [Profile(1, true, true, Some(0))]
  const REQUEST: Request := Request(5, Some(2), true, "Australia/Sydney", 0, None, [Quotes.Entry(7, Some(1))],
                                    map[7 := Quotes.Service("Cleaning", 0, 0, true)], false, None, true)
  const READING: Reading := Reading(true, map[1 := Leg(Some(1_000), Some(1_200))], 0)
  const NOTHING_DUE: Obligations := Obligations({}, {})

  const NEW_BOOKING: Booking :=
    Booking(2, 5, "Australia/Sydney", BookingStatus.Pending, Searching, None, 0, 0, None, 0, None, 1, None, None, None, None, None)
  const SEARCHED: Booking := NEW_BOOKING.(lastAttemptAt := Some(0))
  const OFFER: Offer :=
    Offer(0, 1, OfferStatus.Pending, None, 1, 1_200, Route, 0, 0, 0, 0, 1, 0, 60_000_000, None)

  function Peopled(users: map<UserId, User>, profiles: seq<Profile>): World {
    World(0, SETTINGS, users, profiles, map[], map[], 0, map[], map[], CONFIG, NOTHING_IN_FLIGHT)
  }

  const OPENING: seq<Step> := [Environment(USERS, PROFILES), Create(0, 2, REQUEST), Dispatch(0, READING)]

  const OFFERED: World := Peopled(USERS, PROFILES).(bookings := map[0 := SEARCHED], offers := map[0 := OFFER], nextOffer := 1)

  // ---- Getting there ---------------------------------------------------------

  lemma Peopling(users: map<UserId, User>, profiles: seq<Profile>, users': map<UserId, User>, profiles': seq<Profile>)
    requires EnvironmentMay(Peopled(users, profiles), users', profiles')
    ensures Next(Peopled(users, profiles), Environment(users', profiles')) == Peopled(users', profiles')
  {
  }

  lemma Booking0(w: World)
    requires w == Peopled(USERS, PROFILES)
    ensures Next(w, Create(0, 2, REQUEST)) == w.(bookings := map[0 := NEW_BOOKING])
  {
    assert Quotes.FirstProblem(REQUEST.entries[..0], Quotes.Malformed).None?;
    assert Quotes.FirstProblem(REQUEST.entries[..0], Quotes.Availability(REQUEST.catalogue, false)).None?;
    assert RequestedSelectionError(None, REQUEST).None?;
    assert CreationError(w, 2, REQUEST).None?;
  }

  lemma OnlyCandidate(w: World)
    requires w == Peopled(USERS, PROFILES).(bookings := map[0 := NEW_BOOKING])
    ensures FindCandidates(w, 0, READING) == [Candidate(1, 1_200, Route)]
  {
    var p := PROFILES[0];
    assert Offered(w, 0) == {};
    assert FastCandidate(w, 0, READING, p) == Some(Candidate(1, 1_200, Route));
    assert PROFILES[..0] == [] && Gather(w, 0, READING, PROFILES[..0], true) == [];
    assert Gather(w, 0, READING, PROFILES, true) == [Candidate(1, 1_200, Route)];
    assert [Candidate(1, 1_200, Route)][1..] == [];
  }

  lemma Offering0(w: World)
    requires w == Peopled(USERS, PROFILES).(bookings := map[0 := NEW_BOOKING])
    ensures Next(w, Dispatch(0, READING)) == OFFERED
  {
    OnlyCandidate(w);
    assert NewOffer(w, 0, READING, Candidate(1, 1_200, Route)) == OFFER;
    assert !HasLiveOffer(w, 0) && !IsReserved(w, 0);
    hide FindCandidates;
    assert Decide(w, 0, READING) == Offering(OFFER);
  }

  lemma ThreeSteps(w: World, a: Step, b: Step, c: Step)
    ensures Run(w, [a]) == Next(w, a) && Run(w, [a, b]) == Next(Next(w, a), b)
    ensures Run(w, [a, b, c]) == Next(Next(Next(w, a), b), c)
  {
    hide Run, Next;
    RunNothing(w);
    RunThen(w, [], a);
    RunThen(w, [a], b);
    RunThen(w, [a, b], c);
    assert [] + [a] == [a] && [a] + [b] == [a, b] && [a, b] + [c] == [a, b, c];
  }

  /** A contractor has an answerable offer for a customer's booking. */
  lemma OpeningReaches()
    ensures Reached(0, SETTINGS, CONFIG, OPENING) == OFFERED
  {
    hide Run, Next;
    var start := Start(0, SETTINGS, CONFIG);
    ThreeSteps(start, Environment(USERS, PROFILES), Create(0, 2, REQUEST), Dispatch(0, READING));
    assert start == Peopled(map[], []);
    Peopling(map[], [], USERS, PROFILES);
    Booking0(Peopled(USERS, PROFILES));
    Offering0(Peopled(USERS, PROFILES).(bookings := map[0 := NEW_BOOKING]));
  }

  lemma BookedReaches()
    ensures Reached(0, SETTINGS, CONFIG, OPENING[..2]) == Peopled(USERS, PROFILES).(bookings := map[0 := NEW_BOOKING])
  {
    hide Run, Next;
    var start := Start(0, SETTINGS, CONFIG);
    ThreeSteps(start, Environment(USERS, PROFILES), Create(0, 2, REQUEST), Dispatch(0, READING));
    assert OPENING[..2] == [Environment(USERS, PROFILES), Create(0, 2, REQUEST)];
    assert start == Peopled(map[], []);
    Peopling(map[], [], USERS, PROFILES);
    Booking0(Peopled(USERS, PROFILES));
  }

  // ---- Refused without blockers ----------------------------------------------

  /** The account has no blockers and is refused all the same. */
  ghost predicate RefusedUnannounced(w: World, user: UserId, attempts: map<OfferId, Reading>) {
    && user in w.users && !w.users[user].HasAdminAccess()
    && (forall x :: !Blocks(w, user, NOTHING_DUE, x))
    && !Deletable(w, user, true, NOTHING_DUE, attempts)
  }

  /** A database with the one booking and the one offer of the opening, at whatever stage they are. */
  predicate Staged(w: World) {
    && w.users.Keys == {1, 2} && w.profiles == PROFILES
    && w.bookings == map[0 := SEARCHED] && w.offers.Keys == {0}
    && w.offers[0].booking == 0 && w.offers[0].contractor == 1
  }

  lemma ContractorUnblocked(w: World)
    requires Staged(w) && w.offers[0].status.Pending?
    ensures forall x :: !Blocks(w, 1, NOTHING_DUE, x)
    ensures HasProfile(w, 1) && 0 in PendingTo(w, 1)
  {
    assert w.profiles[0].user == 1;
  }

  lemma CustomerUnblocked(w: World)
    requires Staged(w) && (0 in w.payments ==> w.payments[0].status.Refunded?)
    ensures forall x :: !Blocks(w, 2, NOTHING_DUE, x)
    ensures 0 in OwnPending(w, 2)
  {
    assert !HasProfile(w, 2);
  }

  /** The offer has lapsed and no sweep has closed it. */
  lemma LapsedOfferPreventsDeletion()
    ensures RefusedUnannounced(Reached(0, SETTINGS, CONFIG, OPENING + [Tick(60_000_000)]), 1, map[0 := READING])
  {
    hide Run, Blocks;
    OpeningReaches();
    RunThen(Start(0, SETTINGS, CONFIG), OPENING, Tick(60_000_000));
    var w := OFFERED.(now := 60_000_000);
    ContractorUnblocked(w);
    assert !MayRefuse(w, 1, 0, map[0 := READING]);
  }

  /** The attempt that follows the refusal raises. */
  lemma RaisingAttemptPreventsDeletion()
    ensures RefusedUnannounced(Reached(0, SETTINGS, CONFIG, OPENING), 1, map[])
  {
    hide Run, Blocks;
    OpeningReaches();
    ContractorUnblocked(OFFERED);
    assert !MayRefuse(OFFERED, 1, 0, map[]);
  }

  lemma EditingUsers(w: World, users: map<UserId, User>)
    requires w.users.Keys <= users.Keys && DistinctProfiles(w.profiles)
    ensures Next(w, Environment(users, w.profiles)) == w.(users := users)
  {
    forall p | p in w.profiles ensures exists q :: q in w.profiles && q.user == p.user {
    }
  }

  lemma EditedReaches(users: map<UserId, User>)
    requires USERS.Keys <= users.Keys
    ensures Reached(0, SETTINGS, CONFIG, OPENING + [Environment(users, PROFILES)]) == OFFERED.(users := users)
  {
    hide Run, Next;
    OpeningReaches();
    RunThen(Start(0, SETTINGS, CONFIG), OPENING, Environment(users, PROFILES));
    EditingUsers(OFFERED, users);
  }

  /** The contractor's account has lost its contractor access. */
  lemma LostAccessPreventsDeletion()
    ensures var edit := Environment(USERS[1 := CUSTOMER], PROFILES);
            RefusedUnannounced(Reached(0, SETTINGS, CONFIG, OPENING + [edit]), 1, map[0 := READING])
  {
    hide Run, Blocks, Reached;
    EditedReaches(USERS[1 := CUSTOMER]);
    var w := OFFERED.(users := USERS[1 := CUSTOMER]);
    ContractorUnblocked(w);
    assert !MayRefuse(w, 1, 0, map[0 := READING]);
  }

  /** The owner of the pending booking has become a contractor, who may not cancel it. */
  lemma ChangedRolePreventsDeletion()
    ensures var edit := Environment(USERS[2 := CONTRACTOR], PROFILES);
            RefusedUnannounced(Reached(0, SETTINGS, CONFIG, OPENING + [edit]), 2, map[])
  {
    hide Run, Blocks, Reached;
    EditedReaches(USERS[2 := CONTRACTOR]);
    var w := OFFERED.(users := USERS[2 := CONTRACTOR]);
    CustomerUnblocked(w);
    assert !CanCancelOwn(w, 2);
  }

  const ACCEPTED: World := OFFERED.(offers := map[0 := OFFER.(status := AcceptedPendingPayment, respondedAt := Some(0))])

  lemma Accepting0()
    ensures Next(OFFERED, Accept(1, 0)) == ACCEPTED
  {
    assert HasProfile(OFFERED, 1) by { assert OFFERED.profiles[0].user == 1; }
    assert !IsReserved(OFFERED, 0);
  }

  const CHARGED: World := ACCEPTED.(payments := map[0 := Payment(0, Succeeded, None)])

  lemma Charging0()
    ensures Next(ACCEPTED, Charge(0, Some(Success))) == CHARGED
  {
    assert 0 in ReservingIds(ACCEPTED, 0);
    assert Latest(ReservingIds(ACCEPTED, 0)) == 0;
  }

  lemma Refunding0()
    ensures Next(CHARGED, Settle(0, FullyRefunded)) == CHARGED.(payments := map[0 := Payment(0, Refunded, None)])
  {
  }

  const REFUND: seq<Step> := [Accept(1, 0), Charge(0, Some(Success)), Settle(0, FullyRefunded)]

  /** The payment of a booking still pending was refunded before anybody confirmed it. */
  lemma RefundPreventsDeletion()
    ensures RefusedUnannounced(Reached(0, SETTINGS, CONFIG, OPENING + REFUND), 2, map[])
  {
    hide Run, Next, Blocks;
    OpeningReaches();
    RunConcat(Start(0, SETTINGS, CONFIG), OPENING, REFUND);
    ThreeSteps(OFFERED, Accept(1, 0), Charge(0, Some(Success)), Settle(0, FullyRefunded));
    Accepting0();
    Charging0();
    Refunding0();
    var w := CHARGED.(payments := map[0 := Payment(0, Refunded, None)]);
    CustomerUnblocked(w);
    assert !CanCancelOwn(w, 2);
  }

  // ---- Both edits bring a deleted account back --------------------------------

  const WITHDRAWN: seq<Profile> := [Profile(1, false, true, Some(0))]
  const ERASED: map<UserId, User> := USERS[1 := CONTRACTOR.(isActive := false, status := AccountStatus.Deleted)]

  /** What a deletion does to an account without work: out of dispatch, then erased. */
  const DELETION: seq<Step> := [Environment(USERS, PROFILES), Environment(USERS, WITHDRAWN), Environment(ERASED, WITHDRAWN)]

  /** An administrator activates the deleted account, its profile becomes available, and a customer books. */
  const REVIVAL: seq<Step> := [Environment(USERS, PROFILES), Create(0, 2, REQUEST), Dispatch(0, READING)]

  lemma DeletionReaches()
    ensures Reached(0, SETTINGS, CONFIG, DELETION) == Peopled(ERASED, WITHDRAWN)
  {
    hide Run, Next;
    var start := Start(0, SETTINGS, CONFIG);
    ThreeSteps(start, Environment(USERS, PROFILES), Environment(USERS, WITHDRAWN), Environment(ERASED, WITHDRAWN));
    assert start == Peopled(map[], []);
    Peopling(map[], [], USERS, PROFILES);
    assert WITHDRAWN[0] in WITHDRAWN;
    Peopling(USERS, PROFILES, USERS, WITHDRAWN);
    Peopling(USERS, WITHDRAWN, ERASED, WITHDRAWN);
  }

  /** A closed account that is activated and made available is offered work again. */
  lemma ReinstatedIsOfferedAgain()
    ensures Closed(Reached(0, SETTINGS, CONFIG, DELETION), 1)
    ensures !NothingNewTo(Reached(0, SETTINGS, CONFIG, DELETION), Run(Reached(0, SETTINGS, CONFIG, DELETION), REVIVAL), 1)
  {
    hide Run, Next;
    DeletionReaches();
    var closed := Peopled(ERASED, WITHDRAWN);
    ThreeSteps(closed, Environment(USERS, PROFILES), Create(0, 2, REQUEST), Dispatch(0, READING));
    assert PROFILES[0] in PROFILES;
    Peopling(ERASED, WITHDRAWN, USERS, PROFILES);
    Booking0(Peopled(USERS, PROFILES));
    Offering0(Peopled(USERS, PROFILES).(bookings := map[0 := NEW_BOOKING]));
    assert 0 in OFFERED.offers && OFFERED.offers[0].contractor == 1;
  }

  // ---- The cheap test can drop a contractor -----------------------------------

  const SHORTCUT: Reading := Reading(true, map[1 := Leg(Some(60_000), Some(40_000))], 0)

  /** A road reported shorter than the straight line, with the limit in between: the plain search finds a contractor. */
  lemma ShortcutIsDropped()
    ensures var w := Reached(0, SETTINGS, CONFIG, OPENING[..2]);
            && 0 in w.bookings && FindCandidates(w, 0, SHORTCUT) == []
            && SortByDistance(Gather(w, 0, SHORTCUT, w.profiles, false)) == [Candidate(1, 40_000, Route)]
  {
    hide Run, Next;
    BookedReaches();
    ShortcutSearch(Peopled(USERS, PROFILES).(bookings := map[0 := NEW_BOOKING]));
  }

  lemma ShortcutSearch(w: World)
    requires w == Peopled(USERS, PROFILES).(bookings := map[0 := NEW_BOOKING])
    ensures FindCandidates(w, 0, SHORTCUT) == []
    ensures SortByDistance(Gather(w, 0, SHORTCUT, w.profiles, false)) == [Candidate(1, 40_000, Route)]
  {
    var p := PROFILES[0];
    assert Offered(w, 0) == {};
    assert FastCandidate(w, 0, SHORTCUT, p) == None;
    assert PlainCandidate(w, 0, SHORTCUT, p) == Some(Candidate(1, 40_000, Route));
    assert PROFILES[..0] == [] && Gather(w, 0, SHORTCUT, PROFILES[..0], true) == [];
    assert Gather(w, 0, SHORTCUT, PROFILES[..0], false) == [];
    assert [Candidate(1, 40_000, Route)][1..] == [];
  }
}
