/** Small runs in which transactions that hold no common lock come in the wrong order. */
module Races {
  import opened Domain
  import opened Worlds
  import opened Candidates
  import opened Protocol
  import opened Safety
  import opened History
  import opened AccountDeletion
  import opened Scenarios
  import PricingHistory
  import Provenance
  import Quotes
  import TravelPricing

  // ---- A sweep inside a cancellation -------------------------------------------

  const LATE: Time := 60_000_001
  const SWEPT: Offer := OFFER.(status := Expired, closeReason := Some(TimedOut), respondedAt := Some(LATE))
  const LAPSED: World := OFFERED.(now := LATE)
  const CLOSING: World := LAPSED.(inFlight := NOTHING_IN_FLIGHT.(closing := map[0 := Closing({0}, LATE)]))
  const BETWEEN: seq<Step> := OPENING + [Tick(LATE)] + [StartCancel(None, 0)] + [Expire(0, LATE)]

  lemma Beginning0()
    ensures Next(LAPSED, StartCancel(None, 0)) == CLOSING
  {
    assert OpenIds(LAPSED, 0) == {0};
    assert BeginCancel(LAPSED, None, 0).1.Done?;
  }

  lemma BetweenReaches()
    ensures Reached(0, SETTINGS, CONFIG, BETWEEN) == CLOSING.(offers := map[0 := SWEPT])
  {
    hide Run, Next;
    OpeningReaches();
    var start := Start(0, SETTINGS, CONFIG);
    RunThen(start, OPENING, Tick(LATE));
    Ticking0();
    RunThen(start, OPENING + [Tick(LATE)], StartCancel(None, 0));
    Beginning0();
    RunThen(start, OPENING + [Tick(LATE)] + [StartCancel(None, 0)], Expire(0, LATE));
    Sweeping0();
  }

  lemma Ticking0()
    ensures Next(OFFERED, Tick(LATE)) == LAPSED
  {
  }

  lemma Sweeping0()
    ensures Next(CLOSING, Expire(0, LATE)) == CLOSING.(offers := map[0 := SWEPT])
  {
  }

  /** The cancellation overwrites how, and why, a sweep had closed the offer. */
  lemma SweptOfferIsOverwritten()
    ensures var before := Reached(0, SETTINGS, CONFIG, BETWEEN);
            var after := Reached(0, SETTINGS, CONFIG, BETWEEN + [EndCancel(0)]);
            && 0 in before.offers && before.offers[0] == SWEPT
            && 0 in after.offers && after.offers[0] == SWEPT.(closeReason := Some(CloseReason.BookingCancelled))
  {
    hide Run, Next;
    BetweenReaches();
    RunThen(Start(0, SETTINGS, CONFIG), BETWEEN, EndCancel(0));
    Ending0(CLOSING.(offers := map[0 := SWEPT]));
  }

  lemma Ending0(w: World)
    requires w == CLOSING.(offers := map[0 := SWEPT])
    ensures 0 in Next(w, EndCancel(0)).offers
    ensures Next(w, EndCancel(0)).offers[0] == SWEPT.(closeReason := Some(CloseReason.BookingCancelled))
  {
  }

  // ---- One quote, two bookings -------------------------------------------------

  function QuoteOf5(maximum: Cents, version: nat): Quote {
    Quote(0, 2, 5, [QuoteLine(7, "Cleaning", 1, 0, 0)], 0, maximum, "AUD", version, Quotes.QUOTE_TTL)
  }

  function From(call: nat): Request { REQUEST.(quote := Some(call)) }

  lemma Quoting(w: World, q: Quote)
    requires w.now == 0 && w.quotes == map[] && w.config.currency == "AUD"
    requires q == QuoteOf5(TravelPricing.MaximumTotal(0, w.config), w.config.version)
    ensures Next(w, Issue(q)) == w.(quotes := map[0 := q])
  {
    assert q.lines[..0] == [];
    assert Quotes.LinesTotal(q.lines) == 0;
  }

  /** The customer's own, unexpired quote, from which no booking was made. */
  predicate Fresh(w: World, q: Quote) {
    w.now == 0 && w.users == USERS && w.quotes == map[0 := q] && q == QuoteOf5(q.maximumTotal, q.version)
  }

  lemma Finding(w: World, q: Quote, call: nat)
    requires Fresh(w, q) && w.bookings == map[] && call !in w.inFlight.looked
    ensures Next(w, FindQuote(call, 2, 0, 5)) == w.(inFlight := w.inFlight.(looked := w.inFlight.looked[call := 0]))
  {
    assert !IsUsed(w, 0);
    assert CustomerError(w, 2).None?;
  }

  function BookedFrom(q: Quote): Booking {
    NEW_BOOKING.(quote := Some(q), maxTotal := Some(q.maximumTotal), version := Some(q.version))
  }

  lemma QuotedSelection(q: Quote, call: nat)
    requires q == QuoteOf5(q.maximumTotal, q.version)
    ensures RequestedSelectionError(Some(q), From(call)).None?
  {
    var entries := Quotes.EntriesOf(q.lines);
    assert entries == [Quotes.Entry(7, Some(1))];
    assert Quotes.FirstProblem(entries[..0], Quotes.Malformed).None?;
    assert Quotes.FirstProblem(entries[..0], Quotes.Availability(REQUEST.catalogue, true)).None?;
  }

  lemma OpenNow(w: World)
    requires w.now == 0 && w.config.hours == CONFIG.hours
    ensures SlotOf(w, None, 0).Admitted? && SlotOf(w, None, 0).at == None
  {
  }

  lemma BookingFrom(w: World, q: Quote, call: nat, b: BookingId)
    requires Fresh(w, q) && w.config.hours == CONFIG.hours && b !in w.bookings
    requires call in w.inFlight.looked && w.inFlight.looked[call] == 0
    ensures Next(w, Create(b, 2, From(call)))
         == w.(bookings := w.bookings[b := BookedFrom(q)],
               inFlight := w.inFlight.(looked := w.inFlight.looked - {call}))
  {
    QuotedSelection(q, call);
    OpenNow(w);
    hide SlotOf, RequestedSelectionError;
    assert CreationError(w, 2, From(call)).None?;
  }

  const QUOTE: Quote := QuoteOf5(0, 1)
  const TWO_LOOKUPS: seq<Step> :=
    [Environment(USERS, PROFILES), Issue(QUOTE), FindQuote(0, 2, 0, 5), FindQuote(1, 2, 0, 5)]

  lemma FourSteps(w: World, a: Step, b: Step, c: Step, d: Step)
    ensures Run(w, [a, b, c, d]) == Next(Next(Next(Next(w, a), b), c), d)
  {
    hide Run, Next;
    ThreeSteps(w, a, b, c);
    RunThen(w, [a, b, c], d);
    assert [a, b, c] + [d] == [a, b, c, d];
  }

  lemma LookupsReach()
    ensures Reached(0, SETTINGS, CONFIG, TWO_LOOKUPS)
         == Peopled(USERS, PROFILES).(quotes := map[0 := QUOTE],
                                      inFlight := NOTHING_IN_FLIGHT.(looked := map[0 := 0, 1 := 0]))
  {
    hide Run, Next;
    FourSteps(Start(0, SETTINGS, CONFIG), TWO_LOOKUPS[0], TWO_LOOKUPS[1], TWO_LOOKUPS[2], TWO_LOOKUPS[3]);
    Peopling(map[], [], USERS, PROFILES);
    var w := Peopled(USERS, PROFILES);
    Quoting(w, QUOTE);
    var quoted := w.(quotes := map[0 := QUOTE]);
    Finding(quoted, QUOTE, 0);
    Finding(quoted.(inFlight := NOTHING_IN_FLIGHT.(looked := map[0 := 0])), QUOTE, 1);
  }

  /** Two requests that looked the quote up before either booked both get their booking. */
  lemma TwoBookingsFromOneQuote()
    ensures var w := Reached(0, SETTINGS, CONFIG, TWO_LOOKUPS + [Create(0, 2, From(0))] + [Create(1, 2, From(1))]);
            && !Provenance.UsedOnce(w) && w.bookings == map[0 := BookedFrom(QUOTE), 1 := BookedFrom(QUOTE)]
  {
    hide Run, Next;
    LookupsReach();
    var start, w := Start(0, SETTINGS, CONFIG), Reached(0, SETTINGS, CONFIG, TWO_LOOKUPS);
    RunThen(start, TWO_LOOKUPS, Create(0, 2, From(0)));
    BookingFrom(w, QUOTE, 0, 0);
    RunThen(start, TWO_LOOKUPS + [Create(0, 2, From(0))], Create(1, 2, From(1)));
    BookingFrom(Next(w, Create(0, 2, From(0))), QUOTE, 1, 1);
    var booked := map[0 := BookedFrom(QUOTE)][1 := BookedFrom(QUOTE)];
    assert 0 in booked && 1 in booked;
  }

  // ---- Two saves under one version ----------------------------------------------

  const CHEAP: Config := CONFIG.(maximumTravelFee := 100)
  const DEAR: Config := CONFIG.(pricePerKm := 1_000, maximumTravelFee := 1_000)

  /** Both saves have read the first row; the cheap one is written, and a quote is issued under it. */
  const CHEAPLY: seq<Step> :=
    [Environment(USERS, PROFILES), BeginSave(0, CHEAP), BeginSave(1, DEAR), EndSave(0)]

  const CHEAP_QUOTE: Quote := QuoteOf5(100, 2)
  const THEN_DEARLY: seq<Step> :=
    [Issue(CHEAP_QUOTE), EndSave(1), FindQuote(0, 2, 0, 5), Create(0, 2, From(0))]

  lemma CheaplyReaches()
    ensures Reached(0, SETTINGS, CONFIG, CHEAPLY)
         == Peopled(USERS, PROFILES).(config := CHEAP.(version := 2),
              inFlight := NOTHING_IN_FLIGHT.(saving := map[1 := PricingHistory.Save(Some(CONFIG), DEAR)]))
  {
    hide Run, Next;
    FourSteps(Start(0, SETTINGS, CONFIG), CHEAPLY[0], CHEAPLY[1], CHEAPLY[2], CHEAPLY[3]);
    Peopling(map[], [], USERS, PROFILES);
    Saving(Peopled(USERS, PROFILES));
  }

  lemma Saving(w: World)
    requires w == Peopled(USERS, PROFILES)
    ensures Next(Next(Next(w, BeginSave(0, CHEAP)), BeginSave(1, DEAR)), EndSave(0))
         == w.(config := CHEAP.(version := 2),
               inFlight := w.inFlight.(saving := map[1 := PricingHistory.Save(Some(CONFIG), DEAR)]))
  {
    var both := map[0 := PricingHistory.Save(Some(CONFIG), CHEAP)][1 := PricingHistory.Save(Some(CONFIG), DEAR)];
    assert both - {0} == map[1 := PricingHistory.Save(Some(CONFIG), DEAR)];
  }

  lemma WritingDearly(w: World)
    requires w.now == 0 && w.inFlight.saving == map[1 := PricingHistory.Save(Some(CONFIG), DEAR)]
    ensures Next(w, EndSave(1)) == w.(config := DEAR.(version := 2), inFlight := w.inFlight.(saving := map[]))
  {
  }

  const DEARLY: World :=
    Peopled(USERS, PROFILES).(config := DEAR.(version := 2), quotes := map[0 := CHEAP_QUOTE],
                              bookings := map[0 := BookedFrom(CHEAP_QUOTE)])

  lemma DearlyReaches()
    ensures Reached(0, SETTINGS, CONFIG, CHEAPLY + THEN_DEARLY) == DEARLY
  {
    hide Run, Next;
    CheaplyReaches();
    RunConcat(Start(0, SETTINGS, CONFIG), CHEAPLY, THEN_DEARLY);
    var w := Reached(0, SETTINGS, CONFIG, CHEAPLY);
    FourSteps(w, THEN_DEARLY[0], THEN_DEARLY[1], THEN_DEARLY[2], THEN_DEARLY[3]);
    Quoting(w, CHEAP_QUOTE);
    WritingDearly(w.(quotes := map[0 := CHEAP_QUOTE]));
    var dear := Peopled(USERS, PROFILES).(config := DEAR.(version := 2), quotes := map[0 := CHEAP_QUOTE]);
    Finding(dear, CHEAP_QUOTE, 0);
    BookingFrom(dear.(inFlight := NOTHING_IN_FLIGHT.(looked := map[0 := 0])), CHEAP_QUOTE, 0, 0);
  }

  lemma DearCandidate(w: World)
    requires w == DEARLY
    ensures FindCandidates(w, 0, READING) == [Candidate(1, 1_200, Route)]
  {
    var p := PROFILES[0];
    assert Offered(w, 0) == {};
    assert FastCandidate(w, 0, READING, p) == Some(Candidate(1, 1_200, Route));
    assert PROFILES[..0] == [] && Gather(w, 0, READING, PROFILES[..0], true) == [];
    assert Gather(w, 0, READING, PROFILES, true) == [Candidate(1, 1_200, Route)];
    assert [Candidate(1, 1_200, Route)][1..] == [];
  }

  /** The version of the quote is still the current one, and yet the ceiling guard fires. */
  lemma GuardFiresUnderItsOwnVersion()
    ensures var w := Reached(0, SETTINGS, CONFIG, CHEAPLY + THEN_DEARLY);
            && 0 in w.bookings && w.bookings[0].quote.Some? && w.bookings[0].quote.value.version == w.config.version
            && Decide(w, 0, READING).CeilingBreached?
  {
    hide Run, Next;
    DearlyReaches();
    Breaching(DEARLY);
  }

  lemma Breaching(w: World)
    requires w == DEARLY
    ensures Decide(w, 0, READING).CeilingBreached?
  {
    DearCandidate(w);
    assert !HasLiveOffer(w, 0) && !IsReserved(w, 0);
    hide FindCandidates;
    assert NewOffer(w, 0, READING, Candidate(1, 1_200, Route)).total == 1_000;
  }

  // ---- An offer to an account about to be deleted --------------------------------

  const ERASURE: Step := Environment(ERASED, WITHDRAWN)

  /**
   * The deletion has read its list, on which there is nothing; a dispatch attempt still sees the account in dispatch,
   * and then the deletion commits: an offer is open to a deleted account.
   */
  lemma OfferToADeletedAccount()
    ensures var listed := Reached(0, SETTINGS, CONFIG, OPENING[..2]);
            var end := Reached(0, SETTINGS, CONFIG, OPENING + [ERASURE]);
            && PendingTo(listed, 1) == {} && 0 in listed.bookings
            && 1 in end.users && end.users[1].status.Deleted? && !end.users[1].isActive && !Reinstated(end, 1)
            && 0 in end.offers && end.offers[0].contractor == 1 && end.offers[0].IsActionable(end.now)
  {
    hide Run, Next;
    OpeningReaches();
    BookedReaches();
    RunThen(Start(0, SETTINGS, CONFIG), OPENING, ERASURE);
    Erasing0();
  }

  lemma Erasing0()
    ensures Next(OFFERED, ERASURE) == OFFERED.(users := ERASED, profiles := WITHDRAWN)
  {
    assert WITHDRAWN[0] in WITHDRAWN;
    assert EnvironmentMay(OFFERED, ERASED, WITHDRAWN);
  }
}
