/** Where every price comes from: the moment of the run at which it was computed, and the configuration in force then. */
module Provenance {
  import opened Domain
  import opened Worlds
  import opened Candidates
  import opened Frames
  import opened Protocol
  import opened Safety
  import opened History
  import PricingHistory
  import Quotes
  import TravelPricing

  // ---- Quotes ----------------------------------------------------------------

  /** The quote of the booking is on file, unchanged, and sets its ceiling. */
  ghost predicate QuoteOnFile(w: World, b: BookingId)
    requires b in w.bookings
  {
    var k := w.bookings[b];
    k.quote.Some? ==>
      && k.quote.value.id in w.quotes && w.quotes[k.quote.value.id] == k.quote.value
      && k.maxTotal == Some(k.quote.value.maximumTotal)
      && k.quote.value.customer == k.customer && k.quote.value.property == k.property
  }

  /** Every booking's quote is on file, and so is every quote that was looked up. */
  ghost predicate QuotesOnFile(w: World) {
    && (forall id :: id in w.quotes ==> w.quotes[id].id == id)
    && (forall b :: b in w.bookings ==> QuoteOnFile(w, b))
    && (forall call :: call in w.inFlight.looked ==> w.inFlight.looked[call] in w.quotes)
  }

  /** A booking that was there keeps its quote. */
  lemma QuotesStayWithTheirBookings(w: World, w': World)
    requires QuotesOnFile(w) && Evolves(w, w') && w'.bookings.Keys == w.bookings.Keys
    requires forall id :: id in w'.quotes ==> w'.quotes[id].id == id
    requires forall call :: call in w'.inFlight.looked ==> w'.inFlight.looked[call] in w'.quotes
    ensures QuotesOnFile(w')
  {
    forall b | b in w'.bookings ensures QuoteOnFile(w', b) {
      assert BookingEvolves(w.bookings[b], w'.bookings[b]);
    }
  }

  lemma NewBookingKeepsItsQuote(w: World, b: BookingId, user: UserId, q: Request)
    requires QuotesOnFile(w) && b !in w.bookings && LookedUp(w, q)
    ensures QuotesOnFile(CreateBooking(w, b, user, q).0)
  {
    hide RequestedSelectionError, SlotOf, CustomerError;
  }

  lemma DeskKeepsQuotes(w: World, s: Step)
    requires QuotesOnFile(w) && (s.Issue? || s.FindQuote?)
    ensures QuotesOnFile(Next(w, s))
  {
    hide CustomerError;
  }

  lemma NextKeepsQuotes(w: World, s: Step)
    requires Safe(w) && QuotesOnFile(w)
    ensures QuotesOnFile(Next(w, s))
  {
    hide Safe, QuotesOnFile, CreateBooking;
    if s.Create? {
      if s.b !in w.bookings && LookedUp(w, s.request) {
        NewBookingKeepsItsQuote(w, s.b, s.user, s.request);
      }
    } else if s.Issue? || s.FindQuote? {
      DeskKeepsQuotes(w, s);
    } else {
      hide Next;
      NextEvolves(w, s);
      StepWrites(w, s);
      DeskUntouched(w, Next(w, s));
    }
  }

  lemma DeskUntouched(w: World, w': World)
    requires QuotesOnFile(w) && Evolves(w, w') && w'.bookings.Keys == w.bookings.Keys
    requires w'.quotes == w.quotes && w'.inFlight.looked == w.inFlight.looked
    ensures QuotesOnFile(w')
  {
    assert forall id :: id in w'.quotes ==> w'.quotes[id].id == id;
    hide Evolves, QuoteOnFile;
    QuotesStayWithTheirBookings(w, w');
  }

  /** However prices, quotes and bookings come and go, every booking's quote stays on file as it was issued. */
  lemma {:induction false} RunKeepsQuotes(w: World, steps: seq<Step>)
    requires Safe(w) && QuotesOnFile(w)
    ensures QuotesOnFile(Run(w, steps))
  {
    hide Next, Safe, QuotesOnFile;
    if steps == [] {
      RunNothing(w);
    } else {
      var n := |steps| - 1;
      RunKeepsInv(w, steps[..n]);
      RunKeepsQuotes(w, steps[..n]);
      NextKeepsQuotes(Run(w, steps[..n]), steps[n]);
    }
  }

  /** After a booking from a quote, no run makes the quote usable again: every later look-up is refused. */
  lemma SecondUseFails(w: World, steps: seq<Step>, b: BookingId, user: UserId, property: nat)
    requires Safe(w) && QuotesOnFile(w) && b in w.bookings && w.bookings[b].quote.Some?
    ensures QuoteError(Run(w, steps), user, w.bookings[b].quote.value.id, property).Some?
  {
    hide Run;
    RunEvolves(w, steps);
    assert BookingEvolves(w.bookings[b], Run(w, steps).bookings[b]);
    assert IsUsed(Run(w, steps), w.bookings[b].quote.value.id);
  }

  // ---- One quote, one booking ------------------------------------------------

  /** One quote makes at most one booking. */
  ghost predicate UsedOnce(w: World) {
    forall b, c | b in w.bookings && c in w.bookings && w.bookings[b].quote.Some? && w.bookings[c].quote.Some? ::
      w.bookings[b].quote.value.id == w.bookings[c].quote.value.id ==> b == c
  }

  /** The step makes a booking from this quote. */
  predicate BooksFrom(w: World, s: Step, id: QuoteId) {
    && s.Create? && s.b !in w.bookings && LookedUp(w, s.request) && CreationError(w, s.user, s.request).None?
    && s.request.quote.Some? && w.quotes[w.inFlight.looked[s.request.quote.value]].id == id
  }

  /** A quote becomes used exactly when a booking is made from it. */
  lemma UsedByBooking(w: World, s: Step, id: QuoteId)
    requires Safe(w) && QuotesOnFile(w)
    ensures IsUsed(Next(w, s), id) <==> IsUsed(w, id) || BooksFrom(w, s, id)
  {
    hide Safe, QuotesOnFile;
    NextEvolves(w, s);
    if s.Create? {
      CreationUses(w, s, id);
    } else {
      hide Next, CreationError, LookedUp;
      StepWrites(w, s);
      SameQuotes(w, Next(w, s), id);
    }
  }

  /** A creation either adds one booking, perhaps with a quote, or none. */
  lemma CreationAdds(w: World, s: Step)
    requires s.Create?
    ensures var w' := Next(w, s);
            if s.b in w.bookings || w'.bookings == w.bookings
            then w'.bookings == w.bookings && forall id :: !BooksFrom(w, s, id)
            else s.b in w'.bookings && w'.bookings == w.bookings[s.b := w'.bookings[s.b]]
                 && forall id :: BooksFrom(w, s, id) <==> HasQuote(w'.bookings[s.b], id)
  {
    hide CreationError;
  }

  predicate HasQuote(k: Booking, id: QuoteId) { k.quote.Some? && k.quote.value.id == id }

  lemma AddingUses(w: World, w': World, b: BookingId, id: QuoteId)
    requires b !in w.bookings && b in w'.bookings && w'.bookings == w.bookings[b := w'.bookings[b]]
    ensures IsUsed(w', id) <==> IsUsed(w, id) || HasQuote(w'.bookings[b], id)
  {
    if IsUsed(w, id) {
      var c :| c in w.bookings && w.bookings[c].quote.Some? && w.bookings[c].quote.value.id == id;
      assert c in w'.bookings && w'.bookings[c] == w.bookings[c];
    }
  }

  lemma AddingOnce(w: World, w': World, b: BookingId)
    requires b !in w.bookings && b in w'.bookings && w'.bookings == w.bookings[b := w'.bookings[b]]
    ensures UsedOnce(w') <==> UsedOnce(w) && forall id :: HasQuote(w'.bookings[b], id) ==> !IsUsed(w, id)
  {
    assert forall c :: c in w.bookings ==> w'.bookings[c] == w.bookings[c];
    if w'.bookings[b].quote.Some? && IsUsed(w, w'.bookings[b].quote.value.id) {
      var id := w'.bookings[b].quote.value.id;
      assert HasQuote(w'.bookings[b], id);
      var c :| c in w.bookings && w.bookings[c].quote.Some? && w.bookings[c].quote.value.id == id;
      assert c != b && w'.bookings[c] == w.bookings[c];
    }
  }

  lemma CreationUses(w: World, s: Step, id: QuoteId)
    requires s.Create?
    ensures IsUsed(Next(w, s), id) <==> IsUsed(w, id) || BooksFrom(w, s, id)
  {
    hide Next, BooksFrom, IsUsed, HasQuote;
    CreationAdds(w, s);
    if s.b !in w.bookings && Next(w, s).bookings != w.bookings {
      AddingUses(w, Next(w, s), s.b, id);
    } else {
      SameUse(w, Next(w, s), id);
    }
  }

  lemma SameUse(w: World, w': World, id: QuoteId)
    requires w'.bookings == w.bookings
    ensures IsUsed(w', id) <==> IsUsed(w, id)
    ensures UsedOnce(w') <==> UsedOnce(w)
  {
  }

  lemma SameQuotes(w: World, w': World, id: QuoteId)
    requires Evolves(w, w') && w'.bookings.Keys == w.bookings.Keys
    ensures IsUsed(w', id) <==> IsUsed(w, id)
    ensures UsedOnce(w') <==> UsedOnce(w)
  {
    assert forall b :: b in w.bookings ==> BookingEvolves(w.bookings[b], w'.bookings[b]);
    assert forall b :: b in w.bookings ==> w'.bookings[b].quote == w.bookings[b].quote;
  }

  /** The n-th of the other steps makes a booking from this quote. */
  ghost predicate BookedAt(w: World, others: seq<Step>, n: nat, id: QuoteId) {
    n < |others| && BooksFrom(Run(w, others[..n]), others[n], id)
  }

  ghost predicate BookedMeanwhile(w: World, others: seq<Step>, id: QuoteId) {
    exists n: nat :: BookedAt(w, others, n, id)
  }

  /**
   * A request finds its quote unused and books later: by then the quote is used exactly if another request booked from
   * it in between. The second check that would refuse it is not made.
   */
  lemma {:induction false} UsedMeanwhileIff(w: World, others: seq<Step>, id: QuoteId)
    requires Safe(w) && QuotesOnFile(w) && !IsUsed(w, id)
    ensures IsUsed(Run(w, others), id) <==> BookedMeanwhile(w, others, id)
  {
    hide Safe, QuotesOnFile, Next, IsUsed, BooksFrom;
    if others != [] {
      var n := |others| - 1;
      UsedMeanwhileIff(w, others[..n], id);
      RunKeepsInv(w, others[..n]);
      RunKeepsQuotes(w, others[..n]);
      UsedByBooking(Run(w, others[..n]), others[n], id);
      assert forall k :: 0 <= k <= n ==> others[..n][..k] == others[..k];
      if BookedMeanwhile(w, others[..n], id) {
        var k: nat :| BookedAt(w, others[..n], k, id);
        assert BookedAt(w, others, k, id);
      } else if BooksFrom(Run(w, others[..n]), others[n], id) {
        assert BookedAt(w, others, n, id);
      }
      if BookedMeanwhile(w, others, id) {
        var k: nat :| BookedAt(w, others, k, id);
        if k < n { assert BookedAt(w, others[..n], k, id); }
      }
    }
  }

  /** No booking is made from a quote that is used by then. */
  ghost predicate TakesUnused(w: World, s: Step) {
    forall id :: BooksFrom(w, s, id) ==> !IsUsed(w, id)
  }

  ghost predicate AllTakeUnused(w: World, steps: seq<Step>) {
    forall n :: 0 <= n < |steps| ==> TakesUnused(Run(w, steps[..n]), steps[n])
  }

  lemma CreationOnce(w: World, s: Step)
    requires s.Create?
    ensures UsedOnce(Next(w, s)) <==> UsedOnce(w) && TakesUnused(w, s)
  {
    hide Next, BooksFrom, IsUsed, HasQuote, UsedOnce;
    CreationAdds(w, s);
    if s.b !in w.bookings && Next(w, s).bookings != w.bookings {
      AddingOnce(w, Next(w, s), s.b);
    } else {
      SameUse(w, Next(w, s), 0);
    }
  }

  lemma StepOnce(w: World, s: Step)
    requires Safe(w) && QuotesOnFile(w)
    ensures UsedOnce(Next(w, s)) <==> UsedOnce(w) && TakesUnused(w, s)
  {
    hide Safe, QuotesOnFile, Next, UsedOnce;
    if s.Create? {
      CreationOnce(w, s);
    } else {
      NextEvolves(w, s);
      StepWrites(w, s);
      SameQuotes(w, Next(w, s), 0);
    }
  }

  lemma TakesUnusedSoFar(w: World, steps: seq<Step>)
    requires steps != []
    ensures AllTakeUnused(w, steps) <==>
            AllTakeUnused(w, steps[..|steps| - 1]) && TakesUnused(Run(w, steps[..|steps| - 1]), steps[|steps| - 1])
  {
    hide Run, TakesUnused;
    var k := |steps| - 1;
    assert forall n :: 0 <= n <= k ==> steps[..k][..n] == steps[..n];
    if AllTakeUnused(w, steps) {
      forall n | 0 <= n < k ensures TakesUnused(Run(w, steps[..k][..n]), steps[..k][n]) {
        assert TakesUnused(Run(w, steps[..n]), steps[n]);
      }
      assert TakesUnused(Run(w, steps[..k]), steps[k]);
    }
    if AllTakeUnused(w, steps[..k]) && TakesUnused(Run(w, steps[..k]), steps[k]) {
      forall n | 0 <= n < |steps| ensures TakesUnused(Run(w, steps[..n]), steps[n]) {
        if n < k { assert TakesUnused(Run(w, steps[..k][..n]), steps[..k][n]); }
      }
    }
  }

  /** Each quote makes at most one booking exactly if every booking from a quote finds the quote still unused. */
  lemma {:induction false} OneBookingPerQuoteIff(w: World, steps: seq<Step>)
    requires Safe(w) && QuotesOnFile(w) && UsedOnce(w)
    ensures UsedOnce(Run(w, steps)) <==> AllTakeUnused(w, steps)
  {
    hide Next, Safe, QuotesOnFile, UsedOnce, TakesUnused;
    if steps == [] {
      RunNothing(w);
    } else {
      var n := |steps| - 1;
      OneBookingPerQuoteIff(w, steps[..n]);
      RunKeepsInv(w, steps[..n]);
      RunKeepsQuotes(w, steps[..n]);
      StepOnce(Run(w, steps[..n]), steps[n]);
      hide AllTakeUnused;
      TakesUnusedSoFar(w, steps);
    }
  }

  // ---- The moment a price was made -------------------------------------------

  /** The database after the first n steps of a run from nothing. */
  ghost function Moment(now: Time, settings: Settings, config: Config, steps: seq<Step>, n: nat): World
    requires n <= |steps|
  {
    Reached(now, settings, config, steps[..n])
  }

  /** The quote was issued at this moment, under the configuration in force. */
  predicate IssuedAt(w: World, q: Quote) {
    Quotes.QuoteOk(q, w.config) && q.expiresAt == w.now + Quotes.QUOTE_TTL
  }

  /** The total and fee were computed at this moment, under the configuration in force. */
  predicate PricedAt(w: World, o: Offer) {
    && TravelPricing.FinalTotal(o.servicesTotal, o.distance, w.config) == (o.total, o.travelFee)
    && o.version == w.config.version && o.offeredAt == w.now
  }

  lemma ReachedStepwise(now: Time, settings: Settings, config: Config, steps: seq<Step>, n: nat)
    requires n < |steps|
    ensures Moment(now, settings, config, steps, n + 1) == Next(Moment(now, settings, config, steps, n), steps[n])
    ensures Moment(now, settings, config, steps, |steps|) == Reached(now, settings, config, steps)
  {
    hide Next, Start;
    assert steps[..n + 1][..n] == steps[..n] && steps[..|steps|] == steps;
  }

  lemma IssuedOnTheSpot(w: World, s: Step, id: QuoteId)
    requires id in Next(w, s).quotes && id !in w.quotes
    ensures IssuedAt(w, Next(w, s).quotes[id])
  {
    if !s.Issue? {
      hide Next;
      StepWrites(w, s);
    }
  }

  /** Every quote on file was issued at some moment of the run, under the configuration in force then. */
  lemma {:induction false} EveryQuoteHasItsMoment(now: Time, settings: Settings, config: Config, steps: seq<Step>,
                                                 id: QuoteId) returns (n: nat)
    requires id in Reached(now, settings, config, steps).quotes
    ensures n <= |steps| && IssuedAt(Moment(now, settings, config, steps, n), Reached(now, settings, config, steps).quotes[id])
    decreases |steps|
  {
    hide Next, Safe, IssuedAt, Evolves;
    if steps == [] {
      NothingOnFile(now, settings, config);
      assert false;
    } else {
      var k := |steps| - 1;
      var before := Moment(now, settings, config, steps, k);
      ReachedStepwise(now, settings, config, steps, k);
      ReachedIsSafe(now, settings, config, steps[..k]);
      if id in before.quotes {
        n := EveryQuoteHasItsMoment(now, settings, config, steps[..k], id);
        assert steps[..k][..n] == steps[..n];
        NextEvolves(before, steps[k]);
        QuotesOnFileStay(before, Next(before, steps[k]), id);
      } else {
        n := k;
        IssuedOnTheSpot(before, steps[k], id);
      }
    }
  }

  lemma NothingOnFile(now: Time, settings: Settings, config: Config)
    ensures Reached(now, settings, config, []).quotes == map[] && Reached(now, settings, config, []).offers == map[]
  {
  }

  lemma QuotesOnFileStay(w: World, w': World, id: QuoteId)
    requires Evolves(w, w') && id in w.quotes
    ensures id in w'.quotes && w'.quotes[id] == w.quotes[id]
  {
  }

  lemma AssignedOnTheSpot(w: World, b: BookingId, r: Reading, id: OfferId)
    requires b in w.bookings && id in AssignNextContractor(w, b, r).0.offers && id !in w.offers
    ensures PricedAt(w, AssignNextContractor(w, b, r).0.offers[id])
    ensures var o := AssignNextContractor(w, b, r).0.offers[id];
            o.booking == b && (w.bookings[b].quote.Some? ==> o.servicesTotal == w.bookings[b].quote.value.servicesTotal)
  {
    hide FindCandidates, HasLiveOffer, IsReserved;
  }

  lemma OfferedOnTheSpot(w: World, s: Step, id: OfferId)
    requires id in Next(w, s).offers && id !in w.offers
    ensures PricedAt(w, Next(w, s).offers[id])
    ensures var o := Next(w, s).offers[id];
            o.booking in w.bookings
            && (w.bookings[o.booking].quote.Some? ==> o.servicesTotal == w.bookings[o.booking].quote.value.servicesTotal)
  {
    hide AssignNextContractor, CreateBooking, PricedAt;
    if s.Dispatch? {
      AssignedOnTheSpot(w, s.b, s.reading, id);
    } else if s.Decline? {
      CascadedOnTheSpot(w, s.user, s.id, s.attempt, id);
    } else if !s.Environment? {
      NothingAdded(w, s);
    }
  }

  lemma CascadedOnTheSpot(w: World, user: UserId, j: OfferId, r: Option<Reading>, id: OfferId)
    requires id in DeclineOffer(w, user, j, r).0.offers && id !in w.offers
    ensures PricedAt(w, DeclineOffer(w, user, j, r).0.offers[id])
    ensures var o := DeclineOffer(w, user, j, r).0.offers[id];
            o.booking in w.bookings
            && (w.bookings[o.booking].quote.Some? ==> o.servicesTotal == w.bookings[o.booking].quote.value.servicesTotal)
  {
    hide AssignNextContractor, PricedAt;
    var declined := PutOffer(w, j, DeclinedOffer(w.offers[j], w.now));
    AssignedOnTheSpot(declined, w.offers[j].booking, r.value, id);
    SamePrice(w, declined, DeclineOffer(w, user, j, r).0.offers[id]);
  }

  lemma SamePrice(w: World, w': World, o: Offer)
    requires w'.config == w.config && w'.now == w.now
    ensures PricedAt(w', o) == PricedAt(w, o)
  {
  }

  lemma KeptOffer(w: World, w': World, m: World, id: OfferId)
    requires Safe(w) && Evolves(w, w') && id in w.offers && id in w'.offers && PricedAt(m, w.offers[id])
    ensures PricedAt(m, w'.offers[id]) && w.offers[id].booking in w.bookings
    ensures w'.offers[id].booking == w.offers[id].booking
    ensures w.offers[id].booking in w'.bookings
    ensures w'.bookings[w.offers[id].booking].quote == w.bookings[w.offers[id].booking].quote
    ensures w'.offers[id].servicesTotal == w.offers[id].servicesTotal
  {
    OfferIsOk(w, id);
    assert OfferEvolves(w.offers[id], w'.offers[id]);
    assert BookingEvolves(w.bookings[w.offers[id].booking], w'.bookings[w.offers[id].booking]);
  }

  /** The offer bills the services its booking's quote froze. */
  predicate BillsItsQuote(w: World, id: OfferId)
    requires id in w.offers
  {
    var o := w.offers[id];
    o.booking in w.bookings
    && (w.bookings[o.booking].quote.Some? ==> o.servicesTotal == w.bookings[o.booking].quote.value.servicesTotal)
  }

  /** Every offer was priced at some moment of the run, under the configuration in force then, from its quote. */
  lemma {:induction false} EveryOfferHasItsMoment(now: Time, settings: Settings, config: Config, steps: seq<Step>,
                                                  id: OfferId) returns (n: nat)
    requires id in Reached(now, settings, config, steps).offers
    ensures n <= |steps| && PricedAt(Moment(now, settings, config, steps, n), Reached(now, settings, config, steps).offers[id])
    ensures BillsItsQuote(Reached(now, settings, config, steps), id)
    decreases |steps|
  {
    hide Next, Safe, PricedAt, Evolves;
    if steps == [] {
      NothingOnFile(now, settings, config);
      assert false;
    } else {
      var k := |steps| - 1;
      var before := Moment(now, settings, config, steps, k);
      ReachedStepwise(now, settings, config, steps, k);
      ReachedIsSafe(now, settings, config, steps[..k]);
      NextEvolves(before, steps[k]);
      if id in before.offers {
        n := EveryOfferHasItsMoment(now, settings, config, steps[..k], id);
        assert steps[..k][..n] == steps[..n];
        KeptOffer(before, Next(before, steps[k]), Moment(now, settings, config, steps, n), id);
      } else {
        n := k;
        OfferedOnTheSpot(before, steps[k], id);
        KeptBooking(before, Next(before, steps[k]), Next(before, steps[k]).offers[id].booking);
      }
    }
  }

  lemma KeptBooking(w: World, w': World, b: BookingId)
    requires Evolves(w, w') && b in w.bookings
    ensures b in w'.bookings && w'.bookings[b].quote == w.bookings[b].quote
  {
    assert BookingEvolves(w.bookings[b], w'.bookings[b]);
  }

  // ---- One version, one set of prices ----------------------------------------

  /** A save in progress read an earlier configuration. */
  predicate ReadsAreEarlier(w: World) {
    forall call :: call in w.inFlight.saving && w.inFlight.saving[call].read.Some? ==>
                     PricingHistory.ConfigEvolves(w.inFlight.saving[call].read.value, w.config)
  }

  /** If the step writes the pricing row, it does so while it may. */
  predicate Undisturbed(w: World, s: Step) {
    s.EndSave? && s.call in w.inFlight.saving ==> PricingHistory.MayWrite(w.config, w.inFlight.saving[s.call])
  }

  /** No save of the run is overtaken by one that changes prices. */
  ghost predicate NoSaveOvertaken(w: World, steps: seq<Step>) {
    forall n :: 0 <= n < |steps| ==> Undisturbed(Run(w, steps[..n]), steps[n])
  }

  ghost function ConfigAt(w: World, steps: seq<Step>, n: nat): Config
    requires n <= |steps|
  {
    Run(w, steps[..n]).config
  }

  /** Along the run versions never go back, and one version names one set of prices. */
  ghost predicate PricesEvolve(w: World, steps: seq<Step>) {
    forall i: nat, j: nat :: i <= j <= |steps| ==>
                               PricingHistory.ConfigEvolves(ConfigAt(w, steps, i), ConfigAt(w, steps, j))
  }

  lemma SaveEvolvesIff(w: World, s: Step)
    requires ReadsAreEarlier(w) && (s.BeginSave? || s.EndSave?)
    ensures PricingHistory.ConfigEvolves(w.config, Next(w, s).config) <==> Undisturbed(w, s)
    ensures Undisturbed(w, s) ==> ReadsAreEarlier(Next(w, s))
  {
    hide PricingHistory.Stored, PricingHistory.MayWrite, PricingHistory.ConfigEvolves;
    EvolvesFromItself(w.config);
    if s.EndSave? && s.call in w.inFlight.saving {
      PricingHistory.WriteEvolvesIff(w.config, w.inFlight.saving[s.call], w.now);
      if Undisturbed(w, s) {
        forall call | call in w.inFlight.saving && w.inFlight.saving[call].read.Some?
          ensures PricingHistory.ConfigEvolves(w.inFlight.saving[call].read.value, Next(w, s).config)
        {
          PricingHistory.ReadStaysEarlier(w.config, w.inFlight.saving[s.call], w.now, w.inFlight.saving[call].read.value);
        }
      }
    }
  }

  lemma EvolvesFromItself(c: Config)
    ensures PricingHistory.ConfigEvolves(c, c)
  {
  }

  lemma StepPricesIff(w: World, s: Step)
    requires ReadsAreEarlier(w)
    ensures PricingHistory.ConfigEvolves(w.config, Next(w, s).config) <==> Undisturbed(w, s)
    ensures Undisturbed(w, s) ==> ReadsAreEarlier(Next(w, s))
  {
    hide Next;
    if s.BeginSave? || s.EndSave? {
      SaveEvolvesIff(w, s);
    } else {
      StepWrites(w, s);
    }
  }

  /** One more configuration at the end of a run. */
  lemma PricesEvolveThen(w: World, steps: seq<Step>)
    requires steps != []
    ensures PricesEvolve(w, steps) <==>
            PricesEvolve(w, steps[..|steps| - 1])
            && PricingHistory.ConfigEvolves(ConfigAt(w, steps, |steps| - 1), ConfigAt(w, steps, |steps|))
  {
    hide Run;
    var k := |steps| - 1;
    forall n: nat | n <= k ensures ConfigAt(w, steps[..k], n) == ConfigAt(w, steps, n) {
      assert steps[..k][..n] == steps[..n];
    }
    hide ConfigAt;
    if PricesEvolve(w, steps) {
      forall i: nat, j: nat | i <= j <= k
        ensures PricingHistory.ConfigEvolves(ConfigAt(w, steps[..k], i), ConfigAt(w, steps[..k], j))
      {
        assert PricingHistory.ConfigEvolves(ConfigAt(w, steps, i), ConfigAt(w, steps, j));
      }
    }
    if PricesEvolve(w, steps[..k]) && PricingHistory.ConfigEvolves(ConfigAt(w, steps, k), ConfigAt(w, steps, k + 1)) {
      forall i: nat, j: nat | i <= j <= |steps|
        ensures PricingHistory.ConfigEvolves(ConfigAt(w, steps, i), ConfigAt(w, steps, j))
      {
        if i <= k {
          assert PricingHistory.ConfigEvolves(ConfigAt(w, steps[..k], i), ConfigAt(w, steps[..k], if j <= k then j else k));
        }
      }
    }
  }

  lemma UndisturbedSoFar(w: World, steps: seq<Step>)
    requires steps != []
    ensures NoSaveOvertaken(w, steps) <==>
            NoSaveOvertaken(w, steps[..|steps| - 1]) && Undisturbed(Run(w, steps[..|steps| - 1]), steps[|steps| - 1])
  {
    hide Run, Undisturbed;
    var k := |steps| - 1;
    assert forall n :: 0 <= n <= k ==> steps[..k][..n] == steps[..n];
    if NoSaveOvertaken(w, steps) {
      forall n | 0 <= n < k ensures Undisturbed(Run(w, steps[..k][..n]), steps[..k][n]) {
        assert Undisturbed(Run(w, steps[..n]), steps[n]);
      }
      assert Undisturbed(Run(w, steps[..k]), steps[k]);
    }
    if NoSaveOvertaken(w, steps[..k]) && Undisturbed(Run(w, steps[..k]), steps[k]) {
      forall n | 0 <= n < |steps| ensures Undisturbed(Run(w, steps[..n]), steps[n]) {
        if n < k { assert Undisturbed(Run(w, steps[..k][..n]), steps[..k][n]); }
      }
    }
  }

  /** One version names one set of prices along a run exactly if no save of the run is overtaken. */
  lemma {:induction false} PricesEvolveIff(w: World, steps: seq<Step>)
    requires ReadsAreEarlier(w)
    ensures PricesEvolve(w, steps) <==> NoSaveOvertaken(w, steps)
    ensures PricesEvolve(w, steps) ==> ReadsAreEarlier(Run(w, steps))
  {
    hide Next, ReadsAreEarlier, Undisturbed;
    if steps == [] {
      RunNothing(w);
    } else {
      var k := |steps| - 1;
      PricesEvolveIff(w, steps[..k]);
      PricesEvolveThen(w, steps);
      UndisturbedSoFar(w, steps);
      LastConfig(w, steps);
      hide PricesEvolve, NoSaveOvertaken, ConfigAt;
      if NoSaveOvertaken(w, steps[..k]) {
        StepPricesIff(Run(w, steps[..k]), steps[k]);
      }
    }
  }

  lemma LastConfig(w: World, steps: seq<Step>)
    requires steps != []
    ensures ConfigAt(w, steps, |steps| - 1) == Run(w, steps[..|steps| - 1]).config
    ensures ConfigAt(w, steps, |steps|) == Run(w, steps).config
  {
    assert steps[..|steps|] == steps;
  }

  /** Along a run from nothing: the configuration of every moment is an earlier one, exactly if no save is overtaken. */
  lemma PricesAlongTheRun(now: Time, settings: Settings, config: Config, steps: seq<Step>)
    ensures NoSaveOvertaken(Start(now, settings, config), steps) <==>
            forall n: nat, m: nat :: n <= m <= |steps| ==>
              PricingHistory.ConfigEvolves(Moment(now, settings, config, steps, n).config,
                                           Moment(now, settings, config, steps, m).config)
  {
    var start := Start(now, settings, config);
    PricesEvolveIff(start, steps);
    hide Run, NoSaveOvertaken;
    assert forall n: nat :: n <= |steps| ==> ConfigAt(start, steps, n) == Moment(now, settings, config, steps, n).config;
    hide ConfigAt, Moment;
  }

  lemma ReachedQuotesAreOnFile(now: Time, settings: Settings, config: Config, steps: seq<Step>)
    ensures Safe(Reached(now, settings, config, steps)) && QuotesOnFile(Reached(now, settings, config, steps))
  {
    StartIsSafe(now, settings, config);
    RunKeepsInv(Start(now, settings, config), steps);
    assert QuotesOnFile(Start(now, settings, config));
    RunKeepsQuotes(Start(now, settings, config), steps);
  }

  /** An offer under the prices of its quote stays within the maximum the quote announced. */
  lemma WithinTheQuote(w: World, b: BookingId, r: Reading, issue: Config)
    requires b in w.bookings && w.bookings[b].quote.Some? && QuoteOnFile(w, b)
    requires Quotes.QuoteOk(w.bookings[b].quote.value, issue) && PricingHistory.SamePrices(issue, w.config)
    ensures !Decide(w, b, r).CeilingBreached?
  {
    hide FindCandidates, HasLiveOffer, IsReserved;
    var q := w.bookings[b].quote.value;
    if FindCandidates(w, b, r) != [] {
      var c := FindCandidates(w, b, r)[0];
      PricingHistory.PricesDecideTotals(q.servicesTotal, c.distance, issue, w.config);
      TravelPricing.FinalTotalWithinMaximum(q.servicesTotal, c.distance, w.config);
    }
  }

  /**
   * Unless a save was overtaken: while the version of its quote is the current one, the ceiling guard of dispatch
   * cannot fire for a booking.
   */
  lemma GuardNeedsNewVersion(now: Time, settings: Settings, config: Config, steps: seq<Step>, b: BookingId, r: Reading)
    requires NoSaveOvertaken(Start(now, settings, config), steps)
    requires var w := Reached(now, settings, config, steps);
             b in w.bookings && w.bookings[b].quote.Some? && w.bookings[b].quote.value.version == w.config.version
    ensures !Decide(Reached(now, settings, config, steps), b, r).CeilingBreached?
  {
    var w := Reached(now, settings, config, steps);
    ReachedQuotesAreOnFile(now, settings, config, steps);
    assert QuoteOnFile(w, b);
    hide Run, Safe, QuotesOnFile, Decide;
    var q := w.bookings[b].quote.value;
    var n := EveryQuoteHasItsMoment(now, settings, config, steps, q.id);
    PricesAlongTheRun(now, settings, config, steps);
    assert steps[..|steps|] == steps;
    var issue := Moment(now, settings, config, steps, n);
    assert PricingHistory.ConfigEvolves(issue.config, Moment(now, settings, config, steps, |steps|).config);
    WithinTheQuote(w, b, r, issue.config);
  }
}
