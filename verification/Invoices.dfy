/** Invoices built from the frozen parts: quote lines, the accepted offer's travel fee, and the payment's total. */
module Invoices {
  import opened Domain
  import opened Worlds
  import opened Candidates
  import opened Protocol
  import opened Safety
  import opened History
  import opened Databases
  import opened Provenance
  import PaymentRules
  import Quotes
  import TravelPricing

  datatype InvoiceLine = InvoiceLine(description: string, quantity: nat, amount: int)

  function Total(lines: seq<InvoiceLine>): int {
    if lines == [] then 0 else Total(lines[..|lines| - 1]) + lines[|lines| - 1].amount
  }

  function ServiceLine(line: QuoteLine): InvoiceLine {
    InvoiceLine(line.name, line.roomCount, line.roomPrice * line.roomCount + line.basePrice)
  }

  function AcceptedIds(w: World, b: BookingId): set<OfferId> {
    set id | id in w.offers && w.offers[id].booking == b && w.offers[id].status.Accepted?
  }

  /** The travel fee of the accepted offer, nothing without one. */
  function TravelFeeOf(w: World, b: BookingId): Cents {
    if AcceptedIds(w, b) == {} then 0 else w.offers[Latest(AcceptedIds(w, b))].travelFee
  }

  /** The services as quoted, or the selections at catalogue prices for a booking without a quote. */
  function BilledServices(w: World, b: BookingId, selections: seq<QuoteLine>): seq<QuoteLine>
    requires b in w.bookings
  {
    if w.bookings[b].quote.Some? then w.bookings[b].quote.value.lines else selections
  }

  /** What the single rounding left over. */
  function RoundingOf(w: World, b: BookingId, selections: seq<QuoteLine>): int
    requires b in w.bookings && b in w.payments
  {
    w.payments[b].amount - Quotes.LinesTotal(BilledServices(w, b, selections)) - TravelFeeOf(w, b)
  }

  function ServiceLines(services: seq<QuoteLine>): seq<InvoiceLine> {
    seq(|services|, i requires 0 <= i < |services| => ServiceLine(services[i]))
  }

  /** One line per service, at its frozen name and prices. */
  method BillServices(services: seq<QuoteLine>) returns (lines: seq<InvoiceLine>)
    ensures lines == ServiceLines(services) && Total(lines) == Quotes.LinesTotal(services)
  {
    lines := [];
    for i := 0 to |services|
      invariant lines == ServiceLines(services[..i])
      invariant Total(lines) == Quotes.LinesTotal(services[..i])
    {
      var entry := services[i];
      assert services[..i + 1][..i] == services[..i];
      TotalAppend(lines, ServiceLine(entry));
      lines := lines + [InvoiceLine(entry.name, entry.roomCount, entry.roomPrice * entry.roomCount + entry.basePrice)];
    }
    assert services[..|services|] == services;
  }

  /** The services, then Travel if there is a fee, then Rounding if something is left over; the sum is what was paid. */
  method BuildInvoice(db: Database, b: BookingId, selections: seq<QuoteLine>) returns (lines: seq<InvoiceLine>)
    requires b in db.bookings && b in db.payments
    ensures Total(lines) == db.payments[b].amount
    ensures var fee := TravelFeeOf(db.Value(), b);
            var rest := RoundingOf(db.Value(), b, selections);
            lines == ServiceLines(BilledServices(db.Value(), b, selections))
                   + (if fee != 0 then [InvoiceLine("Travel", 1, fee)] else [])
                   + (if rest != 0 then [InvoiceLine("Rounding", 1, rest)] else [])
  {
    hide Total, ServiceLines, Quotes.LinesTotal;
    var services := BilledServices(db.Value(), b, selections);
    lines := BillServices(services);
    var accepted := AcceptedIds(db.Value(), b);
    var travelFee := if accepted == {} then 0 else db.offers[Latest(accepted)].travelFee;
    if travelFee != 0 {
      TotalAppend(lines, InvoiceLine("Travel", 1, travelFee));
      lines := lines + [InvoiceLine("Travel", 1, travelFee)];
    }
    var sum := SumAmounts(lines);
    var difference := db.payments[b].amount - sum;
    if difference != 0 {
      TotalAppend(lines, InvoiceLine("Rounding", 1, difference));
      lines := lines + [InvoiceLine("Rounding", 1, difference)];
    }
  }

  method SumAmounts(lines: seq<InvoiceLine>) returns (sum: int)
    ensures sum == Total(lines)
  {
    sum := 0;
    for i := 0 to |lines|
      invariant sum == Total(lines[..i])
    {
      assert lines[..i + 1][..i] == lines[..i];
      sum := sum + lines[i].amount;
    }
    assert lines[..|lines|] == lines;
  }

  lemma TotalAppend(lines: seq<InvoiceLine>, line: InvoiceLine)
    ensures Total(lines + [line]) == Total(lines) + line.amount
  {
    assert (lines + [line])[..|lines + [line]| - 1] == lines;
  }

  // ---- Where the Rounding line comes from --------------------------------------

  /** On a confirmed booking the accepted offer is unique, and carries the amount paid and the version of the booking. */
  lemma AcceptedIsUnique(w: World, b: BookingId) returns (id: OfferId)
    requires Inv(w) && b in w.bookings && w.bookings[b].status.Confirmed?
    ensures b in w.payments && AcceptedIds(w, b) == {id} && id in w.offers && w.offers[id].booking == b
    ensures w.offers[id].total == w.payments[b].amount && w.bookings[b].version == Some(w.offers[id].version)
  {
    PaymentRules.ConfirmedMoneyAgrees(w, b);
    id :| ReservingIds(w, b) == {id} && w.offers[id].status.Accepted? && w.offers[id].total == w.payments[b].amount
          && w.bookings[b].version == Some(w.offers[id].version);
    assert id in ReservingIds(w, b);
    forall other | other in AcceptedIds(w, b) ensures other == id {
      assert other in ReservingIds(w, b);
    }
  }

  /** A quoted booking's services total is the sum of the lines its quote froze. */
  lemma QuoteLinesAddUp(now: Time, settings: Settings, config: Config, steps: seq<Step>, b: BookingId)
    requires b in Reached(now, settings, config, steps).bookings
    requires Reached(now, settings, config, steps).bookings[b].quote.Some?
    ensures var q := Reached(now, settings, config, steps).bookings[b].quote.value;
            q.servicesTotal == Quotes.LinesTotal(q.lines)
  {
    hide Run, Safe, Inv, Quotes.LinesTotal;
    var w := Reached(now, settings, config, steps);
    ReachedQuotesAreOnFile(now, settings, config, steps);
    assert QuoteOnFile(w, b);
    var n := EveryQuoteHasItsMoment(now, settings, config, steps, w.bookings[b].quote.value.id);
  }

  /**
   * In every reachable database the Rounding line of a confirmed, quoted booking is exactly the residue of the one
   * rounding made when its accepted offer was priced: the configuration is the one in force at that moment of the run.
   */
  lemma RoundingLineIsTheResidue(now: Time, settings: Settings, config: Config, steps: seq<Step>, b: BookingId,
                                 selections: seq<QuoteLine>) returns (id: OfferId, n: nat)
    requires var w := Reached(now, settings, config, steps);
             b in w.bookings && w.bookings[b].status.Confirmed? && w.bookings[b].quote.Some?
    ensures n <= |steps|
    ensures var w := Reached(now, settings, config, steps);
            var at := Moment(now, settings, config, steps, n);
            && b in w.payments && AcceptedIds(w, b) == {id} && id in w.offers && PricedAt(at, w.offers[id])
            && w.bookings[b].version == Some(at.config.version)
            && RoundingOf(w, b, selections)
               == TravelPricing.Residue(w.bookings[b].quote.value.servicesTotal, w.offers[id].distance, at.config)
  {
    hide Run, Inv, Quotes.LinesTotal;
    var w := Reached(now, settings, config, steps);
    ReachedIsSafe(now, settings, config, steps);
    id := AcceptedIsUnique(w, b);
    n := EveryOfferHasItsMoment(now, settings, config, steps, id);
    QuoteLinesAddUp(now, settings, config, steps, b);
  }

  /** What is rounded to the cent has no Rounding line; otherwise it is at most half a step and half a cent. */
  lemma RoundingLineIsSmall(now: Time, settings: Settings, config: Config, steps: seq<Step>, b: BookingId,
                            selections: seq<QuoteLine>) returns (id: OfferId, n: nat)
    requires var w := Reached(now, settings, config, steps);
             b in w.bookings && w.bookings[b].status.Confirmed? && w.bookings[b].quote.Some?
    ensures n <= |steps| && b in Reached(now, settings, config, steps).payments
    ensures var w := Reached(now, settings, config, steps);
            var at := Moment(now, settings, config, steps, n);
            && AcceptedIds(w, b) == {id} && id in w.offers && PricedAt(at, w.offers[id])
            && (at.config.rounding.NearestCent? ==> RoundingOf(w, b, selections) == 0)
            && 2_000 * RoundingOf(w, b, selections) <= TravelPricing.Step(at.config.rounding) + 1_000
            && -2_000 * RoundingOf(w, b, selections) <= TravelPricing.Step(at.config.rounding) + 1_000
  {
    id, n := RoundingLineIsTheResidue(now, settings, config, steps, b, selections);
    hide Run, TravelPricing.FinalTotal, TravelPricing.Residue, RoundingOf, AcceptedIds;
    var w := Reached(now, settings, config, steps);
    TravelPricing.ResidueBound(w.bookings[b].quote.value.servicesTotal, w.offers[id].distance,
                               Moment(now, settings, config, steps, n).config);
  }

  /** While prices are rounded to the cent throughout, as they are by default, no invoice has a Rounding line. */
  lemma CentRoundingNeedsNoLine(now: Time, settings: Settings, config: Config, steps: seq<Step>, b: BookingId,
                                selections: seq<QuoteLine>)
    requires var w := Reached(now, settings, config, steps);
             b in w.bookings && w.bookings[b].status.Confirmed? && w.bookings[b].quote.Some?
    requires forall n :: 0 <= n <= |steps| ==> Moment(now, settings, config, steps, n).config.rounding.NearestCent?
    ensures b in Reached(now, settings, config, steps).payments
    ensures RoundingOf(Reached(now, settings, config, steps), b, selections) == 0
  {
    hide Run, RoundingOf, AcceptedIds;
    var id, n := RoundingLineIsSmall(now, settings, config, steps, b, selections);
  }
}
