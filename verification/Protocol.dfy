/** Each service transaction as one step from a database value to the next. */
module Protocol {
  import opened Domain
  import opened Worlds
  import opened Candidates
  import PricingHistory
  import Quotes
  import Scheduling
  import TravelPricing

  datatype Error =
    | InvalidContractorRole | OfferNotFound | OfferForbidden | SelfAssignment | OfferNotActionable
    | DispatchFailed
    | InvalidCustomerRole | BookingNotFound | BookingForbidden | BookingNotReschedulable | BookingNotCancellable
    | CancellationRequiresSupport | OutsideSchedule(why: Scheduling.SchedulingError) | TimezoneMismatch
    | ReviewRequired | PropertyNotFound | PropertyForbidden | PropertyInactive | NotServiceable
    | BadSelection(selection: Quotes.Error) | BadQuote(quote: Quotes.Error) | InvalidHomeDetails
    | MissingPrice | PaymentAlreadyExists | PaymentNotFound | PaymentNotSuccessful | OfferNoLongerReserved

  /** What a service call reports; a refused call is rolled back. */
  datatype Outcome = Done | Refused(error: Error)

  const OFFER_TTL_MINUTES: nat := 60

  // ---- Rows ----------------------------------------------------------------

  function PutBooking(w: World, b: BookingId, booking: Booking): World {
    w.(bookings := w.bookings[b := booking])
  }

  function PutOffer(w: World, id: OfferId, offer: Offer): World {
    w.(offers := w.offers[id := offer])
  }

  // ---- Dispatch ------------------------------------------------------------

  predicate VisitPassed(booking: Booking, now: Time) {
    booking.scheduledAt.Some? && booking.scheduledAt.value <= now
  }

  /** The services total frozen in the quote, or the live catalogue for a booking without one. */
  function FrozenServicesTotal(booking: Booking, r: Reading): Cents {
    if booking.quote.Some? then booking.quote.value.servicesTotal else r.catalogueTotal
  }

  function TtlSeconds(config: Config): nat {
    if config.offerTtlSeconds != 0 then config.offerTtlSeconds else OFFER_TTL_MINUTES * 60
  }

  /** An offer does not outlive the visit. */
  function ExpiryFor(booking: Booking, config: Config, now: Time): Time {
    var byTtl := now + TtlSeconds(config) * SECOND;
    if booking.scheduledAt.Some? && booking.scheduledAt.value < byTtl then booking.scheduledAt.value else byTtl
  }

  function NewOffer(w: World, b: BookingId, r: Reading, c: Candidate): Offer
    requires b in w.bookings
  {
    var booking := w.bookings[b];
    var services := FrozenServicesTotal(booking, r);
    var (total, fee) := TravelPricing.FinalTotal(services, c.distance, w.config);
    Offer(b, c.user, OfferStatus.Pending, None, booking.round, c.distance, c.source, services, fee, total, total,
          w.config.version, w.now, ExpiryFor(booking, w.config, w.now), None)
  }

  predicate ExceedsCeiling(booking: Booking, offer: Offer) {
    booking.maxTotal.Some? && offer.total > booking.maxTotal.value
  }

  /** What one dispatch attempt does. */
  datatype Attempt = Skipped | NobodyLeft | CeilingBreached | Offering(offer: Offer)

  function Decide(w: World, b: BookingId, r: Reading): Attempt
    requires b in w.bookings
  {
    var booking := w.bookings[b];
    if !booking.status.Pending? || HasLiveOffer(w, b) || IsReserved(w, b) then Skipped
    else if VisitPassed(booking, w.now) || FindCandidates(w, b, r) == [] then NobodyLeft
    else
      var offer := NewOffer(w, b, r, FindCandidates(w, b, r)[0]);
      if ExceedsCeiling(booking, offer) then CeilingBreached else Offering(offer)
  }

  /** Offers the booking to the nearest admissible contractor. */
  function AssignNextContractor(w: World, b: BookingId, r: Reading): (World, Option<OfferId>)
    requires b in w.bookings
  {
    var booking := w.bookings[b].(lastAttemptAt := Some(w.now), updatedAt := w.now);
    match Decide(w, b, r)
    case Skipped => (w, None)
    case CeilingBreached => (w, None)
    case NobodyLeft => (PutBooking(w, b, booking.(dispatch := NoContractor)), None)
    case Offering(offer) =>
      var id := w.nextOffer;
      (PutBooking(PutOffer(w, id, offer), b, booking.(dispatch := Searching)).(nextOffer := id + 1), Some(id))
  }

  // ---- Contractor responses ------------------------------------------------

  /** The checks shared by accept and decline: the role, the addressee, and never one's own booking. */
  function ResponderError(w: World, user: UserId, id: OfferId): Option<Error> {
    if user !in w.users then Some(OfferForbidden)
    else if !w.users[user].HasContractorAccess() then Some(InvalidContractorRole)
    else if id !in w.offers then Some(OfferNotFound)
    else if !HasProfile(w, user) || w.offers[id].contractor != user then Some(OfferForbidden)
    else if w.offers[id].booking !in w.bookings then Some(BookingNotFound)
    else if w.bookings[w.offers[id].booking].customer == user then Some(SelfAssignment)
    else None
  }

  function AcceptOffer(w: World, user: UserId, id: OfferId): (World, Outcome) {
    var refusal := ResponderError(w, user, id);
    if refusal.Some? then (w, Refused(refusal.value))
    else
      var offer := w.offers[id];
      var booking := w.bookings[offer.booking];
      if offer.IsReserved() then (w, Done)
      else if !offer.IsActionable(w.now) || !booking.status.Pending? || IsReserved(w, offer.booking)
              || VisitPassed(booking, w.now) then (w, Refused(OfferNotActionable))
      else (PutOffer(w, id, offer.(status := AcceptedPendingPayment, respondedAt := Some(w.now))), Done)
  }

  function DeclinedOffer(offer: Offer, now: Time): Offer {
    offer.(status := Declined, closeReason := Some(DeclinedByContractor), respondedAt := Some(now))
  }

  /**
   * Declines, then passes the booking on unless somebody already holds it. Without a reading the dispatch attempt
   * raises, and takes the refusal back with it.
   */
  function DeclineOffer(w: World, user: UserId, id: OfferId, r: Option<Reading>): (World, Outcome) {
    var refusal := ResponderError(w, user, id);
    if refusal.Some? then (w, Refused(refusal.value))
    else
      var offer := w.offers[id];
      if !offer.IsActionable(w.now) || !w.bookings[offer.booking].status.Pending? then (w, Refused(OfferNotActionable))
      else
        var declined := PutOffer(w, id, DeclinedOffer(offer, w.now));
        if IsReserved(declined, offer.booking) then (declined, Done)
        else if r.None? then (w, Refused(DispatchFailed))
        else (AssignNextContractor(declined, offer.booking, r.value).0, Done)
  }

  // ---- Expiry --------------------------------------------------------------

  function TimedOutOffer(offer: Offer, at: Time): Offer {
    offer.(status := Expired, closeReason := Some(TimedOut), respondedAt := Some(at))
  }

  /** The sweep's conditional update: it touches a row only while that row is still pending. */
  function ExpireIfPending(w: World, id: OfferId, at: Time): World {
    if id in w.offers && w.offers[id].status.Pending? then PutOffer(w, id, TimedOutOffer(w.offers[id], at)) else w
  }

  // ---- Customer operations -------------------------------------------------

  function CustomerError(w: World, user: UserId): Option<Error> {
    if user !in w.users then Some(BookingForbidden)
    else if !w.users[user].HasCustomerAccess() then Some(InvalidCustomerRole)
    else None
  }

  function OwnerError(w: World, user: UserId, b: BookingId): Option<Error> {
    if CustomerError(w, user).Some? then CustomerError(w, user)
    else if b !in w.bookings then Some(BookingNotFound)
    else if w.bookings[b].customer != user then Some(BookingForbidden)
    else None
  }

  // ---- Quotes and new bookings ----------------------------------------------

  function PropertyError(user: UserId, owner: Option<UserId>): Option<Error> {
    if owner.None? then Some(PropertyNotFound)
    else if owner.value != user then Some(PropertyForbidden)
    else None
  }

  predicate IsUsed(w: World, id: QuoteId) {
    exists b :: b in w.bookings && w.bookings[b].quote.Some? && w.bookings[b].quote.value.id == id
  }

  /** What a look-up refuses: any but the customer's own quote, unexpired, unused and for this property. */
  function QuoteError(w: World, user: UserId, id: QuoteId, property: nat): Option<Error> {
    if id !in w.quotes || w.quotes[id].customer != user then Some(BadQuote(Quotes.QuoteNotFound))
    else if w.quotes[id].expiresAt <= w.now then Some(BadQuote(Quotes.QuoteExpired))
    else if IsUsed(w, id) then Some(BadQuote(Quotes.QuoteAlreadyUsed))
    else if w.quotes[id].property != property then Some(BadQuote(Quotes.WrongProperty))
    else None
  }

  /** The look-up remembers the quote for its call; nothing is locked. */
  function LookUpQuote(w: World, call: nat, user: UserId, id: QuoteId, property: nat): (World, Outcome)
    requires call !in w.inFlight.looked
  {
    if CustomerError(w, user).Some? then (w, Refused(CustomerError(w, user).value))
    else if QuoteError(w, user, id, property).Some? then (w, Refused(QuoteError(w, user, id, property).value))
    else (w.(inFlight := w.inFlight.(looked := w.inFlight.looked[call := id])), Done)
  }

  /**
   * A request for a visit, with what is looked up for it: the call that found its quote, if it has one, who owns the
   * property (nobody, if there is none), whether it is in use and in which zone, whether a review is overdue, the
   * catalogue, and whether the home details hold up.
   */
  datatype Request = Request(
    property: nat,
    owner: Option<UserId>,
    inUse: bool,
    zone: string,
    offset: int,
    quote: Option<nat>,
    entries: seq<Quotes.Entry>,
    catalogue: Quotes.Catalogue,
    reviewDue: bool,
    when: Option<Time>,
    homeDetailsOk: bool)

  /** The call that looked the quote of the request up has done so. */
  predicate LookedUp(w: World, q: Request) {
    q.quote.Some? ==> q.quote.value in w.inFlight.looked && w.inFlight.looked[q.quote.value] in w.quotes
  }

  /** The quote as it was found: a row never changes, but another booking may have been made from it since. */
  function QuoteOf(w: World, q: Request): Option<Quote>
    requires LookedUp(w, q)
  {
    if q.quote.Some? then Some(w.quotes[w.inFlight.looked[q.quote.value]]) else None
  }

  /** The selection checked: the request's own, or what its quote froze, services withdrawn since then included. */
  function RequestedSelectionError(quote: Option<Quote>, q: Request): Option<Error> {
    var problem := if quote.Some?
                   then Quotes.SelectionError(q.catalogue, Quotes.EntriesOf(quote.value.lines), true)
                   else Quotes.SelectionError(q.catalogue, q.entries, false);
    if problem.Some? then Some(BadSelection(problem.value)) else None
  }

  function SlotOf(w: World, when: Option<Time>, offset: int): Scheduling.Admission {
    Scheduling.Admit(when, offset, Scheduling.ServiceWindow(w.config.hours), w.settings.minLeadMinutes, w.now)
  }

  /** The quote must be this customer's, for this property; it is not asked again whether it is used or expired. */
  predicate Foreign(quote: Option<Quote>, user: UserId, property: nat) {
    quote.Some? && (quote.value.customer != user || quote.value.property != property)
  }

  /** The first check a request fails, in the order they are made. */
  function CreationError(w: World, user: UserId, q: Request): Option<Error>
    requires LookedUp(w, q)
  {
    if CustomerError(w, user).Some? then CustomerError(w, user)
    else if q.reviewDue then Some(ReviewRequired)
    else if PropertyError(user, q.owner).Some? then PropertyError(user, q.owner)
    else if !q.inUse then Some(PropertyInactive)
    else if Foreign(QuoteOf(w, q), user, q.property) then Some(BadQuote(Quotes.WrongProperty))
    else if RequestedSelectionError(QuoteOf(w, q), q).Some? then RequestedSelectionError(QuoteOf(w, q), q)
    else if SlotOf(w, q.when, q.offset).Rejected? then Some(OutsideSchedule(SlotOf(w, q.when, q.offset).error))
    else if !q.homeDetailsOk then Some(InvalidHomeDetails)
    else None
  }

  /** A new booking row as the creation service writes it. */
  function NewBooking(w: World, customer: UserId, q: Request): Booking
    requires LookedUp(w, q)
  {
    var quote := QuoteOf(w, q);
    Booking(customer, q.property, q.zone, BookingStatus.Pending, Searching, q.when, q.offset, w.now, None, w.now, None,
            1, quote,
            if quote.Some? then Some(quote.value.maximumTotal) else None,
            if quote.Some? then Some(quote.value.version) else None, None, None)
  }

  /** The call has ended, with or without a booking. */
  function EndCall(w: World, q: Request): World {
    if q.quote.Some? then w.(inFlight := w.inFlight.(looked := w.inFlight.looked - {q.quote.value})) else w
  }

  function CreateBooking(w: World, b: BookingId, user: UserId, q: Request): (World, Outcome)
    requires b !in w.bookings && LookedUp(w, q)
  {
    var error := CreationError(w, user, q);
    if error.Some? then (EndCall(w, q), Refused(error.value))
    else (PutBooking(EndCall(w, q), b, NewBooking(w, user, q)), Done)
  }

  predicate Reschedulable(w: World, b: BookingId)
    requires b in w.bookings
  {
    && w.bookings[b].status.Pending?
    && w.bookings[b].dispatch.NoContractor?
    && w.bookings[b].assignee.None?
    && (b in w.payments ==> !w.payments[b].status.Succeeded?)
  }

  function DropOffersOf(w: World, b: BookingId): map<OfferId, Offer> {
    map id | id in w.offers && w.offers[id].booking != b :: w.offers[id]
  }

  /**
   * Gives a booking nobody took a new time: every offer goes, the search starts over. A zone may be named, but only
   * the booking's own; the empty name stands for none.
   */
  function RescheduleBooking(w: World, user: UserId, b: BookingId, when: Option<Time>, zone: string): (World, Outcome) {
    var refusal := OwnerError(w, user, b);
    if refusal.Some? then (w, Refused(refusal.value))
    else if !Reschedulable(w, b) then (w, Refused(BookingNotReschedulable))
    else if zone != "" && zone != w.bookings[b].zone then (w, Refused(TimezoneMismatch))
    else
      var booking := w.bookings[b];
      match SlotOf(w, when, booking.utcOffset)
      case Rejected(why) => (w, Refused(OutsideSchedule(why)))
      case Admitted(at) =>
        var requested := if at.None? then w.now else booking.requestedAt;
        (PutBooking(w.(offers := DropOffersOf(w, b)), b,
                    booking.(scheduledAt := at, dispatch := Searching, requestedAt := requested, updatedAt := w.now)),
         Done)
  }

  predicate IsOpen(offer: Offer) { offer.status.Pending? || offer.status.AcceptedPendingPayment? }

  function ClosedByCancellation(offer: Offer, now: Time): Offer {
    offer.(status := Expired, closeReason := Some(CloseReason.BookingCancelled), respondedAt := Some(now))
  }

  /** The listed offers closed, whatever has become of them. */
  function Close(offers: map<OfferId, Offer>, ids: set<OfferId>, at: Time): map<OfferId, Offer> {
    map id | id in offers :: if id in ids then ClosedByCancellation(offers[id], at) else offers[id]
  }

  function OpenIds(w: World, b: BookingId): set<OfferId> {
    set id | id in w.offers && w.offers[id].booking == b && IsOpen(w.offers[id])
  }

  function Cancelling(w: World, b: BookingId): World
    requires b in w.bookings
  {
    PutBooking(w.(offers := Close(w.offers, OpenIds(w, b), w.now)), b,
               w.bookings[b].(status := Cancelled, cancelledAt := Some(w.now), updatedAt := w.now))
  }

  predicate Uncharged(payment: Payment) { payment.status.Failed? || payment.status.NotCharged? }

  /** It takes a pending booking nobody has been charged for. Without a customer, an administrator acts. */
  function CancelError(w: World, user: Option<UserId>, b: BookingId): Option<Error> {
    var refusal := if user.Some? then OwnerError(w, user.value, b)
                   else if b !in w.bookings then Some(BookingNotFound) else None;
    if refusal.Some? then refusal
    else if !w.bookings[b].status.Pending? then Some(BookingNotCancellable)
    else if b in w.payments && !Uncharged(w.payments[b]) then Some(CancellationRequiresSupport)
    else None
  }

  /** First half of a cancellation: it takes the lock, checks, and reads which offers are open. */
  function BeginCancel(w: World, user: Option<UserId>, b: BookingId): (World, Outcome) {
    var error := CancelError(w, user, b);
    if error.Some? then (w, Refused(error.value))
    else (w.(inFlight := w.inFlight.(closing := w.inFlight.closing[b := Closing(OpenIds(w, b), w.now)])), Done)
  }

  /** Second half: it closes the offers it read, whatever has become of them since, and cancels the booking. */
  function FinishCancel(w: World, b: BookingId): World
    requires Locked(w, b) && b in w.bookings
  {
    var c := w.inFlight.closing[b];
    PutBooking(w.(offers := Close(w.offers, c.affected, c.at),
                  inFlight := w.inFlight.(closing := w.inFlight.closing - {b})), b,
               w.bookings[b].(status := Cancelled, cancelledAt := Some(c.at), updatedAt := w.now))
  }

  /** A cancellation nobody interrupts. */
  function CancelBooking(w: World, user: Option<UserId>, b: BookingId): (World, Outcome) {
    var error := CancelError(w, user, b);
    if error.Some? then (w, Refused(error.value)) else (Cancelling(w, b), Done)
  }

  lemma CancelAtOnce(w: World, user: Option<UserId>, b: BookingId)
    requires !Locked(w, b) && BeginCancel(w, user, b).1.Done?
    ensures CancelBooking(w, user, b).1.Done? && b in w.bookings
    ensures FinishCancel(BeginCancel(w, user, b).0, b) == CancelBooking(w, user, b).0
  {
    var begun := BeginCancel(w, user, b).0;
    assert begun.inFlight.closing - {b} == w.inFlight.closing;
  }

  // ---- Payment -------------------------------------------------------------

  /** The offers that hold a booking; the safety theorem makes this at most one. */
  function ReservingIds(w: World, b: BookingId): set<OfferId> {
    set id | id in w.offers && w.offers[id].booking == b && w.offers[id].IsReserved()
  }

  lemma LargestExists(ids: set<nat>) returns (largest: nat)
    requires ids != {}
    ensures largest in ids && forall other :: other in ids ==> other <= largest
  {
    var some :| some in ids;
    largest := some;
    var rest := ids - {some};
    if rest != {} {
      var best := LargestExists(rest);
      largest := if some < best then best else some;
    }
    assert forall other :: other in ids ==> other == some || other in rest;
  }

  /** The most recently offered of the given ids, as the default ordering of the offer table lists first. */
  function Latest(ids: set<OfferId>): (latest: OfferId)
    requires ids != {}
    ensures latest in ids
  {
    assert exists id :: id in ids && forall other :: other in ids ==> other <= id by {
      var largest := LargestExists(ids);
    }
    var id :| id in ids && forall other :: other in ids ==> other <= id;
    id
  }

  /** What the provider answers to a charge; no answer is an exception, after which the outcome is unknown. */
  datatype Answer = Success | ActionNeeded | Failure

  function StatusAfter(answer: Answer): PaymentStatus {
    match answer
    case Success => Succeeded
    case ActionNeeded => RequiresAction
    case Failure => Failed
  }

  /** Opens the payment record at the accepted offer's frozen total, and charges it in the same transaction. */
  function StartCharge(w: World, b: BookingId, answer: Option<Answer>): (World, Outcome) {
    if b !in w.bookings then (w, Refused(BookingNotFound))
    else if ReservingIds(w, b) == {} then (w, Refused(MissingPrice))
    else if b in w.payments then
      (w, if w.payments[b].status.Succeeded? then Refused(PaymentAlreadyExists) else Done)
    else
      var total := w.offers[Latest(ReservingIds(w, b))].total;
      var status := if answer.Some? then StatusAfter(answer.value) else Processing;
      (w.(payments := w.payments[b := Payment(total, status, None)]), Done)
  }

  /** What moves a payment record after its first charge. */
  datatype PaymentEvent =
    | Retried(user: UserId)
    | RetryAnswered(answer: Option<Answer>)
    | ActionConfirmed(result: Answer)
    | ReportedSucceeded
    | ReportedFailed
    | Reconciled(success: bool)
    | FullyRefunded

  function Awaited(w: World, b: BookingId): nat { if b in w.inFlight.retrying then w.inFlight.retrying[b] else 0 }

  function Awaiting(w: World, b: BookingId, n: nat): World {
    w.(inFlight := w.inFlight.(retrying := w.inFlight.retrying[b := n]))
  }

  function PutPayment(w: World, b: BookingId, payment: Payment): World {
    w.(payments := w.payments[b := payment])
  }

  /** The statuses an event may find; a retry's answer is written whatever it finds, and only if one is owed. */
  predicate MayHappen(w: World, b: BookingId, e: PaymentEvent)
    requires b in w.payments
  {
    var status := w.payments[b].status;
    match e
    case Retried(user) =>
      && b in w.bookings && w.bookings[b].customer == user && (status.Failed? || status.RequiresAction?)
      && ReservingIds(w, b) != {}
    case RetryAnswered(_) => Awaited(w, b) > 0
    case ActionConfirmed(_) => status.RequiresAction?
    case ReportedSucceeded => status.Processing? || status.RequiresAction? || status.Failed?
    case ReportedFailed => status.Processing? || status.RequiresAction?
    case Reconciled(_) => status.Processing?
    case FullyRefunded => status.Succeeded?
  }

  /** Reports of the provider and the answer to a retry write the record without the lock of the booking. */
  predicate TakesLock(e: PaymentEvent) { e.Retried? || e.ActionConfirmed? || e.Reconciled? || e.FullyRefunded? }

  /** An event changes nothing at a moment it may not happen. */
  function SettlePayment(w: World, b: BookingId, e: PaymentEvent): World {
    if b !in w.payments || !MayHappen(w, b, e) then w
    else
      var payment := w.payments[b];
      match e
      case Retried(_) =>
        var total := w.offers[Latest(ReservingIds(w, b))].total;
        Awaiting(PutPayment(w, b, payment.(status := Processing, amount := total)), b, Awaited(w, b) + 1)
      case RetryAnswered(answer) =>
        var status := if answer.Some? then StatusAfter(answer.value) else payment.status;
        Awaiting(PutPayment(w, b, payment.(status := status)), b, Awaited(w, b) - 1)
      case ActionConfirmed(answer) => PutPayment(w, b, payment.(status := StatusAfter(answer)))
      case ReportedSucceeded => PutPayment(w, b, payment.(status := Succeeded))
      case ReportedFailed => PutPayment(w, b, payment.(status := Failed))
      case Reconciled(success) =>
        PutPayment(w, b, if success
                         then payment.(status := Succeeded,
                                       paidAt := if payment.paidAt.Some? then payment.paidAt else Some(w.now))
                         else payment.(status := Failed))
      case FullyRefunded => PutPayment(w, b, payment.(status := Refunded))
  }

  /** Assigns the contractor once the charge has succeeded; repeating it changes nothing. */
  function ConfirmPayment(w: World, b: BookingId): (World, Outcome) {
    if b !in w.payments then (w, Refused(PaymentNotFound))
    else if b !in w.bookings then (w, Refused(BookingNotFound))
    else if !w.bookings[b].status.Pending? then (w, Done)
    else if !w.payments[b].status.Succeeded? then (w, Refused(PaymentNotSuccessful))
    else if ReservingIds(w, b) == {} then (w, Refused(OfferNoLongerReserved))
    else
      var id := Latest(ReservingIds(w, b));
      var offer := w.offers[id];
      var payment := w.payments[b];
      var paidAt := if payment.paidAt.Some? then payment.paidAt else Some(w.now);
      (PutBooking(PutOffer(w, id, offer.(status := Accepted)), b,
                  w.bookings[b].(status := Confirmed, assignee := Some(offer.contractor),
                                 computedPrice := Some(offer.total), dispatch := Assigned,
                                 version := Some(offer.version), updatedAt := w.now))
         .(payments := w.payments[b := payment.(paidAt := paidAt)]), Done)
  }

  // ---- The environment -----------------------------------------------------

  predicate DistinctProfiles(profiles: seq<Profile>) {
    forall i, j :: 0 <= i < j < |profiles| ==> profiles[i].user != profiles[j].user
  }

  /** People and administrators edit accounts, deleted ones included, and contractors move; no row is removed. */
  predicate EnvironmentMay(w: World, users: map<UserId, User>, profiles: seq<Profile>) {
    && w.users.Keys <= users.Keys
    && DistinctProfiles(profiles)
    && (forall p :: p in w.profiles ==> exists q :: q in profiles && q.user == p.user)
  }

  /** A new quote is priced under the configuration of the moment, as the quote service writes it. */
  predicate MayIssue(w: World, quote: Quote) {
    quote.id !in w.quotes && Quotes.QuoteOk(quote, w.config) && quote.expiresAt == w.now + Quotes.QUOTE_TTL
  }

  // ---- Prices --------------------------------------------------------------

  /** A save first reads the stored row; nothing is locked. */
  function ReadForSave(w: World, call: nat, wanted: Config): World {
    w.(inFlight := w.inFlight.(saving := w.inFlight.saving[call := PricingHistory.Save(Some(w.config), wanted)]))
  }

  /** Then it writes the row, its version following the prices it read. */
  function WriteSave(w: World, call: nat): World
    requires call in w.inFlight.saving
  {
    w.(config := PricingHistory.Stored(w.inFlight.saving[call], w.now),
       inFlight := w.inFlight.(saving := w.inFlight.saving - {call}))
  }

  // ---- Steps and runs ------------------------------------------------------

  datatype Step =
    | Tick(to: Time)
    | Environment(users: map<UserId, User>, profiles: seq<Profile>)
    | BeginSave(call: nat, wanted: Config)
    | EndSave(call: nat)
    | Issue(quote: Quote)
    | FindQuote(call: nat, user: UserId, quoteId: QuoteId, property: nat)
    | Create(b: BookingId, user: UserId, request: Request)
    | Dispatch(b: BookingId, reading: Reading)
    | Accept(user: UserId, id: OfferId)
    | Decline(user: UserId, id: OfferId, attempt: Option<Reading>)
    | Expire(id: OfferId, snapshot: Time)
    | Reschedule(user: UserId, b: BookingId, when: Option<Time>, zone: string)
    | StartCancel(actor: Option<UserId>, b: BookingId)
    | EndCancel(b: BookingId)
    | Charge(b: BookingId, answer: Option<Answer>)
    | Settle(b: BookingId, event: PaymentEvent)
    | Confirm(b: BookingId)

  /** The booking whose lock the step takes. */
  function LockTaken(w: World, s: Step): Option<BookingId> {
    match s
    case Dispatch(b, _) => Some(b)
    case Accept(_, id) => if id in w.offers then Some(w.offers[id].booking) else None
    case Decline(_, id, _) => if id in w.offers then Some(w.offers[id].booking) else None
    case Reschedule(_, b, _, _) => Some(b)
    case StartCancel(_, b) => Some(b)
    case Charge(b, _) => Some(b)
    case Settle(b, e) => if TakesLock(e) then Some(b) else None
    case Confirm(b) => Some(b)
    case _ => None
  }

  /** The step has to wait for a cancellation: it does nothing now, and comes later if it comes at all. */
  predicate Waits(w: World, s: Step) { LockTaken(w, s).Some? && Locked(w, LockTaken(w, s).value) }

  /**
   * One transaction. A sweep worker holds a list read earlier: all it knows of an offer on it is that the offer,
   * if it still exists, had already lapsed at the worker's snapshot.
   */
  ghost function Transact(w: World, s: Step): World {
    match s
    case Tick(to) => if to >= w.now then w.(now := to) else w
    case Environment(users, profiles) =>
      if EnvironmentMay(w, users, profiles) then w.(users := users, profiles := profiles) else w
    case BeginSave(call, wanted) => if call !in w.inFlight.saving then ReadForSave(w, call, wanted) else w
    case EndSave(call) => if call in w.inFlight.saving then WriteSave(w, call) else w
    case Issue(quote) => if MayIssue(w, quote) then w.(quotes := w.quotes[quote.id := quote]) else w
    case FindQuote(call, user, id, property) =>
      if call !in w.inFlight.looked then LookUpQuote(w, call, user, id, property).0 else w
    case Create(b, user, q) => if b !in w.bookings && LookedUp(w, q) then CreateBooking(w, b, user, q).0 else w
    case Dispatch(b, r) => if b in w.bookings then AssignNextContractor(w, b, r).0 else w
    case Accept(user, id) => AcceptOffer(w, user, id).0
    case Decline(user, id, r) => DeclineOffer(w, user, id, r).0
    case Expire(id, snapshot) =>
      if snapshot <= w.now && (id in w.offers ==> w.offers[id].expiresAt < snapshot)
      then ExpireIfPending(w, id, snapshot) else w
    case Reschedule(user, b, when, zone) => RescheduleBooking(w, user, b, when, zone).0
    case StartCancel(actor, b) => BeginCancel(w, actor, b).0
    case EndCancel(b) => if Locked(w, b) && b in w.bookings then FinishCancel(w, b) else w
    case Charge(b, answer) => StartCharge(w, b, answer).0
    case Settle(b, e) => SettlePayment(w, b, e)
    case Confirm(b) => ConfirmPayment(w, b).0
  }

  /** One step: a transaction, unless it has to wait. */
  ghost function Next(w: World, s: Step): World { if Waits(w, s) then w else Transact(w, s) }

  ghost function Run(w: World, steps: seq<Step>): World {
    if steps == [] then w else Next(Run(w, steps[..|steps| - 1]), steps[|steps| - 1])
  }

  lemma RunNothing(w: World)
    ensures Run(w, []) == w
  {
  }

  lemma RunThen(w: World, steps: seq<Step>, s: Step)
    ensures Run(w, steps + [s]) == Next(Run(w, steps), s)
  {
    assert (steps + [s])[..|steps + [s]| - 1] == steps;
  }

  /** The empty database. */
  function Start(now: Time, settings: Settings, config: Config): World {
    World(now, settings, map[], [], map[], map[], 0, map[], map[], config, NOTHING_IN_FLIGHT)
  }
}
