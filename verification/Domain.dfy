/** The rows the booking platform stores, and the closed vocabularies of their status columns. */
module Domain {

  datatype Option<+T> = None | Some(value: T)

  /** Microseconds since the epoch (UTC). */
  type Time = int

  const SECOND: int := 1_000_000
  const MINUTE: int := 60 * SECOND
  const HOUR: int := 60 * MINUTE
  const DAY: int := 24 * HOUR

  /** Whole cents. */
  type Cents = nat

  /** Thousandths of a kilometre: the three decimal places every distance column keeps. */
  type Distance = nat

  type BookingId = nat
  type OfferId = nat
  type QuoteId = nat

  /** A contractor profile is one-to-one with its account, so the account id names both. */
  type UserId = nat

  datatype Role = Customer | Contractor | Admin

  datatype AccountStatus = Active | Inactive | Suspended | Deleted

  datatype User = User(role: Role, isContractor: bool, isActive: bool, status: AccountStatus) {
    predicate HasAdminAccess() { role.Admin? }

    predicate HasCustomerAccess() { role.Customer? }

    predicate HasContractorAccess() { !HasAdminAccess() && (role.Contractor? || isContractor) }
  }

  /** `eligible` is the verdict on the latest reviewed registration; `locatedAt` is the server stamp of the last position. */
  datatype Profile = Profile(user: UserId, available: bool, eligible: bool, locatedAt: Option<Time>)

  datatype RoundingRule = NearestCent | NearestFiveCents | NearestTenCents | NearestDollar

  /** Opening and closing times are microseconds after local midnight. */
  datatype ServiceHours = ServiceHours(enabled: bool, start: int, end: int)

  datatype Config = Config(
    pricePerKm: Cents,
    includedDistance: Distance,
    maximumTravelFee: Cents,
    currency: string,
    rounding: RoundingRule,
    version: nat,
    activeFrom: Time,
    offerTtlSeconds: nat,
    hours: ServiceHours)

  /** Deployment settings, fixed while the system runs. A zero distance limit means no limit. */
  datatype Settings = Settings(maxDistance: Distance, allowHaversine: bool, minLeadMinutes: nat)

  datatype QuoteLine = QuoteLine(service: nat, name: string, roomCount: nat, roomPrice: Cents, basePrice: Cents)

  datatype Quote = Quote(
    id: QuoteId,
    customer: UserId,
    property: nat,
    lines: seq<QuoteLine>,
    servicesTotal: Cents,
    maximumTotal: Cents,
    currency: string,
    version: nat,
    expiresAt: Time)

  datatype BookingStatus = Pending | Confirmed | Cancelled

  datatype DispatchStatus = Searching | NoContractor | Assigned

  datatype Booking = Booking(
    customer: UserId,
    property: nat,
    zone: string,
    status: BookingStatus,
    dispatch: DispatchStatus,
    scheduledAt: Option<Time>,
    utcOffset: int,
    requestedAt: Time,
    lastAttemptAt: Option<Time>,
    updatedAt: Time,
    cancelledAt: Option<Time>,
    round: nat,
    quote: Option<Quote>,
    maxTotal: Option<Cents>,
    version: Option<nat>,
    assignee: Option<UserId>,
    computedPrice: Option<Cents>)

  datatype OfferStatus = Pending | AcceptedPendingPayment | Accepted | Declined | Expired

  datatype CloseReason = DeclinedByContractor | TimedOut | BookingCancelled

  datatype DistanceSource = Route | Haversine

  datatype Offer = Offer(
    booking: BookingId,
    contractor: UserId,
    status: OfferStatus,
    closeReason: Option<CloseReason>,
    round: nat,
    distance: Distance,
    source: DistanceSource,
    servicesTotal: Cents,
    travelFee: Cents,
    total: Cents,
    earnings: Cents,
    version: nat,
    offeredAt: Time,
    expiresAt: Time,
    respondedAt: Option<Time>) {

    predicate IsExpired(now: Time) { expiresAt <= now }

    predicate IsActionable(now: Time) { status.Pending? && !IsExpired(now) }

    /** The offer holds the booking for its contractor. */
    predicate IsReserved() { status.AcceptedPendingPayment? || status.Accepted? }

    /** The offer keeps everybody else away from the booking, by being answerable or by holding it. */
    predicate Engages(now: Time) { IsActionable(now) || IsReserved() }
  }

  datatype PaymentStatus = NotCharged | Pending | Processing | RequiresAction | Succeeded | Failed | Refunded

  datatype Payment = Payment(amount: Cents, status: PaymentStatus, paidAt: Option<Time>)
}
