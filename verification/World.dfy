/** The database as one value, and the queries every service asks of it. */
module Worlds {
  import opened Domain
  import PricingHistory

  /** A cancellation between its two statements, under the lock of its booking: the open offers it read, and when. */
  datatype Closing = Closing(affected: set<OfferId>, at: Time)

  /**
   * What has been begun and not finished: cancellations by booking, price saves and quote look-ups by call, and how
   * many retried charges the provider still owes an answer.
   */
  datatype InFlight = InFlight(
    closing: map<BookingId, Closing>,
    saving: map<nat, PricingHistory.Save>,
    looked: map<nat, QuoteId>,
    retrying: map<BookingId, nat>)

  /** The profile table is listed in the order its queryset returns rows. Offer ids are never reused. */
  datatype World = World(
    now: Time,
    settings: Settings,
    users: map<UserId, User>,
    profiles: seq<Profile>,
    bookings: map<BookingId, Booking>,
    offers: map<OfferId, Offer>,
    nextOffer: OfferId,
    payments: map<BookingId, Payment>,
    quotes: map<QuoteId, Quote>,
    config: Config,
    inFlight: InFlight)

  const NOTHING_IN_FLIGHT: InFlight := InFlight(map[], map[], map[], map[])

  /** A cancellation in progress holds the lock of the booking. */
  predicate Locked(w: World, b: BookingId) { b in w.inFlight.closing }

  function OffersOf(w: World, b: BookingId): map<OfferId, Offer> {
    map id | id in w.offers && w.offers[id].booking == b :: w.offers[id]
  }

  predicate HasLiveOffer(w: World, b: BookingId) {
    exists id :: id in w.offers && w.offers[id].booking == b && w.offers[id].IsActionable(w.now)
  }

  predicate IsReserved(w: World, b: BookingId) {
    exists id :: id in w.offers && w.offers[id].booking == b && w.offers[id].IsReserved()
  }

  predicate HasProfile(w: World, user: UserId) {
    exists i :: 0 <= i < |w.profiles| && w.profiles[i].user == user
  }

  /** Contractors already offered this booking in its current round. */
  function Offered(w: World, b: BookingId): set<UserId>
    requires b in w.bookings
  {
    set id | id in w.offers && w.offers[id].booking == b && w.offers[id].round == w.bookings[b].round
      :: w.offers[id].contractor
  }

  /** Everything stored about one booking. */
  datatype Folder = Folder(booking: Booking, offers: map<OfferId, Offer>, payment: Option<Payment>)

  function FolderOf(w: World, b: BookingId): Folder
    requires b in w.bookings
  {
    Folder(w.bookings[b], OffersOf(w, b), if b in w.payments then Some(w.payments[b]) else None)
  }
}
