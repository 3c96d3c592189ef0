/** The tables the services read and write in place. */
module Databases {
  import opened Domain
  import opened Worlds

  class Database {
    const settings: Settings
    var now: Time
    var users: map<UserId, User>
    var profiles: seq<Profile>
    var bookings: map<BookingId, Booking>
    var offers: map<OfferId, Offer>
    var nextOffer: OfferId
    var payments: map<BookingId, Payment>
    var quotes: map<QuoteId, Quote>
    var config: Config
    var inFlight: InFlight

    constructor (now: Time, settings: Settings, config: Config)
      ensures Value() == World(now, settings, map[], [], map[], map[], 0, map[], map[], config, NOTHING_IN_FLIGHT)
    {
      this.settings := settings;
      this.now, this.config, inFlight := now, config, NOTHING_IN_FLIGHT;
      users, profiles, bookings, offers, nextOffer, payments, quotes := map[], [], map[], map[], 0, map[], map[];
    }

    /** The contents of every table, as one value. */
    function Value(): World
      reads this
    {
      World(now, settings, users, profiles, bookings, offers, nextOffer, payments, quotes, config, inFlight)
    }

    /** Puts every table back to a saved value: the rollback of a transaction. */
    method Restore(saved: World)
      requires saved.settings == settings
      modifies this
      ensures Value() == saved
    {
      now, users, profiles, bookings := saved.now, saved.users, saved.profiles, saved.bookings;
      offers, nextOffer, payments := saved.offers, saved.nextOffer, saved.payments;
      quotes, config, inFlight := saved.quotes, saved.config, saved.inFlight;
    }
  }
}
