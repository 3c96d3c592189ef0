/** Travel pricing: the capped distance fee, the single rounding point, and the ceiling shown before the search. */
module TravelPricing {
  import opened Domain

  /** Amounts inside a calculation: thousandths of a cent, exact for cents per km times thousandths of a km. */
  type Fine = nat

  const FINE_PER_CENT: nat := 1000

  /** The rounding step of a rule. */
  function Step(rule: RoundingRule): int {
    match rule
    case NearestCent => 1_000
    case NearestFiveCents => 5_000
    case NearestTenCents => 10_000
    case NearestDollar => 100_000
  }

  /** Round half up to a multiple of the rule's step; the result is in cents. */
  function ApplyRounding(amount: Fine, rule: RoundingRule): Cents {
    match rule
    case NearestCent => (amount + 500) / 1_000
    case NearestFiveCents => (amount + 2_500) / 5_000 * 5
    case NearestTenCents => (amount + 5_000) / 10_000 * 10
    case NearestDollar => (amount + 50_000) / 100_000 * 100
  }

  function TravelFee(distance: Distance, config: Config): Fine {
    var chargeable := if distance > config.includedDistance then distance - config.includedDistance else 0;
    var uncapped := chargeable * config.pricePerKm;
    var cap := config.maximumTravelFee * FINE_PER_CENT;
    if cap < uncapped then cap else uncapped
  }

  /** The charged total, and the travel fee rounded to the cent for storage only. */
  function FinalTotal(services: Cents, distance: Distance, config: Config): (Cents, Cents) {
    var fee := TravelFee(distance, config);
    (ApplyRounding(services * FINE_PER_CENT + fee, config.rounding), ApplyRounding(fee, NearestCent))
  }

  function MaximumTotal(services: Cents, config: Config): Cents {
    ApplyRounding((services + config.maximumTravelFee) * FINE_PER_CENT, config.rounding)
  }

  /** Rounding moves an amount by at most half a step. */
  lemma RoundingError(amount: Fine, rule: RoundingRule)
    ensures -Step(rule) <= 2 * (FINE_PER_CENT * ApplyRounding(amount, rule) - amount) <= Step(rule)
  {
  }

  /** Rounding never reverses an order, so it cannot lift a total above a rounded ceiling. */
  lemma RoundingIsMonotone(a: Fine, b: Fine, rule: RoundingRule)
    requires a <= b
    ensures ApplyRounding(a, rule) <= ApplyRounding(b, rule)
  {
    match rule
    case NearestCent =>
    case NearestFiveCents =>
    case NearestTenCents =>
    case NearestDollar =>
  }

  lemma DearerByDistance(near: nat, far: nat, price: nat)
    requires near <= far
    ensures near * price <= far * price
    ensures far > 0 && price > 0 ==> far * price > 0
  {
  }

  /** The fee grows with the distance up to its cap, and nothing is charged exactly inside the included distance. */
  lemma FeeGrowsToItsCap(near: Distance, far: Distance, config: Config)
    requires near <= far
    ensures TravelFee(near, config) <= TravelFee(far, config) <= config.maximumTravelFee * FINE_PER_CENT
    ensures config.pricePerKm > 0 && config.maximumTravelFee > 0 ==>
              (TravelFee(far, config) == 0 <==> far <= config.includedDistance)
  {
    DearerByDistance(if near > config.includedDistance then near - config.includedDistance else 0,
                     if far > config.includedDistance then far - config.includedDistance else 0, config.pricePerKm);
  }

  /** A nearer contractor is never dearer. */
  lemma NearerIsCheaper(services: Cents, near: Distance, far: Distance, config: Config)
    requires near <= far
    ensures FinalTotal(services, near, config).0 <= FinalTotal(services, far, config).0
  {
    FeeGrowsToItsCap(near, far, config);
    RoundingIsMonotone(services * FINE_PER_CENT + TravelFee(near, config),
                       services * FINE_PER_CENT + TravelFee(far, config), config.rounding);
  }

  /** However far the contractor is, one configuration never charges above the ceiling it announced. */
  lemma FinalTotalWithinMaximum(services: Cents, distance: Distance, config: Config)
    ensures FinalTotal(services, distance, config).0 <= MaximumTotal(services, config)
  {
    RoundingIsMonotone(services * FINE_PER_CENT + TravelFee(distance, config),
                       (services + config.maximumTravelFee) * FINE_PER_CENT, config.rounding);
  }

  /** What the single rounding leaves over between the total and its stored parts. */
  function Residue(services: Cents, distance: Distance, config: Config): int {
    var (total, fee) := FinalTotal(services, distance, config);
    total - services - fee
  }

  /** To the cent nothing is left over; otherwise at most half a step, and half a cent from the stored fee. */
  lemma ResidueBound(services: Cents, distance: Distance, config: Config)
    ensures config.rounding.NearestCent? ==> Residue(services, distance, config) == 0
    ensures -(Step(config.rounding) + FINE_PER_CENT) <= 2 * FINE_PER_CENT * Residue(services, distance, config)
            <= Step(config.rounding) + FINE_PER_CENT
  {
    var fee := TravelFee(distance, config);
    RoundingError(services * FINE_PER_CENT + fee, config.rounding);
    RoundingError(fee, NearestCent);
  }
}
