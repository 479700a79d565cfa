/**
 * The constant tables of src/data/gameConfig.ts: the roles, the basket of
 * resources and the inflation events, with lemmas about what they contain.
 */
module GameConfig {
  import opened Wrappers
  import opened Types

  /** `ROLES[role]`: the configuration of each role. */
  function Roles(role: Role): RoleConfig
  {
    match role
    case Worker =>
      RoleConfig("Factory Worker", 3000, 5000,
                 "A steady job with fixed income, but vulnerable to rising costs.", 100)
    case BusinessOwner =>
      RoleConfig("Small Business Owner", 5000, 15000,
                 "Higher potential income but also higher risks and expenses.", 150)
    case Farmer =>
      RoleConfig("Farmer", 4000, 10000,
                 "Can produce food but dependent on weather and market prices.", 120)
    case Banker =>
      RoleConfig("Banker", 7000, 20000,
                 "Benefits from high interest rates but faces market risks.", 80)
    case Government =>
      RoleConfig("Government Official", 6000, 12000,
                 "Stable income but responsible for economic policies.", 90)
  }

  const RESOURCES: seq<Resource> := [
    Resource("bread", "Bread", 10, true, Food, None),
    Resource("milk", "Milk", 8, true, Food, None),
    Resource("rent", "Rent", 1000, true, Housing, None),
    Resource("electricity", "Electricity", 150, true, Utilities, None),
    Resource("water", "Water", 80, true, Utilities, None),
    Resource("clothing", "Clothing", 200, false, Goods, Some(150)),
    Resource("entertainment", "Entertainment", 100, false, Goods, Some(200))
  ]

  const INFLATION_EVENTS: seq<InflationEvent> := [
    InflationEvent("Oil Crisis",
                   "Global oil prices surge, affecting transportation and production costs.",
                   [Effect(None, 120)]),
    InflationEvent("Supply Chain Disruption",
                   "Major supply chain issues cause shortages and price increases.",
                   [Effect(Some("food"), 130), Effect(Some("goods"), 125)]),
    InflationEvent("Housing Bubble",
                   "Real estate prices soar due to speculation.",
                   [Effect(Some("housing"), 140)]),
    InflationEvent("Utility Cost Spike",
                   "Energy costs increase due to infrastructure problems.",
                   [Effect(Some("utilities"), 135)])
  ]

  /** Every role has positive income, starting money and monthly energy drain. */
  lemma RolesArePositive(role: Role)
    ensures Roles(role).monthlyIncome > 0
    ensures Roles(role).startingMoney > 0
    ensures Roles(role).energyDrain > 0
  {
  }

  /** Seven resources with pairwise distinct identifiers and positive prices. */
  lemma ResourcesWellFormed()
    ensures |RESOURCES| == 7
    ensures forall i, j :: 0 <= i < j < |RESOURCES| ==> RESOURCES[i].id != RESOURCES[j].id
    ensures forall r :: r in RESOURCES ==> r.basePrice > 0
  {
  }

  /**
   * An energy boost is present exactly on the resources that are not
   * required (clothing 150, entertainment 200), and it is positive.
   */
  lemma BoostsOnlyOnOptionals()
    ensures forall r :: r in RESOURCES ==> (r.energyBoost.Some? <==> !r.isRequired)
    ensures forall r :: r in RESOURCES && r.energyBoost.Some? ==> r.energyBoost.value > 0
    ensures RESOURCES[5].id == "clothing" && RESOURCES[5].energyBoost == Some(150)
    ensures RESOURCES[6].id == "entertainment" && RESOURCES[6].energyBoost == Some(200)
  {
  }

  /** Every category filter of a configured effect names one of the four categories. */
  lemma EffectCategoriesAreKnown()
    ensures forall ev, e :: ev in INFLATION_EVENTS && e in ev.effects && e.category.Some? ==>
              e.category.value in CategoryNames
  {
  }
}
