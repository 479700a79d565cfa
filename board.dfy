/**
 * The `GameBoard` component's state and handlers (src/components/GameBoard.tsx)
 * as an object whose fields the handlers update in place. Each handler is
 * proved to move the object from state `s` to the state the corresponding
 * transition of module Economy gives, and to keep the invariant.
 */
module Board {
  import opened Wrappers
  import opened Types
  import opened Pricing
  import opened GameConfig
  import Economy

  class GameBoard {
    const role: Role
    var month: int
    var money: int
    var prices: seq<PricedResource>
    var currentEvent: Option<InflationEvent>
    var gameOver: bool
    var gameOverReason: string
    var energy: int
    var monthlyRecords: seq<MonthlyRecord>
    var optionalsEnabled: bool

    /** The fields as one value. */
    function State(): Economy.GameState
      reads this
    {
      Economy.GameState(month, money, energy, prices, currentEvent, gameOver, gameOverReason,
                        monthlyRecords, optionalsEnabled)
    }

    predicate Valid()
      reads this
    {
      Economy.Valid(State())
    }

    /**
     * Mounting the board for `role`: the initial hook values, then the
     * mount-time draw, with `first` standing for the index it picks.
     */
    constructor (role: Role, first: nat)
      requires first < |INFLATION_EVENTS|
      ensures this.role == role
      ensures State() == Economy.Initial(Roles(role), INFLATION_EVENTS[first])
      ensures Valid()
    {
      this.role := role;
      month := 1;
      money := Roles(role).startingMoney;
      prices := Unpriced(RESOURCES);
      currentEvent := None;
      gameOver := false;
      gameOverReason := "";
      energy := Economy.MAX_ENERGY;
      monthlyRecords := [];
      optionalsEnabled := true;
      new;
      DrawInflationEvent(first);
      RolesArePositive(role);
      Economy.ConfiguredEventsAreInflationary(INFLATION_EVENTS[first]);
      Economy.InitialIsValid(Roles(role), INFLATION_EVENTS[first]);
    }

    /**
     * Sets the current event to the one at `index` (the random draw) and
     * reprices the list with it.
     */
    method DrawInflationEvent(index: nat)
      requires index < |INFLATION_EVENTS|
      modifies this
      ensures State() == Economy.DrawEvent(old(State()), INFLATION_EVENTS[index])
    {
      var event := INFLATION_EVENTS[index];
      currentEvent := Some(event);
      prices := ApplyEvent(prices, event);
    }

    /**
     * Advances one month, or ends the game when the required expenses
     * exceed the money or the energy would drop to 0 or below. `index`
     * stands for the event the closing draw picks.
     */
    method NextMonth(index: nat)
      requires Valid() && !gameOver && index < |INFLATION_EVENTS|
      modifies this
      ensures State() == Economy.NextMonth(old(State()), Roles(role), INFLATION_EVENTS[index])
      ensures gameOver <==>
              old(money) < Economy.RequiredExpenses(old(prices)) || old(energy) - Roles(role).energyDrain <= 0
      ensures gameOver ==> money == old(money) && energy == old(energy) && month == old(month) &&
                           monthlyRecords == old(monthlyRecords) && prices == old(prices)
      ensures Valid()
    {
      ghost var before := State();
      RolesArePositive(role);
      Economy.ConfiguredEventsAreInflationary(INFLATION_EVENTS[index]);
      Economy.NextMonthKeepsValid(before, Roles(role), INFLATION_EVENTS[index]);

      var requiredExpenses := Economy.RequiredExpenses(prices);
      if money < requiredExpenses {
        gameOverReason := Economy.INSUFFICIENT_FUNDS;
        gameOver := true;
        return;
      }

      var newEnergy := energy - Roles(role).energyDrain;
      if newEnergy <= 0 {
        gameOverReason := Economy.ENERGY_DEPLETED;
        gameOver := true;
        return;
      }

      energy := newEnergy;
      money := money - requiredExpenses + Roles(role).monthlyIncome;
      monthlyRecords := monthlyRecords + [MonthlyRecord(month, requiredExpenses, Roles(role).monthlyIncome)];
      month := month + 1;
      DrawInflationEvent(index);
    }

    /**
     * Buys `resource`, an entry of the price list: pays its current price and
     * gains its energy boost up to the cap, unless optionals are disabled or
     * the money is short.
     */
    method HandleOptionalPurchase(resource: Resource)
      requires Valid() && !gameOver && Economy.Offered(prices, resource)
      modifies this
      ensures State() == Economy.Purchase(old(State()), resource)
      ensures month == old(month) && monthlyRecords == old(monthlyRecords) &&
              prices == old(prices) && gameOver == old(gameOver)
      ensures Valid()
    {
      Economy.PurchaseKeepsValid(State(), resource);
      if !optionalsEnabled || money < resource.basePrice {
        return;
      }
      money := money - resource.basePrice;
      if resource.energyBoost.Some? && resource.energyBoost.value != 0 {
        energy := Economy.Min(Economy.MAX_ENERGY, energy + resource.energyBoost.value);
      }
    }

    /** The enable/disable toggle of the optional purchases. */
    method ToggleOptionals()
      modifies this
      ensures State() == old(State()).(optionalsEnabled := !old(optionalsEnabled))
    {
      optionalsEnabled := !optionalsEnabled;
    }
  }
}
