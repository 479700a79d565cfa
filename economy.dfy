/**
 * The game's state machine on values: the state the board keeps, the month
 * transition of `nextMonth`, the purchase of `handleOptionalPurchase` and
 * the mount-time event draw (src/components/GameBoard.tsx), with the
 * invariants they keep and scenarios on the configured tables.
 */
module Economy {
  import opened Wrappers
  import opened Types
  import opened Pricing
  import opened GameConfig

  /** Energy starts at, and is capped at, this value. */
  const MAX_ENERGY: int := 1000

  const INSUFFICIENT_FUNDS: string := "You can no longer afford basic necessities!"
  const ENERGY_DEPLETED: string := "Your energy has been depleted!"

  /** The board's state variables (the `useState` hooks the handlers use). */
  datatype GameState = GameState(
    month: int,
    money: int,
    energy: int,
    prices: seq<PricedResource>,
    currentEvent: Option<InflationEvent>,
    gameOver: bool,
    gameOverReason: string,
    monthlyRecords: seq<MonthlyRecord>,
    optionalsEnabled: bool)

  function Min(a: int, b: int): int
  {
    if a <= b then a else b
  }

  /** The sum of the current prices of the required resources. */
  function RequiredExpenses(prices: seq<PricedResource>): int
  {
    if prices == [] then 0
    else (if prices[0].item.isRequired then prices[0].item.basePrice else 0) + RequiredExpenses(prices[1..])
  }

  /** Before any event, the required resources cost 10 + 8 + 1000 + 150 + 80. */
  lemma RequiredExpensesOfResources()
    ensures RequiredExpenses(Unpriced(RESOURCES)) == 1248
  {
    var p := Unpriced(RESOURCES);
    assert p[7..] == [];
    assert p[6..][1..] == p[7..] && RequiredExpenses(p[6..]) == 0;
    assert p[5..][1..] == p[6..] && RequiredExpenses(p[5..]) == 0;
    assert p[4..][1..] == p[5..] && RequiredExpenses(p[4..]) == 80;
    assert p[3..][1..] == p[4..] && RequiredExpenses(p[3..]) == 230;
    assert p[2..][1..] == p[3..] && RequiredExpenses(p[2..]) == 1230;
    assert p[1..][1..] == p[2..] && RequiredExpenses(p[1..]) == 1238;
  }

  /** An inflationary event never lowers the monthly bill. */
  lemma {:induction false} RequiredExpensesNeverFall(prices: seq<PricedResource>, event: InflationEvent)
    requires Inflationary(event)
    requires forall i :: 0 <= i < |prices| ==> prices[i].item.basePrice >= 0
    ensures RequiredExpenses(ApplyEvent(prices, event)) >= RequiredExpenses(prices)
  {
    if prices != [] {
      var after := ApplyEvent(prices, event);
      assert after[1..] == ApplyEvent(prices[1..], event);
      ApplyEventKeepsGoods(prices, event);
      ApplyEventNeverLowers(prices, event, 0);
      RequiredExpensesNeverFall(prices[1..], event);
    }
  }

  /**
   * Every multiplier of a configured event is greater than 1, so the event is
   * inflationary and never lowers a price.
   */
  lemma ConfiguredEventsAreInflationary(event: InflationEvent)
    requires event in INFLATION_EVENTS
    ensures forall e :: e in event.effects ==> e.multiplierPercent > 100
    ensures Inflationary(event)
  {
  }

  /**
   * No configured event has two effects that match the same category, so the
   * first-match rule never has to break a tie on the supplied data.
   */
  lemma ConfiguredEventsAreUnambiguous(event: InflationEvent, c: Category, i: int, j: int)
    requires event in INFLATION_EVENTS
    requires 0 <= i < j < |event.effects|
    ensures !(Matches(event.effects[i], c) && Matches(event.effects[j], c))
  {
  }

  /** `drawInflationEvent` with the drawn event: record it and reprice the list. */
  function DrawEvent(s: GameState, event: InflationEvent): GameState
  {
    s.(currentEvent := Some(event), prices := ApplyEvent(s.prices, event))
  }

  /** The state after mounting: the initial hook values, then one event draw. */
  function Initial(role: RoleConfig, event: InflationEvent): GameState
  {
    DrawEvent(GameState(1, role.startingMoney, MAX_ENERGY, Unpriced(RESOURCES), None, false, "", [], true),
              event)
  }

  /** `nextMonth`, with `event` standing for the event the final draw picks. */
  function NextMonth(s: GameState, role: RoleConfig, event: InflationEvent): GameState
  {
    var requiredExpenses := RequiredExpenses(s.prices);
    if s.money < requiredExpenses then
      s.(gameOverReason := INSUFFICIENT_FUNDS, gameOver := true)
    else
      var newEnergy := s.energy - role.energyDrain;
      if newEnergy <= 0 then
        s.(gameOverReason := ENERGY_DEPLETED, gameOver := true)
      else
        DrawEvent(s.(energy := newEnergy,
                     money := s.money - requiredExpenses + role.monthlyIncome,
                     month := s.month + 1,
                     monthlyRecords := s.monthlyRecords +
                       [MonthlyRecord(s.month, requiredExpenses, role.monthlyIncome)]),
                  event)
  }

  /** `handleOptionalPurchase(resource)`. */
  function Purchase(s: GameState, resource: Resource): GameState
  {
    if !s.optionalsEnabled || s.money < resource.basePrice then s
    else
      var paid := s.(money := s.money - resource.basePrice);
      // `if (resource.energyBoost)`: an absent or zero boost is skipped
      if resource.energyBoost.Some? && resource.energyBoost.value != 0 then
        paid.(energy := Min(MAX_ENERGY, s.energy + resource.energyBoost.value))
      else paid
  }

  /** The role figures that keep money and energy in range. */
  predicate RoleOk(role: RoleConfig)
  {
    role.monthlyIncome >= 0 && role.startingMoney >= 0 && role.energyDrain >= 0
  }

  /** The price list still holds the configured resources, in order, at positive prices. */
  predicate Catalogue(prices: seq<PricedResource>)
  {
    |prices| == |RESOURCES| &&
    forall i :: 0 <= i < |prices| ==> SameGoods(prices[i].item, RESOURCES[i]) && prices[i].item.basePrice > 0
  }

  /** The state invariant: numbered history, non-negative money, energy in (0, 1000]. */
  predicate Valid(s: GameState)
  {
    s.month >= 1 && |s.monthlyRecords| == s.month - 1 &&
    (forall i :: 0 <= i < |s.monthlyRecords| ==> s.monthlyRecords[i].month == i + 1) &&
    s.money >= 0 && 0 < s.energy <= MAX_ENERGY &&
    Catalogue(s.prices)
  }

  /** `resource` is one of the entries of the price list, as the board offers it. */
  predicate Offered(prices: seq<PricedResource>, resource: Resource)
  {
    exists i :: 0 <= i < |prices| && prices[i].item == resource
  }

  /** An inflationary draw keeps the basket, in order, at positive prices. */
  lemma DrawEventKeepsCatalogue(s: GameState, event: InflationEvent)
    requires Catalogue(s.prices) && Inflationary(event)
    ensures Catalogue(DrawEvent(s, event).prices)
  {
  }

  /** The state after mounting satisfies the invariant, with nothing yet recorded. */
  lemma InitialIsValid(role: RoleConfig, event: InflationEvent)
    requires RoleOk(role) && Inflationary(event)
    ensures var s := Initial(role, event);
            Valid(s) && !s.gameOver && s.month == 1 && s.monthlyRecords == [] &&
            s.currentEvent == Some(event) && s.prices == ApplyEvent(Unpriced(RESOURCES), event)
  {
  }

  /** The month fails exactly when funds or energy run short (or the game is already over). */
  lemma NextMonthFailsIff(s: GameState, role: RoleConfig, event: InflationEvent)
    ensures NextMonth(s, role, event).gameOver <==>
            s.gameOver || s.money < RequiredExpenses(s.prices) || s.energy - role.energyDrain <= 0
  {
  }

  /**
   * A failing month changes nothing but the game-over flag and its reason;
   * running short of money is reported before running short of energy.
   */
  lemma NextMonthFailureIsAtomic(s: GameState, role: RoleConfig, event: InflationEvent)
    requires !s.gameOver && NextMonth(s, role, event).gameOver
    ensures var r := NextMonth(s, role, event);
            r.money == s.money && r.energy == s.energy && r.month == s.month &&
            r.monthlyRecords == s.monthlyRecords && r.prices == s.prices &&
            r.currentEvent == s.currentEvent && r.optionalsEnabled == s.optionalsEnabled &&
            r.gameOverReason == (if s.money < RequiredExpenses(s.prices) then INSUFFICIENT_FUNDS else ENERGY_DEPLETED)
  {
  }

  /** Money exactly equal to the bill is enough: the comparison is strict. */
  lemma NextMonthAtExactFunds(s: GameState, role: RoleConfig, event: InflationEvent)
    requires !s.gameOver && s.money == RequiredExpenses(s.prices) && s.energy - role.energyDrain > 0
    ensures var r := NextMonth(s, role, event);
            !r.gameOver && r.money == role.monthlyIncome
  {
  }

  /** Energy that would reach exactly 0 ends the game. */
  lemma NextMonthAtZeroEnergy(s: GameState, role: RoleConfig, event: InflationEvent)
    requires s.money >= RequiredExpenses(s.prices) && s.energy == role.energyDrain
    ensures var r := NextMonth(s, role, event);
            r.gameOver && r.gameOverReason == ENERGY_DEPLETED && r.energy == s.energy
  {
  }

  /**
   * A successful month drains energy, pays the bill computed from the prices
   * before the new event, collects income, appends one record numbered with
   * the old month, and only then reprices the list with the new event.
   */
  lemma NextMonthCommits(s: GameState, role: RoleConfig, event: InflationEvent)
    requires !NextMonth(s, role, event).gameOver
    ensures var r := NextMonth(s, role, event);
            var bill := RequiredExpenses(s.prices);
            r.energy == s.energy - role.energyDrain &&
            r.money == s.money - bill + role.monthlyIncome &&
            r.month == s.month + 1 &&
            r.monthlyRecords == s.monthlyRecords + [MonthlyRecord(s.month, bill, role.monthlyIncome)] &&
            r.prices == ApplyEvent(s.prices, event) &&
            r.currentEvent == Some(event) && r.optionalsEnabled == s.optionalsEnabled
  {
  }

  /** Every month transition keeps the state invariant. */
  lemma NextMonthKeepsValid(s: GameState, role: RoleConfig, event: InflationEvent)
    requires Valid(s) && RoleOk(role) && Inflationary(event)
    ensures Valid(NextMonth(s, role, event))
  {
    var bill := RequiredExpenses(s.prices);
    if s.money >= bill && s.energy - role.energyDrain > 0 {
      var committed := s.(energy := s.energy - role.energyDrain,
                          money := s.money - bill + role.monthlyIncome,
                          month := s.month + 1,
                          monthlyRecords := s.monthlyRecords + [MonthlyRecord(s.month, bill, role.monthlyIncome)]);
      DrawEventKeepsCatalogue(committed, event);
    }
  }

  /**
   * A purchase never touches the month, the history, the prices or the
   * game-over flag. It does nothing when optionals are disabled or the money
   * is short; otherwise it pays the price exactly and adds the boost, if
   * any, up to the energy cap.
   */
  lemma PurchaseEffect(s: GameState, resource: Resource)
    requires s.energy <= MAX_ENERGY
    ensures var r := Purchase(s, resource);
            r.month == s.month && r.monthlyRecords == s.monthlyRecords && r.prices == s.prices &&
            r.gameOver == s.gameOver && r.currentEvent == s.currentEvent &&
            (!s.optionalsEnabled || s.money < resource.basePrice ==> r == s) &&
            (s.optionalsEnabled && s.money >= resource.basePrice ==>
               r.money == s.money - resource.basePrice &&
               r.energy == (if resource.energyBoost.Some?
                            then Min(MAX_ENERGY, s.energy + resource.energyBoost.value)
                            else s.energy))
  {
  }

  /** Buying an offered resource keeps the invariant, energy included. */
  lemma PurchaseKeepsValid(s: GameState, resource: Resource)
    requires Valid(s) && Offered(s.prices, resource)
    ensures Valid(Purchase(s, resource))
  {
  }

  /** The months played with `events` as the successive draws, stopping at game over. */
  function Run(s: GameState, role: RoleConfig, events: seq<InflationEvent>): GameState
    decreases |events|
  {
    if events == [] || s.gameOver then s
    else Run(NextMonth(s, role, events[0]), role, events[1..])
  }

  /** Playing months one after another keeps the invariant. */
  lemma {:induction false} RunKeepsValid(s: GameState, role: RoleConfig, events: seq<InflationEvent>)
    requires Valid(s) && RoleOk(role)
    requires forall e :: e in events ==> Inflationary(e)
    ensures Valid(Run(s, role, events))
    decreases |events|
  {
    if events != [] && !s.gameOver {
      NextMonthKeepsValid(s, role, events[0]);
      RunKeepsValid(NextMonth(s, role, events[0]), role, events[1..]);
    }
  }

  /**
   * Without purchases, each completed month costs exactly one drain of
   * energy and adds one record, and the game only stops early on game over.
   */
  lemma {:induction false} RunDrainsEnergy(s: GameState, role: RoleConfig, events: seq<InflationEvent>)
    ensures var r := Run(s, role, events);
            var played := |r.monthlyRecords| - |s.monthlyRecords|;
            played >= 0 && r.month - s.month == played &&
            r.energy == s.energy - role.energyDrain * played &&
            (s.energy > 0 ==> r.energy > 0) &&
            (!r.gameOver ==> played == |events|)
    decreases |events|
  {
    if events != [] && !s.gameOver {
      var next := NextMonth(s, role, events[0]);
      RunDrainsEnergy(next, role, events[1..]);
      if next.gameOver {
        NextMonthFailureIsAtomic(s, role, events[0]);
      } else {
        NextMonthCommits(s, role, events[0]);
      }
    }
  }

  /**
   * From the start of a game, without purchases, the months completed times
   * the role's drain stay below the starting energy.
   */
  lemma MonthsBoundedByEnergy(role: RoleConfig, first: InflationEvent, events: seq<InflationEvent>)
    ensures var r := Run(Initial(role, first), role, events);
            |r.monthlyRecords| * role.energyDrain < MAX_ENERGY
  {
    RunDrainsEnergy(Initial(role, first), role, events);
  }

  /**
   * The factory worker (drain 100) completes at most nine months without
   * purchases: the tenth `nextMonth`, if reached, brings energy to 0 and ends the game.
   */
  lemma WorkerLastsAtMostNineMonths(first: InflationEvent, events: seq<InflationEvent>)
    requires |events| >= 10
    ensures var r := Run(Initial(Roles(Worker), first), Roles(Worker), events);
            r.gameOver && |r.monthlyRecords| <= 9 && r.month <= 10
  {
    RunDrainsEnergy(Initial(Roles(Worker), first), Roles(Worker), events);
  }

  /**
   * A worker's first month: the mount-time draw is the housing bubble (rent
   * 1000 becomes 1400), so the first bill is 1648; after the month, with the
   * oil crisis drawn, the worker holds 5000 - 1648 + 3000 and the next bill,
   * every price up 20%, is 12 + 10 + 1680 + 180 + 96.
   */
  lemma WorkerFirstMonth()
    ensures var s := Initial(Roles(Worker), INFLATION_EVENTS[2]);
            var r := NextMonth(s, Roles(Worker), INFLATION_EVENTS[0]);
            RequiredExpenses(s.prices) == 1648 &&
            r.money == 6352 && r.energy == 900 && r.month == 2 &&
            r.monthlyRecords == [MonthlyRecord(1, 1648, 3000)] &&
            RequiredExpenses(r.prices) == 1978
  {
    var s := Initial(Roles(Worker), INFLATION_EVENTS[2]);
    var p := s.prices;
    assert p[0].item.basePrice == 10;
    assert p[1].item.basePrice == 8;
    assert p[2].item.basePrice == 1400;
    assert p[3].item.basePrice == 150;
    assert p[4].item.basePrice == 80;
    assert RequiredExpenses(p) == 1648 by {
      assert p[7..] == [];
      assert p[6..][1..] == p[7..] && RequiredExpenses(p[6..]) == 0;
      assert p[5..][1..] == p[6..] && RequiredExpenses(p[5..]) == 0;
      assert p[4..][1..] == p[5..] && RequiredExpenses(p[4..]) == 80;
      assert p[3..][1..] == p[4..] && RequiredExpenses(p[3..]) == 230;
      assert p[2..][1..] == p[3..] && RequiredExpenses(p[2..]) == 1630;
      assert p[1..][1..] == p[2..] && RequiredExpenses(p[1..]) == 1638;
    }
    var r := NextMonth(s, Roles(Worker), INFLATION_EVENTS[0]);
    var q := r.prices;
    assert q[0].item.basePrice == 12;
    assert q[1].item.basePrice == 10;
    assert q[2].item.basePrice == 1680;
    assert q[3].item.basePrice == 180;
    assert q[4].item.basePrice == 96;
    assert RequiredExpenses(q) == 1978 by {
      assert q[7..] == [];
      assert q[6..][1..] == q[7..] && RequiredExpenses(q[6..]) == 0;
      assert q[5..][1..] == q[6..] && RequiredExpenses(q[5..]) == 0;
      assert q[4..][1..] == q[5..] && RequiredExpenses(q[4..]) == 96;
      assert q[3..][1..] == q[4..] && RequiredExpenses(q[3..]) == 276;
      assert q[2..][1..] == q[3..] && RequiredExpenses(q[2..]) == 1956;
      assert q[1..][1..] == q[2..] && RequiredExpenses(q[1..]) == 1966;
    }
  }
}
