# Inflation game: the simulation engine

A player picks an occupation (worker, business owner, farmer, banker,
government official) and advances month by month. Each month the required
resources (bread, milk, rent, electricity, water) must be paid from the
player's money, the role's energy drain is taken from an energy bar that
starts at 1000, and the role's income is collected. After every completed
month, and once when the board is mounted, an inflation event is drawn and
reprices the basket: each resource takes the first effect of the event
whose category filter is absent or equal to its category. Optional
resources (clothing, entertainment) may be bought at any time for an energy
boost capped at 1000. The game ends when the money does not cover the
required expenses or when the energy would fall to 0 or below.

The project models:

- `Types` (types.dfy): the record shapes of `src/types.ts` as datatypes.
- `GameConfig` (game_config.dfy): the role, resource and event tables of
  `src/data/gameConfig.ts` as constants, with lemmas on what they contain.
- `Pricing` (pricing.dfy): the repricing map of `drawInflationEvent` as pure
  functions. Multipliers are exact numbers of hundredths (120 is 1.2), so
  `Math.round(price * multiplier)` is `(price * percent + 50) / 100`, which
  rounds halves up exactly as JavaScript does. A category filter that is
  absent or the empty string matches every resource, as `!e.category` does.
- `Economy` (economy.dfy): the board state as a value, the month transition,
  the purchase and the mount-time draw as functions, the state invariant
  (history numbered 1, 2, ... with one record per completed month, money
  never negative, energy in (0, 1000], the price list still the configured
  basket at positive prices) and scenarios on the configured tables.
- `Board` (board.dfy): the `GameBoard` component as a class whose fields
  the handlers update in place, each handler proved to reach exactly the
  state the `Economy` transition gives and to keep the invariant.

The random draw `Math.random` is replaced by an index into the event table
(or, in `Economy`, by the drawn event itself). The chosen role is a
constructor parameter.

The first bill is computed from prices that the mount-time draw has
already repriced (src/components/GameBoard.tsx:117-119). Before any event,
the required resources cost 10 + 8 + 1000 + 150 + 80 = 1248
(src/data/gameConfig.ts:42-46).

## Model

| member | source | states |
|---|---|---|
| GameConfig.Roles | src/data/gameConfig.ts:3-39 | the `ROLES` table; its figures are stated by GameConfig.RolesArePositive |
| GameConfig.RolesArePositive | src/data/gameConfig.ts:3-39 | every role has positive monthly income, starting money and energy drain |
| GameConfig.ResourcesWellFormed | src/data/gameConfig.ts:41-49 | seven resources, pairwise distinct ids, positive base prices |
| GameConfig.BoostsOnlyOnOptionals | src/data/gameConfig.ts:41-49 | an energy boost is present exactly on the non-required resources, positive, 150 on clothing and 200 on entertainment |
| GameConfig.EffectCategoriesAreKnown | src/data/gameConfig.ts:51-80 | every effect's category filter names one of the four resource categories |
| Economy.ConfiguredEventsAreInflationary | src/data/gameConfig.ts:51-80 | every configured multiplier is above 1, so each configured event is inflationary |
| Economy.ConfiguredEventsAreUnambiguous | src/data/gameConfig.ts:55-79 | no configured event has two effects matching the same category, so the first-match rule never breaks a tie on this data |
| Pricing.Unpriced | src/components/GameBoard.tsx:48 | the initial price list holds the resources in order, with no previous price and no percentage yet |
| Pricing.Matches | src/components/GameBoard.tsx:63 | the `find` predicate: an absent or empty filter, or the resource's own category name; used by Pricing.FindEffect and Pricing.IsFirstMatch, whose lemmas carry its properties |
| Pricing.FindEffect | src/components/GameBoard.tsx:63 | a found effect is one of the event's effects and matches the category; nothing is found only when no effect matches |
| Pricing.FindEffectIsFirst | src/components/GameBoard.tsx:63 | when effect k is the first match, `find` returns effect k whatever matches later |
| Pricing.RoundedPercent | src/components/GameBoard.tsx:65 | `Math.round(price * multiplier)` in hundredths; Pricing.RoundedPercentIsNearest states it is round-half-up |
| Pricing.RoundedPercentIsNearest | src/components/GameBoard.tsx:65 | the rounded price is the unique integer nearest to price times multiplier, halves rounding up |
| Pricing.Reprice | src/components/GameBoard.tsx:62-73 | repricing one resource changes nothing but its price, records the pre-call price as previous and sets a percentage |
| Pricing.ApplyEvent | src/components/GameBoard.tsx:61-74 | the `map` over the price list; its properties are carried by Pricing.ApplyEventKeepsGoods, Pricing.ApplyEventUsesFirstMatch, Pricing.ApplyEventWithoutMatch, Pricing.PercentageChangeExplainsPrice and Pricing.ApplyEventNeverLowers |
| Pricing.ApplyEventKeepsGoods | src/components/GameBoard.tsx:61-74 | repricing keeps length and order, leaves id, name, isRequired, category and energyBoost alone, and sets previousPrice to the pre-call price |
| Pricing.ApplyEventUsesFirstMatch | src/components/GameBoard.tsx:63-66 | with a first matching effect, the new price is the old one times its multiplier rounded half up, and the percentage is the multiplier minus 100 |
| Pricing.ApplyEventWithoutMatch | src/components/GameBoard.tsx:63-66 | with no matching effect the price is unchanged and the percentage is 0 |
| Pricing.PercentageChangeExplainsPrice | src/components/GameBoard.tsx:64-72 | applying the recorded percentage to the recorded previous price gives the current price exactly |
| Pricing.ApplyEventNeverLowers | src/components/GameBoard.tsx:65 | an event with no multiplier below 1 never lowers a non-negative price |
| Economy.RequiredExpenses | src/components/GameBoard.tsx:79-81 | the filter/reduce sum of required prices; Economy.RequiredExpensesOfResources and Economy.RequiredExpensesNeverFall carry its properties |
| Economy.RequiredExpensesOfResources | src/data/gameConfig.ts:42-46 | before any event the required resources cost 1248 |
| Economy.RequiredExpensesNeverFall | src/components/GameBoard.tsx:61-81 | an event with no multiplier below 1 never lowers the monthly bill |
| Economy.DrawEvent | src/components/GameBoard.tsx:57-76 | records the drawn event and reprices with Pricing.ApplyEvent; Economy.DrawEventKeepsCatalogue states that the basket survives |
| Economy.Initial | src/components/GameBoard.tsx:46-55 | the hook initial values followed by the mount-time draw; Economy.InitialIsValid carries its properties |
| Economy.InitialIsValid | src/components/GameBoard.tsx:117-119 | after mounting the state satisfies the invariant, month 1, empty history, prices already repriced by the first draw |
| Economy.NextMonth | src/components/GameBoard.tsx:78-106 | `nextMonth` on values; its properties are carried by Economy.NextMonthFailsIff, Economy.NextMonthFailureIsAtomic, Economy.NextMonthAtExactFunds, Economy.NextMonthAtZeroEnergy, Economy.NextMonthCommits and Economy.NextMonthKeepsValid |
| Economy.NextMonthFailsIff | src/components/GameBoard.tsx:83-95 | the month ends the game if and only if money is below the bill or energy minus drain is at most 0 |
| Economy.NextMonthFailureIsAtomic | src/components/GameBoard.tsx:83-95 | a failing month leaves money, energy, month, history, prices and event unchanged; a short purse is reported before low energy |
| Economy.NextMonthAtExactFunds | src/components/GameBoard.tsx:83 | money exactly equal to the bill does not end the game and leaves exactly the income |
| Economy.NextMonthAtZeroEnergy | src/components/GameBoard.tsx:90-95 | energy that would reach exactly 0 ends the game as energy depletion |
| Economy.NextMonthCommits | src/components/GameBoard.tsx:97-105 | a successful month drains energy, pays the bill from the pre-event prices, adds income, increments the month, appends one record with the old month, then reprices |
| Economy.NextMonthKeepsValid | src/components/GameBoard.tsx:78-106 | the month transition keeps the invariant (numbered history, money at least 0, energy in (0, 1000], basket intact) |
| Economy.Purchase | src/components/GameBoard.tsx:108-115 | `handleOptionalPurchase` on values; Economy.PurchaseEffect and Economy.PurchaseKeepsValid carry its properties |
| Economy.PurchaseEffect | src/components/GameBoard.tsx:108-115 | a purchase never touches month, history, prices or game over; a no-op when disabled or short of money; otherwise pays the price exactly and adds the boost up to 1000 |
| Economy.PurchaseKeepsValid | src/components/GameBoard.tsx:108-115 | buying an offered resource keeps the invariant, energy within (0, 1000] |
| Economy.DrawEventKeepsCatalogue | src/components/GameBoard.tsx:57-76 | an inflationary draw keeps the configured basket, in order, at positive prices |
| Economy.RunKeepsValid | src/components/GameBoard.tsx:78-106 | any sequence of months keeps the invariant |
| Economy.RunDrainsEnergy | src/components/GameBoard.tsx:90-99 | without purchases each completed month costs one drain of energy, adds one record and one month, energy stays positive, and play stops early only at game over |
| Economy.MonthsBoundedByEnergy | src/components/GameBoard.tsx:90-95 | from a fresh game without purchases, completed months times drain stay below 1000 |
| Economy.WorkerLastsAtMostNineMonths | src/components/GameBoard.tsx:90-95 | the worker completes at most nine months without purchases; the tenth month ends the game |
| Economy.WorkerFirstMonth | src/components/GameBoard.tsx:78-106 | worker, housing bubble at mount, oil crisis after month 1: bill 1648, money 6352, energy 900, month 2, one record, next bill 1978 |
| Board.GameBoard.constructor | src/components/GameBoard.tsx:46-55 | the initial hook values followed by the mount-time draw, giving a valid state |
| Board.GameBoard.DrawInflationEvent | src/components/GameBoard.tsx:57-76 | records the drawn event and reprices the list with it |
| Board.GameBoard.NextMonth | src/components/GameBoard.tsx:78-106 | reaches the state of Economy.NextMonth; game over exactly on short funds or energy, leaving the rest unchanged; keeps the invariant |
| Board.GameBoard.HandleOptionalPurchase | src/components/GameBoard.tsx:108-115 | reaches the state of Economy.Purchase; month, history, prices and game over unchanged; keeps the invariant |
| Board.GameBoard.ToggleOptionals | src/components/GameBoard.tsx:185 | flips the optionals switch and nothing else |

## Left out

- Rendering: the price display, the layout, the reversed history listing and number formatting are presentation.
- `Math.random`: replaced by an index into the event table (a parameter); nothing probabilistic is claimed.
- Floating point: multipliers are exact hundredths and rounding is exact integer round-half-up; binary floating-point artefacts of `price * multiplier` are not modelled.
- React state batching, stale closures and functional updaters: each handler is one atomic sequential step.
- `window.location.reload` on "Play Again": browser I/O; game over is a terminal flag, and the handlers require it to be unset because the board shows only the game-over screen once it is set.
- `selectedOptionals` state: declared by the component but never read or written by any handler.
- The role-selection screen and the application shell: the chosen role is a constructor parameter.
- Board.GameBoard.HandleOptionalPurchase: requires the resource to be an entry of the current price list, as the board only offers those; any other argument is not modelled.
