/**
 * The shapes of the game's records, as declared in src/types.ts.
 * Amounts of money and energy are unbounded integers; the source keeps them
 * in JavaScript numbers but only ever stores whole values in them.
 */
module Types {
  import opened Wrappers

  /** The five occupations a player can choose (the `Role` string union). */
  datatype Role = Worker | BusinessOwner | Farmer | Banker | Government

  datatype RoleConfig = RoleConfig(
    title: string,
    monthlyIncome: int,
    startingMoney: int,
    description: string,
    energyDrain: int)

  /** The four resource categories of `Resource.category`. */
  datatype Category = Food | Housing | Utilities | Goods

  /** The string literal each category stands for in the source. */
  function CategoryName(c: Category): string
  {
    match c
    case Food => "food"
    case Housing => "housing"
    case Utilities => "utilities"
    case Goods => "goods"
  }

  /** The set of strings that name a category. */
  const CategoryNames: set<string> :=
    {CategoryName(Food), CategoryName(Housing), CategoryName(Utilities), CategoryName(Goods)}

  datatype Resource = Resource(
    id: string,
    name: string,
    basePrice: int,
    isRequired: bool,
    category: Category,
    energyBoost: Option<int>)

  /**
   * One effect of an inflation event. The category filter is an arbitrary
   * string, as in the source; the multiplier is kept as an exact number of
   * hundredths, so 120 stands for a multiplier of 1.2.
   */
  datatype Effect = Effect(category: Option<string>, multiplierPercent: int)

  datatype InflationEvent = InflationEvent(title: string, description: string, effects: seq<Effect>)

  datatype MonthlyRecord = MonthlyRecord(month: int, costs: int, income: int)
}
