# Pharmacy daily aging, modelled and proved in Dafny

The system ages a pharmacy inventory by one day at a time. Each drug has a
`name`, a day count to expiration `expiresIn` (which may go negative) and a
`benefit`. The name selects one of five update strategies: the default one,
Herbal Tea, Magic Pill, Fervex or Dafalgan. The pharmacy's daily pass,
`updateBenefitValue`, runs the selected strategy once on every drug in array
order. It mutates each drug in place and returns the same array.

The project has three modules:

- `Aging` (aging.dfy) holds the rules as values. `Item` is a drug's fields and
  `Category` is the five strategies. `Classify` is the name switch. There is
  one closed-form rule function per strategy, `Next` dispatches on the
  category, `AgeAll` ages a whole inventory and `Days`/`AdvanceDays` give the
  state after any number of days. The lemmas prove the properties that span
  several days.
- `Inventory` (inventory.dfy) is the imperative model. `Drug` is a class with
  mutable fields. Each strategy is a method that changes the drug step by step,
  exactly as the source does: conditional change, count down, re-check, clamp.
  Each method is proved to leave the drug as the closed-form rule says.
  `Pharmacy.UpdateBenefitValue` is the daily loop over an `array<Drug>`. Its
  invariant says that drugs before the loop index have been updated once and
  drugs from the index on are untouched.
- `Scenarios` (scenarios.dfy) restates the repository's test cases as verified
  methods over the imperative model: one fresh drug, one pharmacy, one daily
  pass. Each method's ensures clause holds the expected drugs.

The arithmetic stays as the code writes it. Each strategy clamps one side
only. The decreasing ones, default and Dafalgan, floor the benefit at 0
(pharmacy.js:50, :140). The increasing ones, Herbal Tea and Fervex, cap it at
50 (pharmacy.js:73, :117). Magic Pill does not clamp at all. As a result, the
full range 0..50 holds only for a drug that starts inside it, and the model
states that conditional form (`Next`, `DaysKeepBounds`).

Two of the multi-day properties need a condition on the start:

- A Herbal Tea that starts above 50 is cut to 50 on its first day, so its
  "non-decreasing" property is stated for a start of at most 50.
- A negative benefit under the default or Dafalgan strategy is raised to 0 on
  its first day, so their "non-increasing" property is stated for a
  non-negative start.

## Model

| member | source | states |
|---|---|---|
| `Inventory.Drug.constructor` | pharmacy.js:12-18 | a new drug holds exactly the given name, expiresIn and benefit |
| `Aging.Classify` | pharmacy.js:172-185 | the four special strategies are chosen exactly when the name equals "Herbal Tea", "Magic Pill", "Fervex" or "Dafalgan" (case-sensitive, both directions); every other name gets the default |
| `Aging.DefaultNext` | pharmacy.js:42-51 | the name is kept and expiresIn drops by 1; before expiration a positive benefit drops by 1; once the day's count goes negative, a benefit of at least 2 drops by 2; a benefit of at most 1 before expiration, or at most 2 after it, ends at 0; the result is never negative and never above a non-negative start |
| `Aging.HerbalTeaNext` | pharmacy.js:65-74 | the name is kept and expiresIn drops by 1; the benefit rises by 1 before expiration and by 2 after it while there is room; a start of at least 49 before expiration, or at least 48 after it, ends at exactly 50; never above 50, and never below a start of at most 50 |
| `Aging.FervexNext` | pharmacy.js:104-118 | the name is kept and expiresIn drops by 1; starting the day at 0 or below gives a benefit of 0; otherwise the benefit rises by 3 (1..5 days left), 2 (6..10) or 1 (more than 10), judged on the count before the decrement; it is capped at exactly 50 when the rise would reach it |
| `Aging.DafalganNext` | pharmacy.js:132-141 | the name is kept and expiresIn drops by 1; a benefit of at least 2 drops by 2 before expiration, and one of at least 4 drops by 4 after it; a benefit of at most 2 before expiration, or at most 4 after it, ends at 0; never negative, never above a non-negative start |
| `Aging.Next` | pharmacy.js:32-142 | no strategy changes the name; Magic Pill changes nothing; every other strategy lowers expiresIn by exactly 1; a benefit in 0..50 stays in 0..50 under every strategy |
| `Aging.AgeAll` | pharmacy.js:192-195 | the pass keeps the inventory's length, and item i after it is item i aged once by its own strategy |
| `Aging.DaysKeepName` | pharmacy.js:42-141 | after any number of days a drug's name, and so its strategy, is unchanged |
| `Aging.DaysExpiresIn` | pharmacy.js:42-141 | after n days expiresIn is n lower for every strategy but Magic Pill, for which it is unchanged |
| `Aging.DaysKeepBounds` | pharmacy.js:42-141 | a benefit starting in 0..50 is in 0..50 after any number of days, for every strategy |
| `Aging.MagicPillFrozen` | pharmacy.js:87-91 | a Magic Pill is identical after any number of days |
| `Aging.DecayNonIncreasing` | pharmacy.js:32-142 | under the default and Dafalgan strategies a non-negative benefit never rises from one day to any later day and stays non-negative |
| `Aging.HerbalTeaNonDecreasing` | pharmacy.js:64-75 | under Herbal Tea a benefit of at most 50 never falls from one day to any later day and stays at most 50 |
| `Aging.FervexZeroAfterExpiry` | pharmacy.js:104-118 | a Fervex has a benefit of 0 at the end of every day that began with expiresIn at or below 0 |
| `Aging.AdvanceDaysLength` | pharmacy.js:192-195 | any number of daily passes keeps the inventory's length |
| `Aging.AdvanceDaysPointwise` | pharmacy.js:192-195 | repeated daily passes age each item independently of the others |
| `Aging.InventoryKeepsBounds` | pharmacy.js:192-195 | if every benefit in the inventory starts in 0..50, every benefit is in 0..50 after any number of daily passes |
| `Aging.InventoryMagicPillFrozen` | pharmacy.js:192-195 | a Magic Pill in the inventory is unchanged after any number of daily passes |
| `Inventory.UpdateDefault` | pharmacy.js:42-51 | the step-by-step default update leaves the drug as `DefaultNext` of its old fields |
| `Inventory.UpdateHerbalTea` | pharmacy.js:65-74 | the step-by-step Herbal Tea update leaves the drug as `HerbalTeaNext` of its old fields |
| `Inventory.UpdateMagicPill` | pharmacy.js:88-90 | the Magic Pill update leaves all three fields as they were |
| `Inventory.UpdateFervex` | pharmacy.js:104-118 | the step-by-step Fervex update leaves the drug as `FervexNext` of its old fields |
| `Inventory.UpdateDafalgan` | pharmacy.js:132-141 | the step-by-step Dafalgan update leaves the drug as `DafalganNext` of its old fields |
| `Inventory.ApplyStrategy` | pharmacy.js:172-185 | running the update of the chosen strategy leaves the drug as `Next` of that strategy and its old fields |
| `Inventory.Pharmacy.constructor` | pharmacy.js:162-164 | the pharmacy holds the given drug array |
| `Inventory.Pharmacy.UpdateBenefitValue` | pharmacy.js:192-195 | the same array is returned with the same drugs in it; each drug holds its old fields aged once by the strategy of its name; the whole inventory equals `AgeAll` of the old one |
| `Scenarios.OneDay` | pharmacy.test.js:6-11 | one drug in a new pharmacy, after one daily pass, is that drug aged once |
| `Scenarios.NormalDrugCases` | pharmacy.test.js:4-40 | ("test",2,3), (10,20), (0,20), (10,0) become (1,2), (9,19), (-1,18), (9,0) |
| `Scenarios.HerbalTeaCases` | pharmacy.test.js:42-69 | Herbal Tea (10,20), (0,20), (10,50) become (9,21), (-1,22), (9,50) |
| `Scenarios.MagicPillCases` | pharmacy.test.js:71-80 | Magic Pill (10,40) stays (10,40) |
| `Scenarios.FervexCases` | pharmacy.test.js:82-127 | Fervex (11,20), (10,20), (5,20), (0,20), (5,48) become (10,21), (9,22), (4,23), (-1,0), (4,50) |
| `Scenarios.DafalganCases` | pharmacy.test.js:129-156 | Dafalgan (5,20), (0,20), (5,1) become (4,18), (-1,16), (4,0) |
| `Scenarios.NamesAreCaseSensitive` | pharmacy.js:173-183 | "herbal tea" and "Fervex " (a trailing space) fall to the default strategy |

## Left out

- Strategy objects and their inheritance are not modelled. `getStrategy` only picks a class by name, which is `Classify`. The update it then runs is `ApplyStrategy`, a `match` on the category.
- `Inventory.Pharmacy.UpdateBenefitValue` requires that no drug object appears twice in the array. In JavaScript such a drug would be aged twice in one pass. That aliasing outcome is not modelled.
- JavaScript numbers are IEEE doubles. The code only adds and subtracts small integers and takes a min or max, so the model uses unbounded `int`. Non-integer, NaN and non-numeric field values are not modelled.
- The constructor's default argument (an empty array when no array is given) is not modelled. A caller passes an empty array explicitly.
- `pharmacy.test.js` is a test harness. Its cases appear only as the `Scenarios` methods.
