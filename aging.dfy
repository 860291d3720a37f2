/**
 * The daily aging rules of the pharmacy inventory, as values.
 *
 * An item is a name, a day count to expiration (`expiresIn`, which may go
 * negative) and a `benefit`.  The name selects one of five categories; each
 * category has a rule giving the item's fields after one simulated day.  The
 * rules here are stated in closed form; the step-by-step updates of the
 * imperative model (module Inventory) are proved equal to them.
 */
module Aging {

  /** The largest benefit the increasing rules leave an item with. */
  const MaxBenefit: int := 50

  datatype Item = Item(name: string, expiresIn: int, benefit: int)

  /** The five update strategies; `Default` governs every other name. */
  datatype Category = Default | HerbalTea | MagicPill | Fervex | Dafalgan

  predicate InBounds(benefit: int) {
    0 <= benefit <= MaxBenefit
  }

  function Max(a: int, b: int): int { if a < b then b else a }

  function Min(a: int, b: int): int { if a < b then a else b }

  /**
   * The strategy for a name: exact, case-sensitive equality with one of the
   * four special product names, anything else falling back to the default.
   */
  function Classify(name: string): (c: Category)
    ensures c == HerbalTea <==> name == "Herbal Tea"
    ensures c == MagicPill <==> name == "Magic Pill"
    ensures c == Fervex <==> name == "Fervex"
    ensures c == Dafalgan <==> name == "Dafalgan"
  {
    if name == "Herbal Tea" then HerbalTea
    else if name == "Magic Pill" then MagicPill
    else if name == "Fervex" then Fervex
    else if name == "Dafalgan" then Dafalgan
    else Default
  }

  /**
   * How many unit steps the benefit moves by on a day that starts with
   * `expiresIn` days left: two once that day's decrement takes the count
   * below zero, one before.
   */
  function DayRate(expiresIn: int): int {
    if expiresIn - 1 < 0 then 2 else 1
  }

  /** The default rule: decay by one a day, by two after expiration, never below zero. */
  function DefaultNext(d: Item): (r: Item)
    ensures r.name == d.name && r.expiresIn == d.expiresIn - 1
    ensures r.benefit >= 0
    ensures d.expiresIn > 0 && d.benefit >= 1 ==> r.benefit == d.benefit - 1
    ensures d.expiresIn <= 0 && d.benefit >= 2 ==> r.benefit == d.benefit - 2
    ensures (d.expiresIn > 0 && d.benefit <= 1) || (d.expiresIn <= 0 && d.benefit <= 2) ==> r.benefit == 0
    ensures d.benefit >= 0 ==> r.benefit <= d.benefit
  {
    Item(d.name, d.expiresIn - 1, Max(0, d.benefit - DayRate(d.expiresIn)))
  }

  /** Herbal Tea: the mirror of the default rule, growing and capped at 50. */
  function HerbalTeaNext(d: Item): (r: Item)
    ensures r.name == d.name && r.expiresIn == d.expiresIn - 1
    ensures r.benefit <= MaxBenefit
    ensures d.expiresIn > 0 && d.benefit <= MaxBenefit - 1 ==> r.benefit == d.benefit + 1
    ensures d.expiresIn <= 0 && d.benefit <= MaxBenefit - 2 ==> r.benefit == d.benefit + 2
    ensures (d.expiresIn > 0 && d.benefit >= MaxBenefit - 1) || (d.expiresIn <= 0 && d.benefit >= MaxBenefit - 2)
      ==> r.benefit == MaxBenefit
    ensures d.benefit <= MaxBenefit ==> r.benefit >= d.benefit
  {
    Item(d.name, d.expiresIn - 1, Min(MaxBenefit, d.benefit + DayRate(d.expiresIn)))
  }

  /**
   * The Fervex increase on a day that starts with `expiresIn > 0` days left:
   * three within five days of expiration, two within ten, one otherwise.
   */
  function FervexIncrease(expiresIn: int): int {
    if expiresIn <= 5 then 3 else if expiresIn <= 10 then 2 else 1
  }

  /**
   * Fervex: the tier is chosen by the day count before the day's decrement;
   * an item that starts the day with no days left loses all its benefit.
   */
  function FervexNext(d: Item): (r: Item)
    ensures r.name == d.name && r.expiresIn == d.expiresIn - 1
    ensures r.benefit <= MaxBenefit
    ensures d.expiresIn <= 0 ==> r.benefit == 0
    ensures 0 < d.expiresIn <= 5 && d.benefit <= MaxBenefit - 3 ==> r.benefit == d.benefit + 3
    ensures 5 < d.expiresIn <= 10 && d.benefit <= MaxBenefit - 2 ==> r.benefit == d.benefit + 2
    ensures 10 < d.expiresIn && d.benefit <= MaxBenefit - 1 ==> r.benefit == d.benefit + 1
    ensures 0 < d.expiresIn && d.benefit + FervexIncrease(d.expiresIn) >= MaxBenefit ==> r.benefit == MaxBenefit
  {
    Item(d.name, d.expiresIn - 1,
         if d.expiresIn > 0 then Min(d.benefit + FervexIncrease(d.expiresIn), MaxBenefit) else 0)
  }

  /** Dafalgan: the default rule with every decrement doubled. */
  function DafalganNext(d: Item): (r: Item)
    ensures r.name == d.name && r.expiresIn == d.expiresIn - 1
    ensures r.benefit >= 0
    ensures d.expiresIn > 0 && d.benefit >= 2 ==> r.benefit == d.benefit - 2
    ensures d.expiresIn <= 0 && d.benefit >= 4 ==> r.benefit == d.benefit - 4
    ensures (d.expiresIn > 0 && d.benefit <= 2) || (d.expiresIn <= 0 && d.benefit <= 4) ==> r.benefit == 0
    ensures d.benefit >= 0 ==> r.benefit <= d.benefit
  {
    Item(d.name, d.expiresIn - 1, Max(0, d.benefit - 2 * DayRate(d.expiresIn)))
  }

  /** One day under the rule of category `c`. */
  function Next(c: Category, d: Item): (r: Item)
    ensures r.name == d.name
    ensures c == MagicPill ==> r == d
    ensures c != MagicPill ==> r.expiresIn == d.expiresIn - 1
    ensures InBounds(d.benefit) ==> InBounds(r.benefit)
  {
    match c
    case Default => DefaultNext(d)
    case HerbalTea => HerbalTeaNext(d)
    case MagicPill => d
    case Fervex => FervexNext(d)
    case Dafalgan => DafalganNext(d)
  }

  /** One day for one item, under the strategy its name selects. */
  function Age(d: Item): Item {
    Next(Classify(d.name), d)
  }

  /** One day for the whole inventory, item by item in order. */
  function AgeAll(items: seq<Item>): (r: seq<Item>)
    ensures |r| == |items|
    ensures forall i :: 0 <= i < |items| ==> r[i] == Age(items[i])
  {
    if items == [] then [] else [Age(items[0])] + AgeAll(items[1..])
  }

  /** An item after `n` days. */
  function Days(d: Item, n: nat): Item {
    if n == 0 then d else Age(Days(d, n - 1))
  }

  /** The inventory after `n` days. */
  function AdvanceDays(items: seq<Item>, n: nat): seq<Item> {
    if n == 0 then items else AgeAll(AdvanceDays(items, n - 1))
  }

  /** No number of days changes an item's name, so its category is fixed for life. */
  lemma {:induction false} DaysKeepName(d: Item, n: nat)
    ensures Days(d, n).name == d.name
    ensures Classify(Days(d, n).name) == Classify(d.name)
  {
    if n > 0 {
      DaysKeepName(d, n - 1);
    }
  }

  /** Every category but Magic Pill counts one day down per day; Magic Pill never does. */
  lemma {:induction false} DaysExpiresIn(d: Item, n: nat)
    ensures Days(d, n).expiresIn == if Classify(d.name) == MagicPill then d.expiresIn else d.expiresIn - n
  {
    if n > 0 {
      DaysExpiresIn(d, n - 1);
      DaysKeepName(d, n - 1);
    }
  }

  /** A benefit that starts within 0..50 stays within 0..50 for every category and every day. */
  lemma {:induction false} DaysKeepBounds(d: Item, n: nat)
    requires InBounds(d.benefit)
    ensures InBounds(Days(d, n).benefit)
  {
    if n > 0 {
      DaysKeepBounds(d, n - 1);
    }
  }

  /** A Magic Pill is unchanged after any number of days. */
  lemma {:induction false} MagicPillFrozen(d: Item, n: nat)
    requires Classify(d.name) == MagicPill
    ensures Days(d, n) == d
  {
    if n > 0 {
      MagicPillFrozen(d, n - 1);
    }
  }

  /** Under the default and Dafalgan rules a non-negative benefit never rises: later is never more. */
  lemma {:induction false} DecayNonIncreasing(d: Item, m: nat, n: nat)
    requires Classify(d.name) == Default || Classify(d.name) == Dafalgan
    requires d.benefit >= 0
    requires m <= n
    ensures Days(d, n).benefit <= Days(d, m).benefit
    ensures Days(d, n).benefit >= 0
  {
    if n > 0 {
      DaysKeepName(d, n - 1);
      if m < n {
        DecayNonIncreasing(d, m, n - 1);
      } else {
        DecayNonIncreasing(d, 0, n - 1);
      }
    }
  }

  /** Under the Herbal Tea rule a benefit of at most 50 never falls: later is never less. */
  lemma {:induction false} HerbalTeaNonDecreasing(d: Item, m: nat, n: nat)
    requires Classify(d.name) == HerbalTea
    requires d.benefit <= MaxBenefit
    requires m <= n
    ensures Days(d, m).benefit <= Days(d, n).benefit
    ensures Days(d, n).benefit <= MaxBenefit
  {
    if n > 0 {
      DaysKeepName(d, n - 1);
      if m < n {
        HerbalTeaNonDecreasing(d, m, n - 1);
      } else {
        HerbalTeaNonDecreasing(d, 0, n - 1);
      }
    }
  }

  /**
   * A Fervex that starts a day with no days left ends it with no benefit: after
   * `n >= 1` days, if day `n` began at or below zero, the benefit is zero.
   */
  lemma {:induction false} FervexZeroAfterExpiry(d: Item, n: nat)
    requires Classify(d.name) == Fervex
    requires 1 <= n && d.expiresIn - (n - 1) <= 0
    ensures Days(d, n).benefit == 0
  {
    DaysKeepName(d, n - 1);
    DaysExpiresIn(d, n - 1);
  }

  /** Daily passes neither add nor drop items. */
  lemma {:induction false} AdvanceDaysLength(items: seq<Item>, n: nat)
    ensures |AdvanceDays(items, n)| == |items|
  {
    if n > 0 {
      AdvanceDaysLength(items, n - 1);
    }
  }

  /** Items age independently: item `i` of the inventory after `n` days is item `i` aged `n` days. */
  lemma {:induction false} AdvanceDaysPointwise(items: seq<Item>, n: nat, i: nat)
    requires i < |items|
    ensures |AdvanceDays(items, n)| == |items|
    ensures AdvanceDays(items, n)[i] == Days(items[i], n)
  {
    if n > 0 {
      AdvanceDaysPointwise(items, n - 1, i);
    }
  }

  /** An inventory whose benefits all start within 0..50 keeps them there on every day. */
  lemma {:induction false} InventoryKeepsBounds(items: seq<Item>, n: nat)
    requires forall i :: 0 <= i < |items| ==> InBounds(items[i].benefit)
    ensures |AdvanceDays(items, n)| == |items|
    ensures forall i :: 0 <= i < |items| ==> InBounds(AdvanceDays(items, n)[i].benefit)
  {
    AdvanceDaysLength(items, n);
    forall i | 0 <= i < |items|
      ensures InBounds(AdvanceDays(items, n)[i].benefit)
    {
      AdvanceDaysPointwise(items, n, i);
      DaysKeepBounds(items[i], n);
    }
  }

  /** Every Magic Pill of an inventory is left exactly as it was, on every day. */
  lemma {:induction false} InventoryMagicPillFrozen(items: seq<Item>, n: nat, i: nat)
    requires i < |items| && Classify(items[i].name) == MagicPill
    ensures |AdvanceDays(items, n)| == |items|
    ensures AdvanceDays(items, n)[i] == items[i]
  {
    AdvanceDaysPointwise(items, n, i);
    MagicPillFrozen(items[i], n);
  }
}
