/**
 * The pharmacy as objects updated in place: a `Drug` whose fields each
 * strategy changes step by step, and a `Pharmacy` whose daily pass runs the
 * strategy its name selects on every drug of its array.  Each update is proved
 * to leave the drug as the closed-form rule of module Aging says.
 */
module Inventory {
  import opened Aging

  class Drug {
    var name: string
    var expiresIn: int
    var benefit: int

    constructor(name: string, expiresIn: int, benefit: int)
      ensures Value() == Item(name, expiresIn, benefit)
    {
      this.name := name;
      this.expiresIn := expiresIn;
      this.benefit := benefit;
    }

    /** The drug's fields as a value. */
    function Value(): Item
      reads this
    {
      Item(name, expiresIn, benefit)
    }
  }

  /** The default strategy: decrement, count down, decrement again once expired, floor at zero. */
  method UpdateDefault(drug: Drug)
    modifies drug
    ensures drug.Value() == DefaultNext(old(drug.Value()))
  {
    if drug.benefit > 0 {
      drug.benefit := drug.benefit - 1;
    }
    drug.expiresIn := drug.expiresIn - 1;
    if drug.expiresIn < 0 && drug.benefit > 0 {
      drug.benefit := drug.benefit - 1;
    }
    drug.benefit := Max(drug.benefit, 0);
  }

  /** The Herbal Tea strategy: increment, count down, increment again once expired, cap at 50. */
  method UpdateHerbalTea(drug: Drug)
    modifies drug
    ensures drug.Value() == HerbalTeaNext(old(drug.Value()))
  {
    if drug.benefit < 50 {
      drug.benefit := drug.benefit + 1;
    }
    drug.expiresIn := drug.expiresIn - 1;
    if drug.expiresIn < 0 && drug.benefit < 50 {
      drug.benefit := drug.benefit + 1;
    }
    drug.benefit := Min(drug.benefit, 50);
  }

  /** The Magic Pill strategy changes nothing. */
  method UpdateMagicPill(drug: Drug)
    ensures drug.Value() == old(drug.Value())
  {
  }

  /** The Fervex strategy: a tiered increase before expiration, zero after, then the cap. */
  method UpdateFervex(drug: Drug)
    modifies drug
    ensures drug.Value() == FervexNext(old(drug.Value()))
  {
    if drug.expiresIn > 0 {
      if drug.expiresIn <= 5 {
        drug.benefit := drug.benefit + 3;
      } else if drug.expiresIn <= 10 {
        drug.benefit := drug.benefit + 2;
      } else {
        drug.benefit := drug.benefit + 1;
      }
    } else {
      drug.benefit := 0;
    }
    drug.expiresIn := drug.expiresIn - 1;
    drug.benefit := Min(drug.benefit, 50);
  }

  /** The Dafalgan strategy: the default steps with each decrement doubled. */
  method UpdateDafalgan(drug: Drug)
    modifies drug
    ensures drug.Value() == DafalganNext(old(drug.Value()))
  {
    if drug.benefit > 0 {
      drug.benefit := drug.benefit - 2;
    }
    drug.expiresIn := drug.expiresIn - 1;
    if drug.expiresIn < 0 && drug.benefit > 0 {
      drug.benefit := drug.benefit - 2;
    }
    drug.benefit := Max(drug.benefit, 0);
  }

  /** Runs the update of strategy `c` on `drug`. */
  method ApplyStrategy(c: Category, drug: Drug)
    modifies drug
    ensures drug.Value() == Next(c, old(drug.Value()))
  {
    match c
    case Default => UpdateDefault(drug);
    case HerbalTea => UpdateHerbalTea(drug);
    case MagicPill => UpdateMagicPill(drug);
    case Fervex => UpdateFervex(drug);
    case Dafalgan => UpdateDafalgan(drug);
  }

  class Pharmacy {
    var drugs: array<Drug>

    constructor(drugs: array<Drug>)
      ensures this.drugs == drugs
    {
      this.drugs := drugs;
    }

    /** No drug object sits at two positions of the array. */
    ghost predicate Distinct()
      reads this, drugs
    {
      forall i, j :: 0 <= i < j < drugs.Length ==> drugs[i] != drugs[j]
    }

    /** The drug objects the daily pass may change. */
    ghost function Stock(): set<Drug>
      reads this, drugs
    {
      set i | 0 <= i < drugs.Length :: drugs[i]
    }

    /** The inventory as values, in array order. */
    ghost function Contents(): seq<Item>
      reads this, drugs, Stock()
    {
      seq(drugs.Length, i requires 0 <= i < drugs.Length reads this, drugs, Stock() => drugs[i].Value())
    }

    /**
     * One simulated day: every drug, in array order, gets exactly one update by
     * the strategy its name selects; the same array is returned.
     */
    method UpdateBenefitValue() returns (r: array<Drug>)
      requires Distinct()
      modifies Stock()
      ensures r == drugs && r[..] == old(drugs[..])
      ensures forall k :: 0 <= k < drugs.Length ==> drugs[k].Value() == Age(old(drugs[k].Value()))
      ensures Contents() == AgeAll(old(Contents()))
    {
      var i := 0;
      while i < drugs.Length
        invariant 0 <= i <= drugs.Length
        invariant forall k :: 0 <= k < i ==> drugs[k].Value() == Age(old(drugs[k].Value()))
        invariant forall k :: i <= k < drugs.Length ==> drugs[k].Value() == old(drugs[k].Value())
      {
        var drug := drugs[i];
        ApplyStrategy(Classify(drug.name), drug);
        i := i + 1;
      }
      r := drugs;
    }
  }
}
