/**
 * The repository's test cases, through the imperative model: each case puts
 * one fresh drug in a pharmacy, runs one daily pass and reads the drug back.
 * Each group returns the drugs it read, which its ensures clause fixes to the
 * items the tests expect.
 */
module Scenarios {
  import opened Aging
  import opened Inventory

  /** One test case: a pharmacy holding one new drug, aged by one daily pass. */
  method OneDay(name: string, expiresIn: int, benefit: int) returns (after: Item)
    ensures after == Age(Item(name, expiresIn, benefit))
  {
    var drug := new Drug(name, expiresIn, benefit);
    var drugs := new Drug[1][drug];
    var pharmacy := new Pharmacy(drugs);
    var returned := pharmacy.UpdateBenefitValue();
    after := returned[0].Value();
  }

  method NormalDrugCases() returns (after: seq<Item>)
    ensures after == [Item("test", 1, 2), Item("test", 9, 19), Item("test", -1, 18), Item("test", 9, 0)]
  {
    var a := OneDay("test", 2, 3);
    var b := OneDay("test", 10, 20);
    var c := OneDay("test", 0, 20);
    var d := OneDay("test", 10, 0);
    after := [a, b, c, d];
  }

  method HerbalTeaCases() returns (after: seq<Item>)
    ensures after == [Item("Herbal Tea", 9, 21), Item("Herbal Tea", -1, 22), Item("Herbal Tea", 9, 50)]
  {
    var a := OneDay("Herbal Tea", 10, 20);
    var b := OneDay("Herbal Tea", 0, 20);
    var c := OneDay("Herbal Tea", 10, 50);
    after := [a, b, c];
  }

  method MagicPillCases() returns (after: seq<Item>)
    ensures after == [Item("Magic Pill", 10, 40)]
  {
    var a := OneDay("Magic Pill", 10, 40);
    after := [a];
  }

  method FervexCases() returns (after: seq<Item>)
    ensures after == [Item("Fervex", 10, 21), Item("Fervex", 9, 22), Item("Fervex", 4, 23),
                      Item("Fervex", -1, 0), Item("Fervex", 4, 50)]
  {
    var a := OneDay("Fervex", 11, 20);
    var b := OneDay("Fervex", 10, 20);
    var c := OneDay("Fervex", 5, 20);
    var d := OneDay("Fervex", 0, 20);
    var e := OneDay("Fervex", 5, 48);
    after := [a, b, c, d, e];
  }

  method DafalganCases() returns (after: seq<Item>)
    ensures after == [Item("Dafalgan", 4, 18), Item("Dafalgan", -1, 16), Item("Dafalgan", 4, 0)]
  {
    var a := OneDay("Dafalgan", 5, 20);
    var b := OneDay("Dafalgan", 0, 20);
    var c := OneDay("Dafalgan", 5, 1);
    after := [a, b, c];
  }

  /** Names match exactly: a lower-case or padded product name gets the default rule. */
  lemma NamesAreCaseSensitive()
    ensures Classify("herbal tea") == Default && Classify("Fervex ") == Default
    ensures Age(Item("herbal tea", 10, 20)) == Item("herbal tea", 9, 19)
  {
  }
}
