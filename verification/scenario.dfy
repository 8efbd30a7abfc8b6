/** Worked scenarios over the storefront's own catalog, each a lemma about fixed inputs. */
module Scenario {
  import opened Wrappers
  import opened Sequences
  import opened Text
  import opened Catalog
  import opened Cart

  /** The catalog gives every product its own id. */
  lemma ProductIdsUnique()
    ensures UniqueIds(Products)
    ensures |Products| == 8
  {
  }

  /** Adding id 1 twice to an empty cart: one line holding two units. */
  lemma AddOneTwice()
    ensures AddToCart(Products, [], 1) == Ok([CartLine(Products[0], 1)])
    ensures AddToCart(Products, [CartLine(Products[0], 1)], 1) == Ok([CartLine(Products[0], 2)])
  {
    var c1 := [CartLine(Products[0], 1)];
    assert FindLine(c1, 1) == Some(0);
    assert c1[0 := c1[0].(quantity := c1[0].quantity + 1)] == [CartLine(Products[0], 2)];
  }

  /** Id 3 names the third catalog entry, the headphones. */
  lemma FindThree()
    ensures FindById(Products, 3) == Some(Products[2])
  {
  }

  /** Then adding id 3 appends the headphones as a second line. */
  lemma AddThreeAfterOnes()
    ensures AddToCart(Products, [CartLine(Products[0], 2)], 3)
         == Ok([CartLine(Products[0], 2), CartLine(Products[2], 1)])
  {
    var c2 := [CartLine(Products[0], 2)];
    assert FindLine(c2, 3).None?;
    FindThree();
    assert c2 + [CartLine(Products[2], 1)] == [CartLine(Products[0], 2), CartLine(Products[2], 1)];
  }

  /** The cart after adding 1, 1, 3: three units and 2 x 999.99 + 299.99 charged at checkout. */
  lemma OneOneThreeTotals()
    ensures Count([CartLine(Products[0], 2), CartLine(Products[2], 1)]) == 3
    ensures Checkout([CartLine(Products[0], 2), CartLine(Products[2], 1)])
         == CheckoutOutcome([], Some(229997))
  {
    var c := [CartLine(Products[0], 2), CartLine(Products[2], 1)];
    assert c[1..] == [c[1]];
    assert c[1..][1..] == [];
    assert LineSum(c[1..][1..], LineQuantity) == 0 && LineSum(c[1..][1..], LineCost) == 0;
    assert LineSum(c[1..], LineQuantity) == 1 && LineSum(c[1..], LineCost) == 29999;
    assert LineSum(c, LineQuantity) == 3 && LineSum(c, LineCost) == 229997;
  }

  /** Lowering a line of two units by five removes it and empties the count. */
  lemma DropBelowZero()
    ensures UpdateQuantity([CartLine(Products[3], 2)], 4, -5) == []
    ensures Count(UpdateQuantity([CartLine(Products[3], 2)], 4, -5)) == 0
  {
  }

  /** Checking out an empty cart charges nothing and leaves the cart as it was. */
  lemma CheckoutEmpty()
    ensures Checkout([]) == CheckoutOutcome([], None)
  {
  }

  /** The "gaming" category shows the console and then the monitor. */
  lemma GamingCategory()
    ensures FilterByCategory(Products, "gaming") == [Products[3], Products[5]]
  {
  }

  /** "phones" does not contain "pro": its only 'p' is followed by 'h'. */
  lemma PhonesLacksPro()
    ensures !Contains("phones", "pro")
  {
    ContainsSecondMismatch("phones", "pro");
    assert "phones"[1..] == "hones";
    NotContainsWithoutFirstChar("hones", "pro");
  }

  /** "laptops" does not contain "pro": each 'p' is followed by something other than 'r'. */
  lemma LaptopsLacksPro()
    ensures !Contains("laptops", "pro")
  {
    assert 'p' !in "laptops"[..2];
    ContainsSkip("laptops", "pro", 2);
    assert "laptops"[2..] == "ptops";
    ContainsSecondMismatch("ptops", "pro");
    assert "ptops"[1..] == "tops";
    assert 'p' !in "tops"[..2];
    ContainsSkip("tops", "pro", 2);
    assert "tops"[2..] == "ps";
    ContainsSecondMismatch("ps", "pro");
    assert "ps"[1..] == "s";
    NotContainsWithoutFirstChar("s", "pro");
  }

  /** "noise-cancel headphones" does not contain "pro": its only 'p' starts "phones". */
  lemma HeadphonesLacksPro()
    ensures !Contains("noise-cancel headphones", "pro")
  {
    assert 'p' !in "noise-cancel headphones"[..17];
    assert "noise-cancel headphones"[17..] == "phones";
    PhonesLacksPro();
    ContainsSkip("noise-cancel headphones", "pro", 17);
  }

  // The lower-cased product names, one per lemma.

  lemma LowerName0()
    ensures ToLower(Products[0].name) == "galaxy pro max"
  {
  }

  lemma LowerName1()
    ensures ToLower(Products[1].name) == "ultrabook pro"
  {
  }

  lemma LowerName2()
    ensures ToLower(Products[2].name) == "noise-cancel headphones"
  {
  }

  lemma LowerName3()
    ensures ToLower(Products[3].name) == "gaming console x"
  {
  }

  lemma LowerName4()
    ensures ToLower(Products[4].name) == "smart watch elite"
  {
  }

  lemma LowerName5()
    ensures ToLower(Products[5].name) == "4k gaming monitor"
  {
  }

  lemma LowerName6()
    ensures ToLower(Products[6].name) == "wireless earbuds pro"
  {
  }

  lemma LowerName7()
    ensures ToLower(Products[7].name) == "macbook air m3"
  {
  }

  // Which catalog products match the lower-cased term "pro", one fact per lemma.

  lemma Product0MatchesPro()
    ensures MatchesTerm(Products[0], "pro")
  {
    LowerName0();
    assert OccursAt("galaxy pro max", "pro", 7);
    ContainsOccurs("galaxy pro max", "pro");
  }

  lemma Product1MatchesPro()
    ensures MatchesTerm(Products[1], "pro")
  {
    LowerName1();
    assert OccursAt("ultrabook pro", "pro", 10);
    ContainsOccurs("ultrabook pro", "pro");
  }

  lemma Product6MatchesPro()
    ensures MatchesTerm(Products[6], "pro")
  {
    LowerName6();
    assert OccursAt("wireless earbuds pro", "pro", 17);
    ContainsOccurs("wireless earbuds pro", "pro");
  }

  lemma Product2NameLacksPro()
    ensures !Contains(ToLower(Products[2].name), "pro")
  {
    LowerName2();
    HeadphonesLacksPro();
  }

  lemma Product2CategoryLacksPro()
    ensures !Contains(ToLower(Products[2].category), "pro")
  {
    assert Products[2].category == "audio";
    assert ToLower("audio") == "audio";
    NotContainsWithoutFirstChar("audio", "pro");
  }

  lemma Product3NameLacksPro()
    ensures !Contains(ToLower(Products[3].name), "pro")
  {
    LowerName3();
    NotContainsWithoutFirstChar("gaming console x", "pro");
  }

  lemma Product3CategoryLacksPro()
    ensures !Contains(ToLower(Products[3].category), "pro")
  {
    assert Products[3].category == "gaming";
    assert ToLower("gaming") == "gaming";
    NotContainsWithoutFirstChar("gaming", "pro");
  }

  lemma Product4NameLacksPro()
    ensures !Contains(ToLower(Products[4].name), "pro")
  {
    LowerName4();
    NotContainsWithoutFirstChar("smart watch elite", "pro");
  }

  lemma Product4CategoryLacksPro()
    ensures !Contains(ToLower(Products[4].category), "pro")
  {
    assert Products[4].category == "smartphones";
    assert ToLower("smartphones") == "smartphones";
    assert 'p' !in "smartphones"[..5];
    assert "smartphones"[5..] == "phones";
    PhonesLacksPro();
    ContainsSkip("smartphones", "pro", 5);
  }

  lemma Product5NameLacksPro()
    ensures !Contains(ToLower(Products[5].name), "pro")
  {
    LowerName5();
    NotContainsWithoutFirstChar("4k gaming monitor", "pro");
  }

  lemma Product5CategoryLacksPro()
    ensures !Contains(ToLower(Products[5].category), "pro")
  {
    assert Products[5].category == "gaming";
    assert ToLower("gaming") == "gaming";
    NotContainsWithoutFirstChar("gaming", "pro");
  }

  lemma Product7NameLacksPro()
    ensures !Contains(ToLower(Products[7].name), "pro")
  {
    LowerName7();
    NotContainsWithoutFirstChar("macbook air m3", "pro");
  }

  lemma Product7CategoryLacksPro()
    ensures !Contains(ToLower(Products[7].category), "pro")
  {
    assert Products[7].category == "laptops";
    assert ToLower("laptops") == "laptops";
    LaptopsLacksPro();
  }

  /** The search for "pro" keeps product 1. */
  lemma SearchProVerdict0()
    ensures MatchesSearch("pro")(Products[0])
  {
    Product0MatchesPro();
  }

  /** The search for "pro" keeps product 2. */
  lemma SearchProVerdict1()
    ensures MatchesSearch("pro")(Products[1])
  {
    Product1MatchesPro();
  }

  /** The search for "pro" drops product 3. */
  lemma SearchProVerdict2()
    ensures !MatchesSearch("pro")(Products[2])
  {
    Product2NameLacksPro();
    Product2CategoryLacksPro();
  }

  /** The search for "pro" drops product 4. */
  lemma SearchProVerdict3()
    ensures !MatchesSearch("pro")(Products[3])
  {
    Product3NameLacksPro();
    Product3CategoryLacksPro();
  }

  /** The search for "pro" drops product 5. */
  lemma SearchProVerdict4()
    ensures !MatchesSearch("pro")(Products[4])
  {
    Product4NameLacksPro();
    Product4CategoryLacksPro();
  }

  /** The search for "pro" drops product 6. */
  lemma SearchProVerdict5()
    ensures !MatchesSearch("pro")(Products[5])
  {
    Product5NameLacksPro();
    Product5CategoryLacksPro();
  }

  /** The search for "pro" keeps product 7. */
  lemma SearchProVerdict6()
    ensures MatchesSearch("pro")(Products[6])
  {
    Product6MatchesPro();
  }

  /** The search for "pro" drops product 8. */
  lemma SearchProVerdict7()
    ensures !MatchesSearch("pro")(Products[7])
  {
    Product7NameLacksPro();
    Product7CategoryLacksPro();
  }

  /** The products kept by the search for "pro" from position 6 on. */
  lemma SearchProFrom6()
    ensures Filter(Products[6..], MatchesSearch("pro")) == [Products[6]]
  {
    var keep := MatchesSearch("pro");
    assert Products[8..] == [];
    SearchProVerdict7();
    FilterStep(Products, keep, 7, []);
    SearchProVerdict6();
    FilterStep(Products, keep, 6, []);
  }

  /** The products kept by the search for "pro" from position 4 on. */
  lemma SearchProFrom4()
    ensures Filter(Products[4..], MatchesSearch("pro")) == [Products[6]]
  {
    var keep := MatchesSearch("pro");
    SearchProFrom6();
    SearchProVerdict5();
    FilterStep(Products, keep, 5, [Products[6]]);
    SearchProVerdict4();
    FilterStep(Products, keep, 4, [Products[6]]);
  }

  /** The products kept by the search for "pro" from position 2 on. */
  lemma SearchProFrom2()
    ensures Filter(Products[2..], MatchesSearch("pro")) == [Products[6]]
  {
    var keep := MatchesSearch("pro");
    SearchProFrom4();
    SearchProVerdict3();
    FilterStep(Products, keep, 3, [Products[6]]);
    SearchProVerdict2();
    FilterStep(Products, keep, 2, [Products[6]]);
  }

  /** The products kept by the search for "pro" from position 0 on. */
  lemma SearchProFrom0()
    ensures Filter(Products[0..], MatchesSearch("pro")) == [Products[0], Products[1], Products[6]]
  {
    var keep := MatchesSearch("pro");
    SearchProFrom2();
    SearchProVerdict1();
    FilterStep(Products, keep, 1, [Products[6]]);
    SearchProVerdict0();
    FilterStep(Products, keep, 0, [Products[1], Products[6]]);
  }

  lemma LowerPro()
    ensures ToLower("PRO") == "pro"
  {
  }

  /** Searching "PRO" finds exactly the three products whose names contain "pro", in catalog order. */
  lemma SearchPro()
    ensures Search(Products, "PRO") == [Products[0], Products[1], Products[6]]
  {
    LowerPro();
    SearchProFrom0();
    assert Products[0..] == Products;
  }

}
