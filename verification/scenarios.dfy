/** What the model computes on small concrete inputs. */
module Scenarios {
  import opened Wrappers
  import opened Text
  import opened Json
  import opened Catalog
  import opened Agent
  import opened AgentProperties

  lemma QuitExits()
    ensures IsExitCommand("quit")
  {
    assert Lower("quit") == "quit";
    assert PaddedExitWord("quit", 0, 4);
    PaddedExitWordExits("quit", 0, 4);
  }

  lemma PaddedExitExits()
    ensures IsExitCommand("  Exit\n")
  {
    var s := "  Exit\n";
    assert s[2..6] == "Exit";
    assert LowerChar('E') == 'e';
    assert Lower("Exit") == "exit";
    assert PaddedExitWord(s, 2, 6);
    PaddedExitWordExits(s, 2, 6);
  }

  lemma LongerTextContinues()
    ensures !IsExitCommand("exit now")
  {
    StripCore("", "exit now", "");
    assert "" + "exit now" + "" == "exit now";
  }

  const RedHat := Obj(map["productName" := Str("Red Hat"), "price" := Num(1500)])
  const Shoe := Obj(map["productName" := Str("Shoe"), "price" := Num(5000)])
  const Listing := Fetched(map["data" := Arr([RedHat, Shoe])])

  lemma RedHatText()
    ensures SearchText(RedHat) == Success("red hat  ")
  {
    var m := RedHat.fields;
    assert FieldText(m, "productName") == Some("Red Hat");
    assert FieldText(m, "description") == Some("");
    assert FieldText(m, "category") == Some("");
    assert "Red Hat" + " " + "" + " " + "" == "Red Hat  ";
    LowerRedHat();
  }

  lemma LowerRedHat()
    ensures Lower("Red Hat  ") == "red hat  "
  {
    assert LowerChar('R') == 'r' && LowerChar('H') == 'h';
  }

  lemma ShoeText()
    ensures SearchText(Shoe) == Success("shoe  ")
  {
    var m := Shoe.fields;
    assert FieldText(m, "productName") == Some("Shoe");
    assert FieldText(m, "description") == Some("");
    assert FieldText(m, "category") == Some("");
    assert "Shoe" + " " + "" + " " + "" == "Shoe  ";
    LowerShoe();
  }

  lemma LowerShoe()
    ensures Lower("Shoe  ") == "shoe  "
  {
    assert LowerChar('S') == 's';
  }

  lemma RedHatMatches()
    ensures Matches("hat", RedHat)
  {
    RedHatText();
    assert OccursAt("red hat  ", "hat", 4) by {
      assert "red hat  "[4..7] == "hat";
    }
    ContainsIffOccurs("red hat  ", "hat");
  }

  /** The fields are joined before the search, so a query may run across two of them. */
  const SplitHat := Obj(map["productName" := Str("red"), "description" := Str("hat")])

  lemma SplitHatText()
    ensures SearchText(SplitHat) == Success("red hat ")
  {
    var m := SplitHat.fields;
    assert FieldText(m, "productName") == Some("red");
    assert FieldText(m, "description") == Some("hat");
    assert FieldText(m, "category") == Some("");
    assert "red" + " " + "hat" + " " + "" == "red hat ";
    LowerRedHatSplit();
  }

  lemma LowerRedHatSplit()
    ensures Lower("red hat ") == "red hat "
  {
  }

  lemma QuerySpansFields()
    ensures Matches("d h", SplitHat)
  {
    SplitHatText();
    assert OccursAt("red hat ", "d h", 2) by {
      assert "red hat "[2..5] == "d h";
    }
    ContainsIffOccurs("red hat ", "d h");
  }

  lemma ShoeDoesNotMatch()
    ensures SearchText(Shoe).Success? && !Matches("hat", Shoe)
  {
    ShoeText();
    AbsentCharNotContained("shoe  ", "hat", 1);
  }

  lemma FilterShoe()
    ensures Filter("hat", [Shoe]) == Success([])
  {
    ShoeDoesNotMatch();
    assert [Shoe][1..] == [];
  }

  lemma FilterListing()
    ensures Filter("hat", [RedHat, Shoe]) == Success([RedHat])
  {
    RedHatMatches();
    FilterShoe();
    var ps := [RedHat, Shoe];
    assert ps[0] == RedHat && ps[1..] == [Shoe];
    assert Contains(SearchText(ps[0]).value, "hat");
    assert [RedHat] + [] == [RedHat];
  }

  /** A capitalised query keeps just the product it names. */
  lemma QueryExample()
    ensures GetProducts(Listing, Str("HAT")) == Data([RedHat])
  {
    LowerHatQuery();
    FilterListing();
    assert HasProductList(Listing.body) && Listing.body["data"].items == [RedHat, Shoe];
    GetProductsFilters(Listing, "HAT");
  }

  lemma LowerHatQuery()
    ensures Lower("HAT") == "hat"
  {
    assert LowerChar('H') == 'h' && LowerChar('A') == 'a' && LowerChar('T') == 't';
  }

  /** An empty query keeps every product, in order. */
  lemma EmptyQueryExample()
    ensures GetProducts(Listing, Str("")) == Data([RedHat, Shoe])
  {
    assert HasProductList(Listing.body);
  }
}
