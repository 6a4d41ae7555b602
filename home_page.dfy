/** The home page's car carousel: ten showcase cars, a category select and the heading
    above the carousel. */
module HomePage {
  import opened Lists
  import opened Text

  datatype ShowcaseCar = ShowcaseCar(title: string, description: string, category: string)

  const AllCars: seq<ShowcaseCar> := [
    ShowcaseCar("Luxury Sedan", "Elegant and comfortable, perfect for long drives.", "sedan"),
    ShowcaseCar("Sports Car", "High-performance vehicle for thrill-seekers.", "sports"),
    ShowcaseCar("Electric SUV", "Eco-friendly and spacious for family adventures.", "suv"),
    ShowcaseCar("Compact Hatchback", "Efficient and easy to maneuver in city traffic.", "hatchback"),
    ShowcaseCar("Off-road 4x4", "Rugged and capable for all your adventures.", "suv"),
    ShowcaseCar("Family Minivan", "Spacious and versatile for growing families.", "minivan"),
    ShowcaseCar("Executive Sedan", "Refined luxury for business and pleasure.", "sedan"),
    ShowcaseCar("Electric Compact", "Eco-friendly city car for urban commuters.", "electric"),
    ShowcaseCar("Luxury SUV", "Premium comfort with off-road capabilities.", "suv"),
    ShowcaseCar("Performance EV", "Electric power meets sports car performance.", "electric")
  ]

  /** The values of the category select; `allCars` is the "All Categories" option. Before any
      choice the selection is the empty string. */
  predicate IsOption(category: string) {
    category == "allCars" || category == "sedan" || category == "suv" || category == "sports" ||
    category == "electric" || category == "hatchback" || category == "minivan"
  }

  /** Whether the selection means "every category". */
  predicate AllSelected(category: string) {
    category == "allCars" || category == ""
  }

  /** `filteredCars` */
  function FilteredCars(category: string): (r: seq<ShowcaseCar>)
    ensures IsSubsequence(r, AllCars)
    ensures AllSelected(category) ==> r == AllCars
    ensures !AllSelected(category) ==>
      (forall i :: 0 <= i < |r| ==> r[i].category == category) &&
      (forall i :: 0 <= i < |AllCars| && AllCars[i].category == category ==> AllCars[i] in r)
  {
    if AllSelected(category) then
      SubsequenceReflexive(AllCars);
      AllCars
    else Filter(AllCars, (c: ShowcaseCar) => c.category == category)
  }

  /** A category that no showcase car has gives an empty carousel. */
  lemma UnknownCategoryIsEmpty(category: string)
    requires !AllSelected(category)
    requires forall i :: 0 <= i < |AllCars| ==> AllCars[i].category != category
    ensures FilteredCars(category) == []
  {
    FilterKeepsNone(AllCars, (c: ShowcaseCar) => c.category == category);
  }

  /** The first character upper-cased and the rest kept: `s.charAt(0).toUpperCase() + s.slice(1)`. */
  function Capitalized(s: string): (r: string)
    requires s != ""
    ensures |r| == |s| && r[0] == UpperChar(s[0]) && r[1..] == s[1..]
  {
    [UpperChar(s[0])] + s[1..]
  }

  /** The heading AS WRITTEN: only the empty selection reads "All Categories"; any other,
      the "All Categories" option included, is capitalised and followed by " Cars". */
  function HeadingAsWritten(category: string): (r: string)
    ensures category == "" <==> r == "All Categories"
    ensures category != "" ==> r == Capitalized(category) + " Cars"
  {
    if category != "" then
      var r := Capitalized(category) + " Cars";
      assert r[|r| - 1] == 's' && r[|r| - 2] == 'r';
      assert "All Categories"[13] == 's' && "All Categories"[12] == 'e';
      r
    else "All Categories"
  }

  /** Choosing the "All Categories" option shows every car under the heading "AllCars Cars". */
  lemma AllCarsOptionHeadingAsWritten()
    ensures FilteredCars("allCars") == AllCars
    ensures HeadingAsWritten("allCars") == "AllCars Cars"
  {
    var a := "allCars";
    assert a[0] == 'a' && UpperChar('a') == 'A';
    assert Capitalized(a) == ['A'] + a[1..];
    assert ['A'] + a[1..] + " Cars" == "AllCars Cars";
  }

  /** The heading as the select's options mean it: "All Categories" exactly when every car
      is shown, else the capitalised category followed by " Cars". */
  function Heading(category: string): (r: string)
    ensures AllSelected(category) <==> r == "All Categories"
    ensures !AllSelected(category) ==> r == Capitalized(category) + " Cars"
  {
    if AllSelected(category) then "All Categories"
    else HeadingAsWritten(category)
  }

  /** The heading agrees with the carousel: it reads "All Categories" exactly when the whole
      showcase is shown, and a single category otherwise. */
  lemma HeadingMatchesCarousel(category: string)
    ensures Heading(category) == "All Categories" <==> FilteredCars(category) == AllCars
  {
    if !AllSelected(category) && FilteredCars(category) == AllCars {
      assert false;
    }
  }
}
