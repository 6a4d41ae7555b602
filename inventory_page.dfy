/** The catalogue page: eight cars filtered by a search term, a set of checked car types
    and an inclusive range of years. */
module InventoryPage {
  import opened Lists
  import opened Text

  datatype Car = Car(
    id: nat, model: string, manufacturer: string, year: int, price: int, color: string,
    licensePlate: string, doors: nat, transmission: string, image: string, carType: string)

  /** The ids of the type checkboxes, in display order. */
  const CarTypes: seq<string> := ["sedan", "suv", "sports", "electric", "hatchback", "minivan"]

  const Catalogue: seq<Car> := [
    Car(1, "Civic", "Honda", 2022, 120000, "Prata", "ABC1234", 4, "Automático", "/placeholder.svg", "sedan"),
    Car(2, "Corolla", "Toyota", 2023, 130000, "Branco", "DEF5678", 4, "Automático", "/placeholder.svg", "sedan"),
    Car(3, "Golf", "Volkswagen", 2021, 110000, "Azul", "GHI9012", 4, "Manual", "/placeholder.svg", "hatchback"),
    Car(4, "X5", "BMW", 2023, 350000, "Preto", "JKL3456", 5, "Automático", "/placeholder.svg", "suv"),
    Car(5, "Model 3", "Tesla", 2022, 280000, "Vermelho", "MNO7890", 4, "Automático", "/placeholder.svg", "electric"),
    Car(6, "911", "Porsche", 2023, 750000, "Amarelo", "PQR1234", 2, "Automático", "/placeholder.svg", "sports"),
    Car(7, "Sienna", "Toyota", 2022, 200000, "Cinza", "STU5678", 5, "Automático", "/placeholder.svg", "minivan"),
    Car(8, "Mustang", "Ford", 2021, 300000, "Vermelho", "VWX9012", 2, "Manual", "/placeholder.svg", "sports")
  ]

  /** The three tests a car must pass: the term in its model or manufacturer (ignoring case;
      an empty term passes), its type among the checked ones (none checked passes), and its
      year within the range, both ends included. The page's two-thumb slider (2021 to 2023)
      never produces a range whose start is after its end; the first ensures is a fact about
      the filter on its own, for any caller of it. */
  predicate Shown(car: Car, term: string, types: seq<string>, fromYear: int, toYear: int)
    ensures toYear < fromYear ==> !Shown(car, term, types, fromYear, toYear)
    ensures term == "" && types == [] ==> (Shown(car, term, types, fromYear, toYear) <==> fromYear <= car.year <= toYear)
  {
    (term == "" || ContainsIgnoringCase(car.model, term) || ContainsIgnoringCase(car.manufacturer, term)) &&
    (|types| == 0 || car.carType in types) &&
    (fromYear <= car.year && car.year <= toYear)
  }

  /** `filteredCars` */
  function FilteredCars(cars: seq<Car>, term: string, types: seq<string>, fromYear: int, toYear: int): (r: seq<Car>)
    ensures IsSubsequence(r, cars)
    ensures forall i :: 0 <= i < |r| ==> Shown(r[i], term, types, fromYear, toYear)
    ensures forall i :: 0 <= i < |cars| && Shown(cars[i], term, types, fromYear, toYear) ==> cars[i] in r
    ensures multiset(r) <= multiset(cars)
    ensures forall i :: 0 <= i < |cars| && Shown(cars[i], term, types, fromYear, toYear) ==> multiset(r)[cars[i]] == multiset(cars)[cars[i]]
  {
    var shown := (c: Car) => Shown(c, term, types, fromYear, toYear);
    FilterMultiplicity(cars, shown);
    Filter(cars, shown)
  }

  /** The page as it first appears (no term, no type checked, 2021 to 2023) lists the whole
      catalogue. */
  lemma InitialStateShowsAll()
    ensures FilteredCars(Catalogue, "", [], 2021, 2023) == Catalogue
  {
    forall i | 0 <= i < |Catalogue| ensures Shown(Catalogue[i], "", [], 2021, 2023) {
    }
    FilterKeepsAll(Catalogue, (c: Car) => Shown(c, "", [], 2021, 2023));
  }

  /** A range whose start is after its end shows nothing. The page itself never reaches such
      a range, since its slider keeps the thumbs ordered; this states what the filter does
      with one. */
  lemma EmptyRangeShowsNothing(cars: seq<Car>, term: string, types: seq<string>, fromYear: int, toYear: int)
    requires toYear < fromYear
    ensures FilteredCars(cars, term, types, fromYear, toYear) == []
  {
    FilterKeepsNone(cars, (c: Car) => Shown(c, term, types, fromYear, toYear));
  }

  /** A type's checkbox: checking appends its id, unchecking removes every copy of it. */
  function Toggled(types: seq<string>, id: string, checked: bool): (r: seq<string>)
    ensures checked ==> r == types + [id]
    ensures !checked ==> (IsSubsequence(r, types) && id !in r &&
      forall i :: 0 <= i < |types| && types[i] != id ==> types[i] in r)
    ensures !checked ==> (multiset(r) <= multiset(types) &&
      forall i :: 0 <= i < |types| && types[i] != id ==> multiset(r)[types[i]] == multiset(types)[types[i]])
  {
    if checked then types + [id]
    else
      var others := (t: string) => t != id;
      FilterMultiplicity(types, others);
      Filter(types, others)
  }

  /** Checking a type that was not checked and then unchecking it gives back the selection. */
  lemma CheckThenUncheck(types: seq<string>, id: string)
    requires id !in types
    ensures Toggled(Toggled(types, id, true), id, false) == types
  {
    FilterConcat(types, [id], (t: string) => t != id);
    FilterKeepsAll(types, (t: string) => t != id);
    assert Filter([id], (t: string) => t != id) == [];
  }

  class Inventory {
    var searchTerm: string
    var selectedTypes: seq<string>
    var yearRange: (int, int)

    constructor ()
      ensures searchTerm == "" && selectedTypes == [] && yearRange == (2021, 2023)
    {
      searchTerm := "";
      selectedTypes := [];
      yearRange := (2021, 2023);
    }

    /** The checkbox handler of type `id`. */
    method ToggleType(id: string, checked: bool)
      modifies this
      ensures selectedTypes == Toggled(old(selectedTypes), id, checked)
      ensures searchTerm == old(searchTerm) && yearRange == old(yearRange)
    {
      if checked {
        selectedTypes := selectedTypes + [id];
      } else {
        selectedTypes := Toggled(selectedTypes, id, false);
      }
    }

    method SetSearchTerm(term: string)
      modifies this
      ensures searchTerm == term && selectedTypes == old(selectedTypes) && yearRange == old(yearRange)
    {
      searchTerm := term;
    }

    method SetYearRange(fromYear: int, toYear: int)
      modifies this
      ensures yearRange == (fromYear, toYear)
      ensures searchTerm == old(searchTerm) && selectedTypes == old(selectedTypes)
    {
      yearRange := (fromYear, toYear);
    }

    /** The cars the page lists. */
    function Listed(): (r: seq<Car>)
      reads this
      ensures IsSubsequence(r, Catalogue)
      ensures forall i :: 0 <= i < |r| ==> Shown(r[i], searchTerm, selectedTypes, yearRange.0, yearRange.1)
      ensures forall i :: 0 <= i < |Catalogue| && Shown(Catalogue[i], searchTerm, selectedTypes, yearRange.0, yearRange.1) ==>
        multiset(r)[Catalogue[i]] == multiset(Catalogue)[Catalogue[i]]
    {
      FilteredCars(Catalogue, searchTerm, selectedTypes, yearRange.0, yearRange.1)
    }
  }
}
