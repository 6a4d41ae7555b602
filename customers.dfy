/** The customers panel of the dashboard: an in-memory list of customers with add, edit,
    delete and a search that can be narrowed to one field. */
module Customers {
  import opened Common
  import opened Lists
  import opened Text

  datatype Customer = Customer(
    id: int, firstName: string, lastName: string, dateOfBirth: string,
    phone: string, email: string, address: string, cpf: string)

  /** `Omit<Customer, 'id'>`: the form being filled in for a new customer. */
  datatype Draft = Draft(
    firstName: string, lastName: string, dateOfBirth: string,
    phone: string, email: string, address: string, cpf: string)

  /** The `name` attributes of the form's inputs. */
  datatype Field = FirstName | LastName | DateOfBirth | Phone | Email | Address | Cpf

  const EmptyDraft: Draft := Draft("", "", "", "", "", "", "")

  /** The value of the input named `f` in a draft. */
  function DraftField(d: Draft, f: Field): string {
    match f
    case FirstName => d.firstName
    case LastName => d.lastName
    case DateOfBirth => d.dateOfBirth
    case Phone => d.phone
    case Email => d.email
    case Address => d.address
    case Cpf => d.cpf
  }

  /** The value of the input named `f` for a customer. */
  function CustomerField(c: Customer, f: Field): string {
    match f
    case FirstName => c.firstName
    case LastName => c.lastName
    case DateOfBirth => c.dateOfBirth
    case Phone => c.phone
    case Email => c.email
    case Address => c.address
    case Cpf => c.cpf
  }

  /** `{ ...draft, [name]: value }`: the named field takes the value, the others are kept. */
  function SetDraftField(d: Draft, f: Field, value: string): (r: Draft)
    ensures DraftField(r, f) == value
    ensures forall g :: g != f ==> DraftField(r, g) == DraftField(d, g)
  {
    match f
    case FirstName => d.(firstName := value)
    case LastName => d.(lastName := value)
    case DateOfBirth => d.(dateOfBirth := value)
    case Phone => d.(phone := value)
    case Email => d.(email := value)
    case Address => d.(address := value)
    case Cpf => d.(cpf := value)
  }

  /** `{ ...customer, [name]: value }`: no input is named `id`, so the id survives; the
      named field takes the value and the others are kept. */
  function SetCustomerField(c: Customer, f: Field, value: string): (r: Customer)
    ensures r.id == c.id
    ensures CustomerField(r, f) == value
    ensures forall g :: g != f ==> CustomerField(r, g) == CustomerField(c, g)
  {
    match f
    case FirstName => c.(firstName := value)
    case LastName => c.(lastName := value)
    case DateOfBirth => c.(dateOfBirth := value)
    case Phone => c.(phone := value)
    case Email => c.(email := value)
    case Address => c.(address := value)
    case Cpf => c.(cpf := value)
  }

  /** `Math.max(...customers.map(c => c.id), 0)` */
  function MaxId(customers: seq<Customer>): (m: int)
    ensures m >= 0
    ensures forall i :: 0 <= i < |customers| ==> customers[i].id <= m
    ensures m == 0 || exists i :: 0 <= i < |customers| && customers[i].id == m
    decreases |customers|
  {
    if customers == [] then 0
    else
      var rest := MaxId(customers[1..]);
      assert forall i :: 1 <= i < |customers| ==> customers[i] == customers[1..][i - 1];
      if customers[0].id > rest then customers[0].id else rest
  }

  /** The id given to a new customer: one more than the largest id, and at least 1. */
  function NextId(customers: seq<Customer>): (id: int)
    ensures id >= 1
    ensures forall i :: 0 <= i < |customers| ==> customers[i].id < id
  {
    MaxId(customers) + 1
  }

  predicate IdsUnique(customers: seq<Customer>) {
    forall i, j :: 0 <= i < j < |customers| ==> customers[i].id != customers[j].id
  }

  function WithId(d: Draft, id: int): Customer {
    Customer(id, d.firstName, d.lastName, d.dateOfBirth, d.phone, d.email, d.address, d.cpf)
  }

  /** The list after adding `d`: appended at the end with a fresh id. */
  function Added(customers: seq<Customer>, d: Draft): (r: seq<Customer>)
    ensures |r| == |customers| + 1 && r[..|customers|] == customers
    ensures r[|customers|] == WithId(d, NextId(customers))
    ensures IdsUnique(customers) ==> IdsUnique(r)
  {
    customers + [WithId(d, NextId(customers))]
  }

  /** The list after saving `edited`: every entry with its id is replaced by it. */
  function Edited(customers: seq<Customer>, edited: Customer): (r: seq<Customer>)
    ensures |r| == |customers|
    ensures forall i :: 0 <= i < |customers| ==>
      r[i] == (if customers[i].id == edited.id then edited else customers[i])
    ensures IdsUnique(customers) ==> IdsUnique(r)
  {
    ReplaceWhere(customers, (c: Customer) => c.id == edited.id, edited)
  }

  /** The list after deleting `id`: the entries with any other id, in order. */
  function Deleted(customers: seq<Customer>, id: int): (r: seq<Customer>)
    ensures IsSubsequence(r, customers)
    ensures forall i :: 0 <= i < |r| ==> r[i].id != id
    ensures forall i :: 0 <= i < |customers| && customers[i].id != id ==> customers[i] in r
    ensures multiset(r) <= multiset(customers)
    ensures forall i :: 0 <= i < |customers| && customers[i].id != id ==> multiset(r)[customers[i]] == multiset(customers)[customers[i]]
  {
    var kept := (c: Customer) => c.id != id;
    FilterMultiplicity(customers, kept);
    Filter(customers, kept)
  }

  /** A sub-list of a list with unique ids has unique ids. */
  lemma {:induction false} SubsequenceKeepsIdsUnique(r: seq<Customer>, s: seq<Customer>)
    requires IsSubsequence(r, s) && IdsUnique(s)
    ensures IdsUnique(r)
    decreases |s|
  {
    if r != [] && s != [] {
      if r[0] == s[0] {
        SubsequenceKeepsIdsUnique(r[1..], s[1..]);
        forall j | 0 < j < |r| ensures r[0].id != r[j].id {
          SubsequenceMember(r[1..], s[1..], j - 1);
        }
      } else {
        SubsequenceKeepsIdsUnique(r, s[1..]);
      }
    }
  }

  /** Every element of a sub-list of `s` occurs in `s`. */
  lemma {:induction false} SubsequenceMember(r: seq<Customer>, s: seq<Customer>, k: nat)
    requires IsSubsequence(r, s) && k < |r|
    ensures exists i :: 0 <= i < |s| && s[i] == r[k]
    decreases |s|
  {
    if r[0] == s[0] {
      if k == 0 {
        assert s[0] == r[k];
      } else {
        SubsequenceMember(r[1..], s[1..], k - 1);
        var i :| 0 <= i < |s| - 1 && s[1..][i] == r[1..][k - 1];
        assert s[i + 1] == r[k];
      }
    } else {
      SubsequenceMember(r, s[1..], k);
      var i :| 0 <= i < |s| - 1 && s[1..][i] == r[k];
      assert s[i + 1] == r[k];
    }
  }

  /** Deleting keeps the ids unique. */
  lemma DeletedKeepsIdsUnique(customers: seq<Customer>, id: int)
    requires IdsUnique(customers)
    ensures IdsUnique(Deleted(customers, id))
  {
    SubsequenceKeepsIdsUnique(Deleted(customers, id), customers);
  }

  /** The search box test with the mode selector: `name` looks at first and last name,
      `email` at the email, `cpf` at the CPF (case-sensitively), and `all` or any other mode
      at all four. */
  predicate Matches(c: Customer, term: string, mode: string)
    ensures term == "" ==> Matches(c, term, mode)
  {
    ContainsEmpty(c.cpf);
    ContainsEmpty(Lower(c.firstName));
    ContainsEmpty(Lower(c.email));
    assert Lower("") == "";
    var name := ContainsIgnoringCase(c.firstName, term) || ContainsIgnoringCase(c.lastName, term);
    var email := ContainsIgnoringCase(c.email, term);
    var cpf := Contains(c.cpf, term);
    if mode == "all" then name || email || cpf
    else if mode == "name" then name
    else if mode == "email" then email
    else if mode == "cpf" then cpf
    else name || email || cpf
  }

  /** `filteredCustomers` */
  function FilteredCustomers(customers: seq<Customer>, term: string, mode: string): (r: seq<Customer>)
    ensures IsSubsequence(r, customers)
    ensures forall i :: 0 <= i < |r| ==> Matches(r[i], term, mode)
    ensures forall i :: 0 <= i < |customers| && Matches(customers[i], term, mode) ==> customers[i] in r
    ensures multiset(r) <= multiset(customers)
    ensures forall i :: 0 <= i < |customers| && Matches(customers[i], term, mode) ==> multiset(r)[customers[i]] == multiset(customers)[customers[i]]
  {
    var matching := (c: Customer) => Matches(c, term, mode);
    FilterMultiplicity(customers, matching);
    Filter(customers, matching)
  }

  /** An empty search term keeps every customer, whatever the mode. */
  lemma EmptySearchKeepsAll(customers: seq<Customer>, mode: string)
    ensures FilteredCustomers(customers, "", mode) == customers
  {
    FilterKeepsAll(customers, (c: Customer) => Matches(c, "", mode));
  }

  /** An unknown mode filters exactly like `all`. */
  lemma UnknownModeIsAll(customers: seq<Customer>, term: string, mode: string)
    requires mode != "all" && mode != "name" && mode != "email" && mode != "cpf"
    ensures FilteredCustomers(customers, term, mode) == FilteredCustomers(customers, term, "all")
  {
    FilterAgreeing(customers, (c: Customer) => Matches(c, term, mode), (c: Customer) => Matches(c, term, "all"));
  }

  /** The seven seeded customers, ids 1 to 7. */
  function Seed(): (r: seq<Customer>)
    ensures |r| == 7 && forall i :: 0 <= i < 7 ==> r[i].id == i + 1
  {
    [ Customer(1, "John", "Doe", "1990-01-01", "(11) 99999-9999", "john@example.com", "123 Main St, City", "123.456.789-00"),
      Customer(2, "Jane", "Smith", "1985-05-15", "(11) 88888-8888", "jane@example.com", "456 Elm St, Town", "987.654.321-00"),
      Customer(3, "Eduardo", "Smith", "1985-05-15", "(11) 88888-8888", "jane@example.com", "456 Elm St, Town", "987.654.321-00"),
      Customer(4, "Edinal", "Smith", "1985-05-15", "(11) 88888-8888", "jane@example.com", "456 Elm St, Town", "987.654.321-00"),
      Customer(5, "Elaine", "Smith", "1985-05-15", "(11) 88888-8888", "jane@example.com", "456 Elm St, Town", "987.654.321-00"),
      Customer(6, "Fabiola", "Smith", "1985-05-15", "(11) 88888-8888", "jane@example.com", "456 Elm St, Town", "987.654.321-00"),
      Customer(7, "Jos√©", "Smith", "1985-05-15", "(11) 88888-8888", "jane@example.com", "456 Elm St, Town", "987.654.321-00") ]
  }

  /** The component's state. */
  class CustomersPanel {
    var customers: seq<Customer>
    var newCustomer: Draft
    var editingCustomer: Option<Customer>
    var searchTerm: string
    var filterBy: string
    var confirmationMessage: string

    ghost predicate Valid()
      reads this
    {
      IdsUnique(customers)
    }

    constructor ()
      ensures Valid()
      ensures customers == Seed() && newCustomer == EmptyDraft && editingCustomer.None?
      ensures searchTerm == "" && filterBy == "all" && confirmationMessage == ""
    {
      customers := Seed();
      newCustomer := EmptyDraft;
      editingCustomer := None;
      searchTerm := "";
      filterBy := "all";
      confirmationMessage := "";
    }

    /** `handleInputChange`: the field goes to the customer being edited, if any, else to
        the new-customer draft. */
    method HandleInputChange(f: Field, value: string)
      modifies this
      ensures customers == old(customers) && searchTerm == old(searchTerm) && filterBy == old(filterBy)
      ensures confirmationMessage == old(confirmationMessage)
      ensures old(editingCustomer).Some? ==>
        editingCustomer == Some(SetCustomerField(old(editingCustomer).value, f, value)) &&
        newCustomer == old(newCustomer)
      ensures old(editingCustomer).None? ==>
        editingCustomer.None? && newCustomer == SetDraftField(old(newCustomer), f, value)
    {
      if editingCustomer.Some? {
        editingCustomer := Some(SetCustomerField(editingCustomer.value, f, value));
      } else {
        newCustomer := SetDraftField(newCustomer, f, value);
      }
    }

    /** `handleSubmit`: save the edited customer, or add the draft with a fresh id and reset
        the draft. */
    method HandleSubmit()
      requires Valid()
      modifies this
      ensures Valid()
      ensures searchTerm == old(searchTerm) && filterBy == old(filterBy)
      ensures editingCustomer.None?
      ensures old(editingCustomer).Some? ==>
        customers == Edited(old(customers), old(editingCustomer).value) &&
        newCustomer == old(newCustomer) &&
        confirmationMessage == "Customer information updated successfully!"
      ensures old(editingCustomer).None? ==>
        customers == Added(old(customers), old(newCustomer)) && newCustomer == EmptyDraft &&
        confirmationMessage == "New customer added successfully!"
    {
      if editingCustomer.Some? {
        customers := Edited(customers, editingCustomer.value);
        editingCustomer := None;
        confirmationMessage := "Customer information updated successfully!";
      } else {
        customers := Added(customers, newCustomer);
        newCustomer := EmptyDraft;
        confirmationMessage := "New customer added successfully!";
      }
    }

    /** The timer started by a submit, three seconds later. */
    method ClearConfirmation()
      modifies this
      ensures confirmationMessage == ""
      ensures customers == old(customers) && newCustomer == old(newCustomer)
      ensures editingCustomer == old(editingCustomer)
      ensures searchTerm == old(searchTerm) && filterBy == old(filterBy)
    {
      confirmationMessage := "";
    }

    method HandleDelete(id: int)
      requires Valid()
      modifies this
      ensures Valid()
      ensures customers == Deleted(old(customers), id)
      ensures newCustomer == old(newCustomer) && editingCustomer == old(editingCustomer)
      ensures searchTerm == old(searchTerm) && filterBy == old(filterBy)
      ensures confirmationMessage == old(confirmationMessage)
    {
      DeletedKeepsIdsUnique(customers, id);
      customers := Deleted(customers, id);
    }

    /** `handleEdit`, and the cancel button (`c` = None). */
    method SetEditing(c: Option<Customer>)
      modifies this
      ensures editingCustomer == c
      ensures customers == old(customers) && newCustomer == old(newCustomer)
      ensures searchTerm == old(searchTerm) && filterBy == old(filterBy)
      ensures confirmationMessage == old(confirmationMessage)
    {
      editingCustomer := c;
    }

    method SetSearch(term: string, mode: string)
      modifies this
      ensures searchTerm == term && filterBy == mode
      ensures customers == old(customers) && newCustomer == old(newCustomer)
      ensures editingCustomer == old(editingCustomer) && confirmationMessage == old(confirmationMessage)
    {
      searchTerm := term;
      filterBy := mode;
    }

    /** The rows the table shows. */
    function Shown(): (r: seq<Customer>)
      reads this
      ensures IsSubsequence(r, customers)
      ensures searchTerm == "" ==> r == customers
      ensures r == FilteredCustomers(customers, searchTerm, filterBy)
    {
      if searchTerm == "" then
        EmptySearchKeepsAll(customers, filterBy);
        FilteredCustomers(customers, searchTerm, filterBy)
      else FilteredCustomers(customers, searchTerm, filterBy)
    }
  }
}
