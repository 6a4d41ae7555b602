/** The financing proposals panel of the dashboard: an in-memory list of proposals, a search
    with a status filter, and one proposal at a time being edited or created. */
module FinancingProposals {
  import opened Common
  import opened Lists
  import opened Text
  import opened Numbers

  datatype Status = Pending | Approved | Rejected

  function StatusName(s: Status): string {
    match s
    case Pending => "pending"
    case Approved => "approved"
    case Rejected => "rejected"
  }

  /** `proposalValue` is what `parseFloat` made of the input; see Numbers for the integer
      reading of it. */
  datatype Proposal = Proposal(
    id: int, customerName: string, customerSurname: string, dateOfBirth: string,
    cpf: string, rg: string, isMarried: bool, proposalDate: string, status: Status,
    documents: seq<string>, address: string, proposalValue: JsNumber)

  /** The `handleProposalChange(field, value)` calls the form makes, one per input. No input
      changes `id` or `documents`. */
  datatype Change =
    | CustomerName(name: string)
    | CustomerSurname(surname: string)
    | DateOfBirth(date: string)
    | Cpf(cpf: string)
    | Rg(rg: string)
    | IsMarried(married: bool)
    | ProposalDate(date: string)
    | StatusTo(status: Status)
    | Address(address: string)
    | ProposalValue(amount: JsNumber)

  /** `{ ...proposal, [field]: value }`: the field the change names takes its value, and
      every other field, `id` and `documents` included, is kept. */
  function Apply(p: Proposal, c: Change): (r: Proposal)
    ensures r.id == p.id && r.documents == p.documents
    ensures r.customerName == if c.CustomerName? then c.name else p.customerName
    ensures r.customerSurname == if c.CustomerSurname? then c.surname else p.customerSurname
    ensures r.dateOfBirth == if c.DateOfBirth? then c.date else p.dateOfBirth
    ensures r.cpf == if c.Cpf? then c.cpf else p.cpf
    ensures r.rg == if c.Rg? then c.rg else p.rg
    ensures r.isMarried == if c.IsMarried? then c.married else p.isMarried
    ensures r.proposalDate == if c.ProposalDate? then c.date else p.proposalDate
    ensures r.status == if c.StatusTo? then c.status else p.status
    ensures r.address == if c.Address? then c.address else p.address
    ensures r.proposalValue == if c.ProposalValue? then c.amount else p.proposalValue
  {
    match c
    case CustomerName(v) => p.(customerName := v)
    case CustomerSurname(v) => p.(customerSurname := v)
    case DateOfBirth(v) => p.(dateOfBirth := v)
    case Cpf(v) => p.(cpf := v)
    case Rg(v) => p.(rg := v)
    case IsMarried(v) => p.(isMarried := v)
    case ProposalDate(v) => p.(proposalDate := v)
    case StatusTo(v) => p.(status := v)
    case Address(v) => p.(address := v)
    case ProposalValue(v) => p.(proposalValue := v)
  }

  /** `handleAddNewProposal`: a blank proposal dated `today`, with id 0 meaning "new". */
  function NewDraft(today: string): (r: Proposal)
    ensures r.id == 0 && r.status == Pending && r.documents == [] && r.proposalValue == Finite(0)
    ensures r.customerName == r.customerSurname == r.dateOfBirth == r.cpf == r.rg == r.address == ""
    ensures !r.isMarried && r.proposalDate == today
  {
    Proposal(0, "", "", "", "", "", false, today, Pending, [], "", Finite(0))
  }

  /** The ids are 1, 2, ..., n in order. */
  predicate IdsSequential(proposals: seq<Proposal>) {
    forall i :: 0 <= i < |proposals| ==> proposals[i].id == i + 1
  }

  /** `handleSaveProposal` with `draft` being edited: a non-zero id replaces the entries with
      that id; id 0 (falsy) appends the draft numbered one past the length. */
  function Saved(proposals: seq<Proposal>, draft: Proposal): (r: seq<Proposal>)
    ensures draft.id != 0 ==> (|r| == |proposals| &&
      forall i :: 0 <= i < |proposals| ==> r[i] == (if proposals[i].id == draft.id then draft else proposals[i]))
    ensures draft.id == 0 ==> r == proposals + [draft.(id := |proposals| + 1)]
    ensures IdsSequential(proposals) ==> IdsSequential(r)
  {
    if draft.id != 0 then ReplaceWhere(proposals, (p: Proposal) => p.id == draft.id, draft)
    else proposals + [draft.(id := |proposals| + 1)]
  }

  /** The search test: name or surname, ignoring case, or the CPF as typed; and the status
      filter, which `all` switches off. */
  predicate Matches(p: Proposal, term: string, statusFilter: string)
    ensures term == "" ==> (Matches(p, term, statusFilter) <==> statusFilter == "all" || StatusName(p.status) == statusFilter)
  {
    ContainsEmpty(p.cpf);
    (ContainsIgnoringCase(p.customerName, term) || ContainsIgnoringCase(p.customerSurname, term) ||
     Contains(p.cpf, term)) &&
    (statusFilter == "all" || StatusName(p.status) == statusFilter)
  }

  /** `filteredProposals` */
  function FilteredProposals(proposals: seq<Proposal>, term: string, statusFilter: string): (r: seq<Proposal>)
    ensures IsSubsequence(r, proposals)
    ensures forall i :: 0 <= i < |r| ==> Matches(r[i], term, statusFilter)
    ensures forall i :: 0 <= i < |proposals| && Matches(proposals[i], term, statusFilter) ==> proposals[i] in r
    ensures multiset(r) <= multiset(proposals)
    ensures forall i :: 0 <= i < |proposals| && Matches(proposals[i], term, statusFilter) ==> multiset(r)[proposals[i]] == multiset(proposals)[proposals[i]]
  {
    var matching := (p: Proposal) => Matches(p, term, statusFilter);
    FilterMultiplicity(proposals, matching);
    Filter(proposals, matching)
  }

  /** With no search term, the shown proposals are exactly those with the selected status,
      or all of them for `all`. */
  lemma EmptySearchFiltersByStatusOnly(proposals: seq<Proposal>, statusFilter: string)
    ensures FilteredProposals(proposals, "", statusFilter) ==
      Filter(proposals, (p: Proposal) => statusFilter == "all" || StatusName(p.status) == statusFilter)
    ensures FilteredProposals(proposals, "", "all") == proposals
  {
    forall i | 0 <= i < |proposals| ensures Contains(proposals[i].cpf, "") {
      ContainsEmpty(proposals[i].cpf);
    }
    FilterAgreeing(proposals, (p: Proposal) => Matches(p, "", statusFilter),
                   (p: Proposal) => statusFilter == "all" || StatusName(p.status) == statusFilter);
    FilterKeepsAll(proposals, (p: Proposal) => Matches(p, "", "all"));
  }

  /** The two seeded proposals. */
  function Seed(): (r: seq<Proposal>)
    ensures IdsSequential(r) && |r| == 2
  {
    [ Proposal(1, "João", "Silva", "1985-03-15", "123.456.789-00", "12.345.678-9", true, "2023-06-01",
               Pending, ["RG.pdf", "ComprovanteRenda.pdf", "ComprovanteEndereco.pdf"],
               "Rua das Flores, 123, São Paulo - SP", Finite(50000)),
      Proposal(2, "Maria", "Santos", "1990-07-22", "987.654.321-00", "98.765.432-1", false, "2023-06-05",
               Approved, ["RG.pdf", "ComprovanteRenda.pdf", "ComprovanteEndereco.pdf", "VistoriaVeiculo.pdf"],
               "Avenida Paulista, 1000, São Paulo - SP", Finite(75000)) ]
  }

  class ProposalsPanel {
    var proposals: seq<Proposal>
    var searchTerm: string
    var filterStatus: string
    var editingProposal: Option<Proposal>

    ghost predicate Valid()
      reads this
    {
      IdsSequential(proposals)
    }

    constructor ()
      ensures Valid() && proposals == Seed()
      ensures searchTerm == "" && filterStatus == "all" && editingProposal.None?
    {
      proposals := Seed();
      searchTerm := "";
      filterStatus := "all";
      editingProposal := None;
    }

    /** `handleProposalChange`: only the draft's named field changes; with no draft, nothing. */
    method HandleProposalChange(c: Change)
      modifies this
      ensures proposals == old(proposals) && searchTerm == old(searchTerm) && filterStatus == old(filterStatus)
      ensures editingProposal == if old(editingProposal).Some? then Some(Apply(old(editingProposal).value, c)) else None
    {
      if editingProposal.Some? {
        editingProposal := Some(Apply(editingProposal.value, c));
      }
    }

    /** `handleSaveProposal`: with a draft, save it and close it; with none, nothing. */
    method HandleSaveProposal()
      requires Valid()
      modifies this
      ensures Valid()
      ensures searchTerm == old(searchTerm) && filterStatus == old(filterStatus)
      ensures editingProposal.None?
      ensures proposals == if old(editingProposal).Some? then Saved(old(proposals), old(editingProposal).value) else old(proposals)
    {
      if editingProposal.Some? {
        proposals := Saved(proposals, editingProposal.value);
        editingProposal := None;
      }
    }

    /** `handleAddNewProposal`, with the date of `new Date()` given as `today`. */
    method HandleAddNewProposal(today: string)
      modifies this
      ensures editingProposal == Some(NewDraft(today))
      ensures proposals == old(proposals) && searchTerm == old(searchTerm) && filterStatus == old(filterStatus)
    {
      editingProposal := Some(NewDraft(today));
    }

    /** The edit button of a row. */
    method EditProposal(p: Proposal)
      modifies this
      ensures editingProposal == Some(p)
      ensures proposals == old(proposals) && searchTerm == old(searchTerm) && filterStatus == old(filterStatus)
    {
      editingProposal := Some(p);
    }

    method SetSearch(term: string, status: string)
      modifies this
      ensures searchTerm == term && filterStatus == status
      ensures proposals == old(proposals) && editingProposal == old(editingProposal)
    {
      searchTerm := term;
      filterStatus := status;
    }
  }

  /** Saving a new draft gives it the next id in sequence, so it never collides with an
      existing one; saving an existing one leaves every id where it was. */
  lemma SaveNumbering(proposals: seq<Proposal>, draft: Proposal)
    requires IdsSequential(proposals)
    ensures draft.id == 0 ==> (Saved(proposals, draft)[|proposals|].id == |proposals| + 1 &&
      forall i :: 0 <= i < |proposals| ==> proposals[i].id != |proposals| + 1)
    ensures draft.id != 0 ==> forall i :: 0 <= i < |proposals| ==> Saved(proposals, draft)[i].id == proposals[i].id
  {
  }
}
