/** The financing partners panel of the dashboard: a list loaded from `/api/financing`, a
    dialog that creates or edits one partner, and deletion after a confirmation. Requests
    and toasts are recorded; each request's outcome is supplied by the caller. */
module FinancingSettings {
  import opened Common
  import opened Lists

  datatype Partner = Partner(id: string, name: string, logo: string, description: string, additionalInfo: string)

  datatype Request = Request(verb: string, url: string)

  datatype Toast = Success(message: string) | Failure(message: string)

  /** Where the dialog's form goes: PUT to the partner's own URL when one is being edited,
      else POST to the collection. */
  function SaveRequest(current: Option<Partner>): (r: Request)
    ensures current.Some? <==> r.verb == "PUT"
    ensures current.None? <==> r.verb == "POST"
    ensures current.Some? ==> r.url == "/api/financing/" + current.value.id
    ensures current.None? ==> r.url == "/api/financing"
  {
    match current
    case Some(p) => Request("PUT", "/api/financing/" + p.id)
    case None => Request("POST", "/api/financing")
  }

  /** The list after a successful save: when editing, the partners with the saved id are
      replaced by it; when adding, it is appended. */
  function AfterSave(partners: seq<Partner>, editing: bool, saved: Partner): (r: seq<Partner>)
    ensures editing ==> (|r| == |partners| &&
      forall i :: 0 <= i < |partners| ==> r[i] == (if partners[i].id == saved.id then saved else partners[i]))
    ensures !editing ==> r == partners + [saved]
  {
    if editing then ReplaceWhere(partners, (p: Partner) => p.id == saved.id, saved)
    else partners + [saved]
  }

  /** The list after a successful delete. */
  function AfterDelete(partners: seq<Partner>, id: string): (r: seq<Partner>)
    ensures IsSubsequence(r, partners)
    ensures forall i :: 0 <= i < |r| ==> r[i].id != id
    ensures forall i :: 0 <= i < |partners| && partners[i].id != id ==> partners[i] in r
    ensures multiset(r) <= multiset(partners)
    ensures forall i :: 0 <= i < |partners| && partners[i].id != id ==> multiset(r)[partners[i]] == multiset(partners)[partners[i]]
  {
    var kept := (p: Partner) => p.id != id;
    FilterMultiplicity(partners, kept);
    Filter(partners, kept)
  }

  /** Editing a partner whose id is not in the list changes nothing. */
  lemma SaveOfUnknownIdChangesNothing(partners: seq<Partner>, saved: Partner)
    requires forall i :: 0 <= i < |partners| ==> partners[i].id != saved.id
    ensures AfterSave(partners, true, saved) == partners
  {
  }

  /** Deleting an id no partner has changes nothing. */
  lemma DeleteOfUnknownIdChangesNothing(partners: seq<Partner>, id: string)
    requires forall i :: 0 <= i < |partners| ==> partners[i].id != id
    ensures AfterDelete(partners, id) == partners
  {
    FilterKeepsAll(partners, (p: Partner) => p.id != id);
  }

  class PartnersPanel {
    var partners: seq<Partner>
    var isDialogOpen: bool
    var currentPartner: Option<Partner>
    var previewLogo: Option<string>
    var requests: seq<Request>
    var toasts: seq<Toast>

    constructor ()
      ensures partners == [] && !isDialogOpen && currentPartner.None? && previewLogo.None?
      ensures requests == [] && toasts == []
    {
      partners := [];
      isDialogOpen := false;
      currentPartner := None;
      previewLogo := None;
      requests := [];
      toasts := [];
    }

    /** `fetchPartners`, run once on mount. `data` is the decoded list of an ok reply, or
        None when the request, its status or its body fails. */
    method FetchPartners(data: Option<seq<Partner>>)
      modifies this
      ensures requests == old(requests) + [Request("GET", "/api/financing")]
      ensures data.Some? ==> partners == data.value && toasts == old(toasts)
      ensures data.None? ==>
        partners == old(partners) && toasts == old(toasts) + [Failure("Erro ao carregar os parceiros de financiamento")]
      ensures isDialogOpen == old(isDialogOpen) && currentPartner == old(currentPartner) && previewLogo == old(previewLogo)
    {
      requests := requests + [Request("GET", "/api/financing")];
      if data.Some? {
        partners := data.value;
      } else {
        toasts := toasts + [Failure("Erro ao carregar os parceiros de financiamento")];
      }
    }

    /** The add button: a blank dialog. */
    method OpenForNew()
      modifies this
      ensures currentPartner.None? && previewLogo.None? && isDialogOpen
      ensures partners == old(partners) && requests == old(requests) && toasts == old(toasts)
    {
      currentPartner := None;
      previewLogo := None;
      isDialogOpen := true;
    }

    /** The dialog's `onOpenChange(false)`: closing it (the close button, the overlay or Escape)
        changes only the open flag. */
    method CloseDialog()
      modifies this
      ensures !isDialogOpen
      ensures currentPartner == old(currentPartner) && previewLogo == old(previewLogo)
      ensures partners == old(partners) && requests == old(requests) && toasts == old(toasts)
    {
      isDialogOpen := false;
    }

    /** A partner's edit button. */
    method OpenForEdit(p: Partner)
      modifies this
      ensures currentPartner == Some(p) && previewLogo.None? && isDialogOpen
      ensures partners == old(partners) && requests == old(requests) && toasts == old(toasts)
    {
      currentPartner := Some(p);
      previewLogo := None;
      isDialogOpen := true;
    }

    /** `handleLogoChange`: `dataUrl` is what the file reader produced for the first chosen
        file, or None when no file was chosen. */
    method HandleLogoChange(dataUrl: Option<string>)
      modifies this
      ensures previewLogo == if dataUrl.Some? then dataUrl else old(previewLogo)
      ensures partners == old(partners) && isDialogOpen == old(isDialogOpen) && currentPartner == old(currentPartner)
      ensures requests == old(requests) && toasts == old(toasts)
    {
      if dataUrl.Some? {
        previewLogo := dataUrl;
      }
    }

    /** `handleSubmit`. `saved` is the partner of an ok reply, or None when the request, its
        status or its body fails. */
    method HandleSubmit(saved: Option<Partner>)
      modifies this
      ensures requests == old(requests) + [SaveRequest(old(currentPartner))]
      ensures saved.Some? ==>
        partners == AfterSave(old(partners), old(currentPartner).Some?, saved.value) &&
        !isDialogOpen && currentPartner.None? && previewLogo.None? &&
        toasts == old(toasts) + [Success(if old(currentPartner).Some? then "Parceiro atualizado com sucesso"
                                          else "Novo parceiro adicionado com sucesso")]
      ensures saved.None? ==>
        partners == old(partners) && isDialogOpen == old(isDialogOpen) &&
        currentPartner == old(currentPartner) && previewLogo == old(previewLogo) &&
        toasts == old(toasts) + [Failure("Erro ao salvar o parceiro de financiamento")]
    {
      var request := SaveRequest(currentPartner);
      requests := requests + [request];
      if saved.None? {
        toasts := toasts + [Failure("Erro ao salvar o parceiro de financiamento")];
        return;
      }
      var editing := currentPartner.Some?;
      partners := AfterSave(partners, editing, saved.value);
      isDialogOpen := false;
      currentPartner := None;
      previewLogo := None;
      toasts := toasts + [Success(if editing then "Parceiro atualizado com sucesso"
                                  else "Novo parceiro adicionado com sucesso")];
    }

    /** `handleDelete(id)`: `confirmed` is the answer to the browser's confirmation and `ok`
        whether the DELETE request succeeded. */
    method HandleDelete(id: string, confirmed: bool, ok: bool)
      modifies this
      ensures !confirmed ==> partners == old(partners) && requests == old(requests) && toasts == old(toasts)
      ensures confirmed ==> requests == old(requests) + [Request("DELETE", "/api/financing/" + id)]
      ensures confirmed && ok ==>
        partners == AfterDelete(old(partners), id) && toasts == old(toasts) + [Success("Parceiro excluído com sucesso")]
      ensures confirmed && !ok ==>
        partners == old(partners) && toasts == old(toasts) + [Failure("Erro ao excluir o parceiro de financiamento")]
      ensures isDialogOpen == old(isDialogOpen) && currentPartner == old(currentPartner) && previewLogo == old(previewLogo)
    {
      if !confirmed {
        return;
      }
      requests := requests + [Request("DELETE", "/api/financing/" + id)];
      if ok {
        partners := AfterDelete(partners, id);
        toasts := toasts + [Success("Parceiro excluído com sucesso")];
      } else {
        toasts := toasts + [Failure("Erro ao excluir o parceiro de financiamento")];
      }
    }
  }
}
