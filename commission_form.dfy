/** The commission request form on a seller's page: a select over the
    seller's commission types, a free-text description, and a Send button
    that is enabled once a type is selected. */
module CommissionForm {
  import opened Common
  import opened Text

  /** A commission type as the catalog endpoint returns it (its time
      stamps are not used by the form and are not modelled). */
  datatype CommissionTypeOffer = CommissionTypeOffer(id: int, title: string, price: string, sellerId: int)

  // ------------------------------------------------------- the selection

  /** `types.find(t => t.id === id)`: the first type with that id. A value
      that does not parse (NaN) equals no id. */
  function FindType(types: seq<CommissionTypeOffer>, id: Option<int>): (found: Option<CommissionTypeOffer>)
    ensures found.Some? ==> id.Some? && found.value in types && found.value.id == id.value
    ensures found.None? <==> id.None? || forall k :: 0 <= k < |types| ==> types[k].id != id.value
  {
    if id.None? || types == [] then None
    else if types[0].id == id.value then Some(types[0])
    else FindType(types[1..], id)
  }

  /** It is the first match: the type at the first position holding the id. */
  lemma {:induction false} FindTypeIsFirst(types: seq<CommissionTypeOffer>, id: int, k: nat)
    requires k < |types| && types[k].id == id
    requires forall j :: 0 <= j < k ==> types[j].id != id
    ensures FindType(types, Some(id)) == Some(types[k])
  {
    if k > 0 {
      FindTypeIsFirst(types[1..], id, k - 1);
    }
  }

  /** An entry of the select. */
  datatype SelectOption = SelectOption(value: string, disabled: bool)

  /** A disabled placeholder with value "", then one option per type in
      list order, its value the type's id. */
  function SelectOptions(types: seq<CommissionTypeOffer>): seq<SelectOption>
  {
    [SelectOption("", true)] + seq(|types|, k requires 0 <= k < |types| => SelectOption(IntToString(types[k].id), false))
  }

  predicate UniqueIds(types: seq<CommissionTypeOffer>)
  {
    forall j, k :: 0 <= j < k < |types| ==> types[j].id != types[k].id
  }

  /** Choosing the option of the type at position `k` selects the first
      type with that id, which is that very type when ids are unique. The
      placeholder can never be chosen, and its value selects nothing. */
  lemma ChoosingOptionSelectsType(types: seq<CommissionTypeOffer>, k: nat)
    requires k < |types|
    ensures |SelectOptions(types)| == |types| + 1
    ensures SelectOptions(types)[0] == SelectOption("", true)
    ensures FindType(types, ParseInt(SelectOptions(types)[0].value)) == None
    ensures !SelectOptions(types)[k + 1].disabled
    ensures var found := FindType(types, ParseInt(SelectOptions(types)[k + 1].value));
      found.Some? && found.value.id == types[k].id
    ensures UniqueIds(types) ==>
      FindType(types, ParseInt(SelectOptions(types)[k + 1].value)) == Some(types[k])
  {
    ParseIntOfIntToString(types[k].id);
    assert SelectOptions(types)[k + 1].value == IntToString(types[k].id);
    if UniqueIds(types) {
      FindTypeIsFirst(types, types[k].id, k);
    }
  }

  /** The select's value: `selected?.id || ""`, so no selection, and also
      a selected type whose id is 0, shows the placeholder. */
  function SelectValue(selected: Option<CommissionTypeOffer>): (value: string)
    ensures value == "" <==> selected.None? || selected.value.id == 0
    ensures value != "" ==> ParseInt(value) == Some(selected.value.id)
  {
    match selected
    case None => ""
    case Some(t) =>
      ParseIntOfIntToString(t.id);
      if t.id == 0 then "" else IntToString(t.id)
  }

  /** The Send button is disabled while no type is selected. */
  predicate SendDisabled(selected: Option<CommissionTypeOffer>)
  {
    selected.None?
  }

  /** The create request's body: the selected type's id (dropped when
      nothing is selected) and the description as typed. */
  function RequestBody(selected: Option<CommissionTypeOffer>, description: string): (body: Body)
    ensures body.CreateBody? && body.description == description
    ensures body.commissionTypeId.Some? <==> selected.Some?
    ensures selected.Some? ==> body.commissionTypeId.value == selected.value.id
  {
    CreateBody(match selected
               case Some(t) => Some(t.id)
               case None => None,
               description)
  }

  /** What the form area shows. */
  datatype FormContent = FormShown | NoTypesMessage(text: string)

  function Content(types: seq<CommissionTypeOffer>): (content: FormContent)
    ensures content.FormShown? <==> |types| > 0
    ensures content.NoTypesMessage? ==> content.text == "No commission types available."
  {
    if |types| > 0 then FormShown else NoTypesMessage("No commission types available.")
  }

  // -------------------------------------------------------- the form state

  datatype FormState = FormState(
    commissionTypes: seq<CommissionTypeOffer>,
    selected: Option<CommissionTypeOffer>,
    description: string,
    snackbarOpen: bool,
    snackbarMessage: Option<string>,
    requests: seq<Request>,
    location: Option<string>)

  function InitialForm(): FormState
  {
    FormState([], None, "", false, None, [], None)
  }

  const SentMessage := "Commission Sent and Artist Notified"

  /** The catalog of the seller named in the route is asked for. */
  function TypesRequested(s: FormState, username: string): FormState
  {
    s.(requests := s.requests + [Get("/commission_types/" + username)])
  }

  /** The catalog arrives; a failed fetch leaves the list as it was. */
  function TypesReceived(s: FormState, outcome: Outcome<seq<CommissionTypeOffer>>): FormState
  {
    match outcome
    case Ok(list) => s.(commissionTypes := list)
    case Failed(_) => s
  }

  /** `handleSelectChange`: the option's value is parsed and looked up. */
  function SelectionChanged(s: FormState, value: string): FormState
  {
    s.(selected := FindType(s.commissionTypes, ParseInt(value)))
  }

  function DescriptionChanged(s: FormState, text: string): FormState
  {
    s.(description := text)
  }

  /** `sendCommission`: the create request goes out; on success the
      snackbar confirms and the view moves to the commission list, on
      failure the snackbar opens with the server's error when there is one. */
  function CommissionSent(s: FormState, outcome: Outcome<()>): FormState
  {
    var sent := s.(requests := s.requests + [Post("/commission/create", RequestBody(s.selected, s.description))]);
    match outcome
    case Ok(_) => sent.(snackbarOpen := true, snackbarMessage := Some(SentMessage), location := Some("/commissions"))
    case Failed(e) => sent.(snackbarOpen := true, snackbarMessage := FailureMessage(s.snackbarMessage, e))
  }

  function SnackbarClosed(s: FormState): FormState
  {
    s.(snackbarOpen := false)
  }

  // ------------------------------------------------ properties of the form

  /** The form starts with no selection, an empty description, and Send
      disabled. */
  lemma InitialFormIsBlank()
    ensures InitialForm().selected.None? && InitialForm().description == ""
    ensures SendDisabled(InitialForm().selected)
  {
  }

  /** Sending from an enabled button carries the selected type's id and
      the description verbatim. */
  lemma EnabledSendCarriesSelection(s: FormState, outcome: Outcome<()>)
    requires !SendDisabled(s.selected)
    ensures var t := CommissionSent(s, outcome);
      |t.requests| == |s.requests| + 1
      && t.requests[|s.requests|] == Post("/commission/create",
                                          CreateBody(Some(s.selected.value.id), s.description))
  {
  }

  /** Success confirms and navigates to /commissions; failure opens the
      snackbar and keeps the selection, the description and the view. */
  lemma SendOutcome(s: FormState, outcome: Outcome<()>)
    ensures var t := CommissionSent(s, outcome);
      t.snackbarOpen && t.selected == s.selected && t.description == s.description
      && t.commissionTypes == s.commissionTypes
      && (outcome.Ok? ==> t.snackbarMessage == Some(SentMessage) && t.location == Some("/commissions"))
      && (outcome.Failed? ==> t.location == s.location
                              && t.snackbarMessage == FailureMessage(s.snackbarMessage, outcome.error))
  {
  }

  /** Selecting a type's option and sending names that type in the body. */
  lemma SelectThenSend(s: FormState, k: nat, outcome: Outcome<()>)
    requires k < |s.commissionTypes| && UniqueIds(s.commissionTypes)
    ensures var chosen := SelectionChanged(s, SelectOptions(s.commissionTypes)[k + 1].value);
      !SendDisabled(chosen.selected)
      && CommissionSent(chosen, outcome).requests[|s.requests|]
         == Post("/commission/create", CreateBody(Some(s.commissionTypes[k].id), s.description))
  {
    ChoosingOptionSelectsType(s.commissionTypes, k);
  }

  // --------------------------------------------------------------- the form

  /** The form component, whose handlers update its fields. */
  class CommissionRequestForm {
    var commissionTypes: seq<CommissionTypeOffer>
    var selected: Option<CommissionTypeOffer>
    var description: string
    var snackbarOpen: bool
    var snackbarMessage: Option<string>
    var requests: seq<Request>
    var location: Option<string>

    function View(): FormState
      reads this
    {
      FormState(commissionTypes, selected, description, snackbarOpen, snackbarMessage,
                requests, location)
    }

    constructor ()
      ensures View() == InitialForm()
    {
      commissionTypes := [];
      selected := None;
      description := "";
      snackbarOpen := false;
      snackbarMessage := None;
      requests := [];
      location := None;
    }

    /** The catalog fetch, the request half (on mount and when the route's
        seller changes). */
    method FetchData(username: string)
      modifies this
      ensures View() == TypesRequested(old(View()), username)
    {
      requests := requests + [Get("/commission_types/" + username)];
    }

    /** The catalog fetch, the response half. */
    method ReceiveTypes(outcome: Outcome<seq<CommissionTypeOffer>>)
      modifies this
      ensures View() == TypesReceived(old(View()), outcome)
    {
      if outcome.Ok? {
        commissionTypes := outcome.value;
      }
    }

    method HandleSelectChange(value: string)
      modifies this
      ensures View() == SelectionChanged(old(View()), value)
    {
      var selectedId := ParseInt(value);
      selected := FindType(commissionTypes, selectedId);
    }

    method HandleDescriptionChange(text: string)
      modifies this
      ensures View() == DescriptionChanged(old(View()), text)
    {
      description := text;
    }

    method SendCommission(outcome: Outcome<()>)
      modifies this
      ensures View() == CommissionSent(old(View()), outcome)
    {
      requests := requests + [Post("/commission/create", RequestBody(selected, description))];
      match outcome {
        case Ok(_) =>
          snackbarOpen := true;
          snackbarMessage := Some(SentMessage);
          location := Some("/commissions");
        case Failed(e) =>
          snackbarOpen := true;
          snackbarMessage := FailureMessage(snackbarMessage, e);
      }
    }

    method HandleSnackbarClose()
      modifies this
      ensures View() == SnackbarClosed(old(View()))
    {
      snackbarOpen := false;
    }
  }
}
