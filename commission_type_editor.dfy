/** A seller's list of commission types with inline editing (one row at a
    time, through a title buffer and a price buffer) and deletion behind a
    confirmation dialog. */
module CommissionTypeEditor {
  import opened Common
  import opened Text

  /** A commission type as the seller's own catalog endpoint returns it. */
  datatype TypeInfo = TypeInfo(title: string, price: real, id: int)

  // ------------------------------------------------------------- the rows

  /** A row either shows the type, or, in edit mode, shows inputs that
      start from the type's title and price. */
  datatype Row = EditingRow(defaultTitle: string, defaultPrice: real) | DisplayRow(title: string, price: real)

  function Rows(types: seq<TypeInfo>, editIndex: Option<nat>): seq<Row>
  {
    seq(|types|, i requires 0 <= i < |types| =>
      if editIndex == Some(i) then EditingRow(types[i].title, types[i].price)
      else DisplayRow(types[i].title, types[i].price))
  }

  datatype ListContent = NoItems(text: string) | Items(rows: seq<Row>)

  /** The list area: "No items to display" for an empty list, one row per
      type otherwise. */
  function ListView(types: seq<TypeInfo>, editIndex: Option<nat>): (content: ListContent)
    ensures content.NoItems? <==> types == []
    ensures content.NoItems? ==> content.text == "No items to display"
    ensures content.Items? ==> |content.rows| == |types|
  {
    if |types| > 0 then Items(Rows(types, editIndex)) else NoItems("No items to display")
  }

  /** A row is in edit mode exactly when its index is the edit index, so at
      most one row is; every row shows its own type's title and price. */
  lemma AtMostOneRowEditing(types: seq<TypeInfo>, editIndex: Option<nat>)
    ensures var rows := Rows(types, editIndex);
      |rows| == |types|
      && (forall i :: 0 <= i < |rows| ==> (rows[i].EditingRow? <==> editIndex == Some(i)))
      && (forall i, j :: 0 <= i < |rows| && 0 <= j < |rows| && rows[i].EditingRow? && rows[j].EditingRow? ==> i == j)
      && (forall i :: 0 <= i < |rows| ==>
            (rows[i].EditingRow? ==> rows[i] == EditingRow(types[i].title, types[i].price))
            && (rows[i].DisplayRow? ==> rows[i] == DisplayRow(types[i].title, types[i].price)))
  {
  }

  // ------------------------------------------------------ the editor state

  datatype EditorState = EditorState(
    commissionTypes: seq<TypeInfo>,
    editIndex: Option<nat>,
    commissionTitle: string,
    commissionPrice: PriceField,
    snackbarOpen: bool,
    snackbarMessage: Option<string>,
    selected: Option<int>,
    isDeleting: bool,
    requests: seq<Request>)

  function InitialEditor(): EditorState
  {
    EditorState([], None, "", PriceText(""), false, None, None, false, [])
  }

  const ListPath := "/commission_types/my_commissions"

  /** The path of one of the seller's types ("undefined" without an id). */
  function ItemPath(id: Option<int>): string
  {
    ListPath + "/" + match id
                     case Some(i) => IntToString(i)
                     case None => "undefined"
  }

  function TypesRequested(s: EditorState): EditorState
  {
    s.(requests := s.requests + [Get(ListPath)])
  }

  /** The list arrives; a failed fetch leaves it as it was. */
  function TypesReceived(s: EditorState, outcome: Outcome<seq<TypeInfo>>): EditorState
  {
    match outcome
    case Ok(list) => s.(commissionTypes := list)
    case Failed(_) => s
  }

  /** `handleEdit(index, c)`: row `index` enters edit mode with the
      buffers preloaded from `c`. */
  function EditStarted(s: EditorState, index: nat, c: TypeInfo): EditorState
  {
    s.(editIndex := Some(index), commissionTitle := c.title, commissionPrice := PriceNumber(c.price))
  }

  function TitleTyped(s: EditorState, text: string): EditorState
  {
    s.(commissionTitle := text)
  }

  function PriceTyped(s: EditorState, text: string): EditorState
  {
    s.(commissionPrice := PriceText(text))
  }

  /** Cancel leaves edit mode; the buffers keep what they hold. */
  function EditCancelled(s: EditorState): EditorState
  {
    s.(editIndex := None)
  }

  /** `handleSave(c)`: the buffers are sent for `c`'s id. */
  function Saved(s: EditorState, c: TypeInfo, outcome: Outcome<()>): EditorState
  {
    var sent := s.(requests := s.requests + [Patch(ItemPath(Some(c.id)),
                                                   TypeUpdateBody(s.commissionTitle, s.commissionPrice))]);
    match outcome
    case Ok(_) =>
      TypesRequested(sent.(snackbarMessage := Some("Updated successfully"), snackbarOpen := true,
                           editIndex := None))
    case Failed(e) =>
      sent.(snackbarOpen := true, snackbarMessage := FailureMessage(s.snackbarMessage, e))
  }

  /** `handleDeleteClick(c)`: `c`'s id is captured and the dialog opens. */
  function DeleteClicked(s: EditorState, c: TypeInfo): EditorState
  {
    s.(selected := Some(c.id), isDeleting := true)
  }

  /** `handleCloseDeleteClick`: the dialog closes; the captured id stays. */
  function DeleteDialogClosed(s: EditorState): EditorState
  {
    s.(isDeleting := false)
  }

  /** `handleDelete`: the captured id is deleted. */
  function Deleted(s: EditorState, outcome: Outcome<()>): EditorState
  {
    var sent := s.(requests := s.requests + [Delete(ItemPath(s.selected))]);
    match outcome
    case Ok(_) =>
      TypesRequested(DeleteDialogClosed(sent.(snackbarMessage := Some("Deleted successfully"),
                                              snackbarOpen := true)))
    case Failed(e) =>
      sent.(snackbarOpen := true, snackbarMessage := FailureMessage(s.snackbarMessage, e))
  }

  function SnackbarClosed(s: EditorState): EditorState
  {
    s.(snackbarOpen := false)
  }

  // ------------------------------------------ properties of the handlers

  /** Edit mode starts on the given row with the given type's title and
      price in the buffers; the list and the delete dialog are untouched. */
  lemma EditPreloadsBuffers(s: EditorState, index: nat, c: TypeInfo)
    ensures var t := EditStarted(s, index, c);
      t.editIndex == Some(index) && t.commissionTitle == c.title
      && t.commissionPrice == PriceNumber(c.price)
      && t.commissionTypes == s.commissionTypes && t.requests == s.requests
      && t.isDeleting == s.isDeleting && t.selected == s.selected
  {
  }

  /** Cancel leaves no row in edit mode and the list as it was. */
  lemma CancelLeavesListAlone(s: EditorState)
    ensures var t := EditCancelled(s);
      t.editIndex.None? && t.commissionTypes == s.commissionTypes && t.requests == s.requests
      && (forall i :: 0 <= i < |Rows(t.commissionTypes, t.editIndex)| ==>
            Rows(t.commissionTypes, t.editIndex)[i].DisplayRow?)
  {
  }

  /** Save sends what is in the buffers, not the row's own values, to the
      row's id. On success edit mode ends and the list is fetched again;
      on failure edit mode stays and the snackbar opens. */
  lemma SaveSendsBuffers(s: EditorState, c: TypeInfo, outcome: Outcome<()>)
    ensures var t := Saved(s, c, outcome);
      |t.requests| > |s.requests|
      && t.requests[|s.requests|] == Patch("/commission_types/my_commissions/" + IntToString(c.id),
                                           TypeUpdateBody(s.commissionTitle, s.commissionPrice))
      && t.snackbarOpen
      && (outcome.Ok? ==> t.editIndex.None? && t.snackbarMessage == Some("Updated successfully")
                          && t.requests == s.requests + [t.requests[|s.requests|], Get(ListPath)])
      && (outcome.Failed? ==> t.editIndex == s.editIndex && |t.requests| == |s.requests| + 1
                              && t.snackbarMessage == FailureMessage(s.snackbarMessage, outcome.error))
  {
  }

  /** Opening the dialog captures the row's id; closing it keeps the id. */
  lemma DeleteDialogCapturesId(s: EditorState, c: TypeInfo)
    ensures DeleteClicked(s, c).selected == Some(c.id) && DeleteClicked(s, c).isDeleting
    ensures var t := DeleteDialogClosed(DeleteClicked(s, c));
      !t.isDeleting && t.selected == Some(c.id) && t.requests == s.requests
  {
  }

  /** Delete targets the captured id. On success the dialog closes and the
      list is fetched again; on failure it stays open and the snackbar opens. */
  lemma DeleteTargetsCapturedId(s: EditorState, outcome: Outcome<()>)
    ensures var t := Deleted(s, outcome);
      |t.requests| > |s.requests|
      && t.requests[|s.requests|] == Delete(ItemPath(s.selected))
      && t.snackbarOpen && t.selected == s.selected && t.editIndex == s.editIndex
      && (outcome.Ok? ==> !t.isDeleting && t.snackbarMessage == Some("Deleted successfully")
                          && t.requests == s.requests + [Delete(ItemPath(s.selected)), Get(ListPath)])
      && (outcome.Failed? ==> t.isDeleting == s.isDeleting
                              && t.snackbarMessage == FailureMessage(s.snackbarMessage, outcome.error))
  {
  }

  // ------------------------------------------ what every state satisfies

  datatype EditorEvent =
    | Mount
    | ListArrived(list: Outcome<seq<TypeInfo>>)
    | EditClick(index: nat, row: TypeInfo)
    | TitleInput(title: string)
    | PriceInput(price: string)
    | CancelClick
    | SaveClick(saved: TypeInfo, outcome: Outcome<()>)
    | DeleteClick(target: TypeInfo)
    | CloseDialog
    | ConfirmDelete(outcome: Outcome<()>)
    | CloseSnackbar

  function Step(s: EditorState, e: EditorEvent): EditorState
  {
    match e
    case Mount => TypesRequested(s)
    case ListArrived(list) => TypesReceived(s, list)
    case EditClick(i, c) => EditStarted(s, i, c)
    case TitleInput(t) => TitleTyped(s, t)
    case PriceInput(p) => PriceTyped(s, p)
    case CancelClick => EditCancelled(s)
    case SaveClick(c, outcome) => Saved(s, c, outcome)
    case DeleteClick(c) => DeleteClicked(s, c)
    case CloseDialog => DeleteDialogClosed(s)
    case ConfirmDelete(outcome) => Deleted(s, outcome)
    case CloseSnackbar => SnackbarClosed(s)
  }

  function Run(s: EditorState, events: seq<EditorEvent>): EditorState
    decreases |events|
  {
    if events == [] then s else Run(Step(s, events[0]), events[1..])
  }

  /** The delete dialog is only ever open with an id captured. */
  predicate EditorInvariant(s: EditorState)
  {
    s.isDeleting ==> s.selected.Some?
  }

  lemma {:induction false} RunKeepsInvariant(s: EditorState, events: seq<EditorEvent>)
    requires EditorInvariant(s)
    ensures EditorInvariant(Run(s, events))
    decreases |events|
  {
    if events != [] {
      assert EditorInvariant(Step(s, events[0]));
      RunKeepsInvariant(Step(s, events[0]), events[1..]);
    }
  }

  /** So a delete confirmed from the open dialog names a real id, never
      ".../undefined". */
  lemma ConfirmedDeleteNamesCapturedId(events: seq<EditorEvent>, outcome: Outcome<()>)
    requires Run(InitialEditor(), events).isDeleting
    ensures var s := Run(InitialEditor(), events);
      s.selected.Some?
      && Deleted(s, outcome).requests[|s.requests|]
         == Delete("/commission_types/my_commissions/" + IntToString(s.selected.value))
  {
    RunKeepsInvariant(InitialEditor(), events);
  }

  /** The edit index is a position, not an id, and nothing but Save and
      Cancel resets it. If the row being edited has a row deleted before
      it, the refreshed list puts the next type in edit mode while the
      buffers still hold the old one's values, and Save sends them to
      the next type's id. */
  lemma EditIndexFollowsPositionNotType(a: TypeInfo, b: TypeInfo, c: TypeInfo, outcome: Outcome<()>)
    requires a.id != b.id && b.id != c.id
    ensures var editing := EditStarted(TypesReceived(InitialEditor(), Ok([a, b, c])), 1, b);
      var afterDelete := TypesReceived(Deleted(DeleteClicked(editing, a), Ok(())), Ok([b, c]));
      Rows(afterDelete.commissionTypes, afterDelete.editIndex)[1] == EditingRow(c.title, c.price)
      && afterDelete.commissionTitle == b.title
      && Saved(afterDelete, c, outcome).requests[|afterDelete.requests|]
         == Patch(ItemPath(Some(c.id)), TypeUpdateBody(b.title, PriceNumber(b.price)))
  {
  }

  // ------------------------------------------------------------- the editor

  /** The editor component, whose handlers update its fields. */
  class CommissionTypeList {
    var commissionTypes: seq<TypeInfo>
    var editIndex: Option<nat>
    var commissionTitle: string
    var commissionPrice: PriceField
    var snackbarOpen: bool
    var snackbarMessage: Option<string>
    var selected: Option<int>
    var isDeleting: bool
    var requests: seq<Request>

    function View(): EditorState
      reads this
    {
      EditorState(commissionTypes, editIndex, commissionTitle, commissionPrice, snackbarOpen,
                  snackbarMessage, selected, isDeleting, requests)
    }

    constructor ()
      ensures View() == InitialEditor()
    {
      commissionTypes := [];
      editIndex := None;
      commissionTitle := "";
      commissionPrice := PriceText("");
      snackbarOpen := false;
      snackbarMessage := None;
      selected := None;
      isDeleting := false;
      requests := [];
    }

    /** `fetchCommissionTypes`, the request half. */
    method FetchCommissionTypes()
      modifies this
      ensures View() == TypesRequested(old(View()))
    {
      requests := requests + [Get(ListPath)];
    }

    /** `fetchCommissionTypes`, the response half. */
    method ReceiveTypes(outcome: Outcome<seq<TypeInfo>>)
      modifies this
      ensures View() == TypesReceived(old(View()), outcome)
    {
      if outcome.Ok? {
        commissionTypes := outcome.value;
      }
    }

    method HandleEdit(index: nat, c: TypeInfo)
      modifies this
      ensures View() == EditStarted(old(View()), index, c)
    {
      editIndex := Some(index);
      commissionTitle := c.title;
      commissionPrice := PriceNumber(c.price);
    }

    method HandleTitleChange(text: string)
      modifies this
      ensures View() == TitleTyped(old(View()), text)
    {
      commissionTitle := text;
    }

    method HandlePriceChange(text: string)
      modifies this
      ensures View() == PriceTyped(old(View()), text)
    {
      commissionPrice := PriceText(text);
    }

    method HandleCancel()
      modifies this
      ensures View() == EditCancelled(old(View()))
    {
      editIndex := None;
    }

    method HandleSave(c: TypeInfo, outcome: Outcome<()>)
      modifies this
      ensures View() == Saved(old(View()), c, outcome)
    {
      requests := requests + [Patch(ItemPath(Some(c.id)), TypeUpdateBody(commissionTitle, commissionPrice))];
      match outcome {
        case Ok(_) =>
          snackbarMessage := Some("Updated successfully");
          snackbarOpen := true;
          editIndex := None;
          FetchCommissionTypes();
        case Failed(e) =>
          snackbarOpen := true;
          snackbarMessage := FailureMessage(snackbarMessage, e);
      }
    }

    method HandleDeleteClick(c: TypeInfo)
      modifies this
      ensures View() == DeleteClicked(old(View()), c)
    {
      selected := Some(c.id);
      isDeleting := true;
    }

    method HandleCloseDeleteClick()
      modifies this
      ensures View() == DeleteDialogClosed(old(View()))
    {
      isDeleting := false;
    }

    method HandleDelete(outcome: Outcome<()>)
      modifies this
      ensures View() == Deleted(old(View()), outcome)
    {
      requests := requests + [Delete(ItemPath(selected))];
      match outcome {
        case Ok(_) =>
          snackbarMessage := Some("Deleted successfully");
          snackbarOpen := true;
          HandleCloseDeleteClick();
          FetchCommissionTypes();
        case Failed(e) =>
          snackbarOpen := true;
          snackbarMessage := FailureMessage(snackbarMessage, e);
      }
    }

    method HandleSnackbarClose()
      modifies this
      ensures View() == SnackbarClosed(old(View()))
    {
      snackbarOpen := false;
    }
  }
}
