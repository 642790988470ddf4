/** The "My Commissions" page: one card per commission with an action
    button whose label and availability depend on the stage and the role,
    a truncated description, and a five-star rating dialog. */
module MyCommissions {
  import opened Common
  import opened Text
  import opened Domain

  // ------------------------------------------------------------ the card

  /** The action button's label. Every stage has one; an unknown stage
      shows "Pending". */
  function ActionLabel(st: StageValue): (text: string)
    ensures text == "Pending" <==> st.OtherStage?
    ensures st == Pending ==> text == "Mark as In Progress"
    ensures st == InProgress ==> text == "Mark as Complete"
    ensures st == Completed ==> text == "Rate"
  {
    match st
    case Pending => "Mark as In Progress"
    case InProgress => "Mark as Complete"
    case Completed => "Rate"
    case OtherStage(_) => "Pending"
  }

  /** The label tells the known stages apart. */
  lemma ActionLabelIdentifiesStage(a: StageValue, b: StageValue)
    requires ActionLabel(a) == ActionLabel(b)
    ensures a == b || (a.OtherStage? && b.OtherStage?)
  {
  }

  /** Read from the service's stage string, the label follows the chain of
      string comparisons on the card: "Completed" always gets "Rate". */
  lemma ActionLabelOfStageString(s: string)
    ensures ActionLabel(ParseStage(s))
      == if s == "Pending" then "Mark as In Progress"
         else if s == "InProgress" then "Mark as Complete"
         else if s == "Completed" then "Rate"
         else "Pending"
  {
  }

  /** The button's `disabled` attribute, for the session's "type" entry. */
  predicate ActionDisabled(typ: Option<string>, c: Commission)
  {
    (typ == Some("Buyer") && (c.stage == Pending || c.rating.Some?))
    || (typ == Some("Seller") && (c.stage == InProgress || c.stage == Completed))
  }

  /** Per role: a buyer cannot act on a pending or an already rated
      commission, a seller cannot act once work has started, and any other
      session can always act. */
  lemma ActionDisabledByRole(typ: Option<string>, c: Commission)
    ensures ParseRole(typ) == Buyer ==>
      (ActionDisabled(typ, c) <==> c.stage == Pending || c.rating.Some?)
    ensures ParseRole(typ) == Seller ==>
      (ActionDisabled(typ, c) <==> c.stage == InProgress || c.stage == Completed)
    ensures ParseRole(typ) == OtherRole ==> !ActionDisabled(typ, c)
  {
  }

  /** For a buyer, a commission that carries a rating can no longer be acted on. */
  lemma RatedIsDisabledForBuyer(c: Commission)
    requires c.rating.Some?
    ensures ActionDisabled(Some("Buyer"), c)
  {
  }

  /** On the three known stages the enabled actions are exactly the edges
      of the stage machine: the seller starts a pending commission, the
      buyer completes one in progress, and the buyer rates a completed,
      unrated one. */
  lemma EnabledActionsFollowStageMachine(typ: Option<string>, c: Commission)
    requires ParseRole(typ) != OtherRole && !c.stage.OtherStage?
    ensures !ActionDisabled(typ, c) <==>
      (ParseRole(typ) == Seller && c.stage == Pending)
      || (ParseRole(typ) == Buyer && c.stage == InProgress && c.rating.None?)
      || (ParseRole(typ) == Buyer && c.stage == Completed && c.rating.None?)
  {
  }

  const NotAllowedClass := "bg-gray-300 cursor-not-allowed"
  const ActiveClass := "bg-[#D8C1A9] hover:bg-[#E8D9C2] text-white"

  /** The button's colour classes, computed from its own copy of the
      condition. */
  function ActionClass(typ: Option<string>, c: Commission): string
  {
    if (typ == Some("Buyer") && (c.stage == Pending || c.rating.Some?))
       || (typ == Some("Seller") && (c.stage == InProgress || c.stage == Completed))
    then NotAllowedClass
    else ActiveClass
  }

  /** The grey "not allowed" look is shown exactly when the button is disabled. */
  lemma GreyIffDisabled(typ: Option<string>, c: Commission)
    ensures ActionClass(typ, c) == NotAllowedClass <==> ActionDisabled(typ, c)
  {
  }

  function Min(a: int, b: int): int { if a <= b then a else b }

  /** "..." as code units. */
  const Ellipsis: seq<CodeUnit> := [46, 46, 46]

  /** The description shown on a card, counted in UTF-16 code units as
      JavaScript's `length` and `slice` count: short ones (at most 15 code
      units) as they are; longer ones cut to their first 25 code units, or
      all of them when there are fewer, followed by "...". */
  function CardDescription(d: seq<CodeUnit>): (shown: seq<CodeUnit>)
    ensures |d| <= 15 ==> shown == d
    ensures |d| > 15 ==>
      |shown| == Min(|d|, 25) + 3
      && shown[..|shown| - 3] == d[..|shown| - 3]
      && shown[|shown| - 3..] == Ellipsis
    ensures |shown| <= 28
  {
    if |d| > 15 then d[..Min(|d|, 25)] + Ellipsis else d
  }

  /** Emoji count twice: eight characters outside the Basic Multilingual
      Plane are 16 code units, so they are shown whole followed by "...". */
  lemma EightEmojiAreCut(text: string)
    requires |text| == 8 && forall i :: 0 <= i < |text| ==> IsAstral(text[i])
    ensures |Utf16(text)| == 16
    ensures CardDescription(Utf16(text)) == Utf16(text) + Ellipsis
  {
    assert Utf16(text)[..16] == Utf16(text);
  }

  /** Text inside the Basic Multilingual Plane is cut after its 25th
      character, as the characters and the code units coincide. */
  lemma BmpDescriptionCutByCharacters(text: string)
    requires |text| > 15 && forall i :: 0 <= i < |text| ==> !IsAstral(text[i])
    ensures var shown := CardDescription(Utf16(text));
      |shown| == Min(|text|, 25) + 3
      && forall i :: 0 <= i < Min(|text|, 25) ==> shown[i] == text[i] as int
  {
    Utf16OfBmpText(text);
  }

  // ------------------------------------------------------- rating stars

  /** The value a star of the rating dialog sets. */
  type StarIndex = i: int | 1 <= i <= 5 witness 1

  /** Star `i` is drawn filled when the chosen rate reaches it. */
  predicate StarFilled(rate: int, i: StarIndex)
  {
    rate >= i
  }

  /** The five stars, left to right. */
  function Stars(rate: int): (stars: seq<bool>)
    ensures |stars| == 5
    ensures forall k :: 0 <= k < 5 ==> stars[k] == StarFilled(rate, k + 1)
  {
    seq(5, k requires 0 <= k < 5 => StarFilled(rate, k + 1))
  }

  function CountTrue(bs: seq<bool>): (n: nat)
    ensures n <= |bs|
  {
    if bs == [] then 0 else (if bs[0] then 1 else 0) + CountTrue(bs[1..])
  }

  /** For a rate in 1..5, exactly `rate` stars are filled, and they are the
      leftmost ones. */
  lemma {:induction false} FilledStarsMatchRate(rate: int)
    requires 1 <= rate <= 5
    ensures CountTrue(Stars(rate)) == rate
    ensures forall k :: 0 <= k < 5 ==> (Stars(rate)[k] <==> k < rate)
  {
    var st := Stars(rate);
    assert st[1..][1..][1..][1..][1..] == [];
    assert CountTrue(st[4..]) == if rate >= 5 then 1 else 0 by {
      assert st[1..][1..][1..][1..] == st[4..];
    }
    assert CountTrue(st[3..]) == (if rate >= 4 then 1 else 0) + CountTrue(st[4..]) by {
      assert st[3..][1..] == st[4..];
    }
    assert CountTrue(st[2..]) == (if rate >= 3 then 1 else 0) + CountTrue(st[3..]) by {
      assert st[2..][1..] == st[3..];
    }
    assert CountTrue(st[1..]) == (if rate >= 2 then 1 else 0) + CountTrue(st[2..]) by {
      assert st[1..][1..] == st[2..];
    }
  }

  // ----------------------------------------------------- the page state

  /** Everything the page holds, plus the requests it has sent and where
      it has navigated. */
  datatype PageState = PageState(
    commissions: seq<Commission>,
    snackbarOpen: bool,
    snackbarMessage: Option<string>,
    isRating: bool,
    selectedRating: Option<int>,
    rate: int,
    requests: seq<Request>,
    location: Option<string>)

  function InitialPage(): PageState
  {
    PageState([], false, None, false, None, 5, [], None)
  }

  const UpdatedMessage := "Updated Succesfully"
  const RatedMessage := "Commission rated successfully"

  /** The path that advances a commission: it names the stage the
      commission is in now, not the one it moves to. */
  function StagePath(st: StageValue, id: int): string
  {
    "/commission/" + StageToken(st) + "/" + IntToString(id)
  }

  /** The path that rates the selected commission ("undefined" when none
      was ever selected). */
  function RatePath(selected: Option<int>): string
  {
    "/commission/rate/" + match selected
                          case Some(id) => IntToString(id)
                          case None => "undefined"
  }

  /** The list fetch is started (on mount and after each successful change). */
  function FetchStarted(s: PageState, typ: Option<string>): PageState
  {
    s.(requests := s.requests + [Get(CommissionListPath(typ))])
  }

  /** The list fetch comes back: the list is replaced, or the page leaves
      for the not-found page. */
  function CommissionsReceived(s: PageState, outcome: Outcome<seq<Commission>>): PageState
  {
    match outcome
    case Ok(list) => s.(commissions := list)
    case Failed(_) => s.(location := Some("/not-found"))
  }

  /** `updateStage(id, stage)`: a completed commission opens the rating
      dialog for it; any other stage is sent to the service. */
  function StageUpdated(s: PageState, id: int, stage: StageValue, typ: Option<string>,
                        outcome: Outcome<()>): PageState
  {
    if stage == Completed then
      s.(selectedRating := Some(id), isRating := true)
    else
      var sent := s.(requests := s.requests + [Patch(StagePath(stage, id), NoBody)]);
      match outcome
      case Ok(_) =>
        FetchStarted(sent.(snackbarMessage := Some(UpdatedMessage), snackbarOpen := true), typ)
      case Failed(e) =>
        sent.(snackbarMessage := FailureMessage(s.snackbarMessage, e))
  }

  /** A click on a card's button: nothing when the button is disabled. */
  function CardClicked(s: PageState, typ: Option<string>, c: Commission,
                       outcome: Outcome<()>): PageState
  {
    if ActionDisabled(typ, c) then s else StageUpdated(s, c.id, c.stage, typ, outcome)
  }

  function SnackbarClosed(s: PageState): PageState
  {
    s.(snackbarOpen := false)
  }

  /** `handleCloseRate`: the dialog closes and the rate goes back to 5. */
  function RatingClosed(s: PageState): PageState
  {
    s.(isRating := false, rate := 5)
  }

  /** `handleSelectRate`: a star click chooses its value. */
  function RateSelected(s: PageState, r: StarIndex): PageState
  {
    s.(rate := r)
  }

  /** `handleRate`: the chosen rate is sent for the selected commission;
      on success the dialog closes and the list is fetched again. */
  function RateSubmitted(s: PageState, typ: Option<string>, outcome: Outcome<()>): PageState
  {
    var sent := s.(requests := s.requests + [Patch(RatePath(s.selectedRating), RatingBody(s.rate))]);
    match outcome
    case Ok(_) =>
      FetchStarted(RatingClosed(sent.(snackbarMessage := Some(RatedMessage), snackbarOpen := true)), typ)
    case Failed(e) =>
      sent.(snackbarMessage := FailureMessage(s.snackbarMessage, e))
  }

  // ------------------------------------------ properties of the updates

  /** A click on a disabled button changes nothing and sends nothing. */
  lemma DisabledClickIsIgnored(s: PageState, typ: Option<string>, c: Commission,
                               outcome: Outcome<()>)
    requires ActionDisabled(typ, c)
    ensures CardClicked(s, typ, c, outcome) == s
  {
  }

  /** A buyer's click on a rated commission never reaches the service, so
      a rating, once set, is never sent again from this page. */
  lemma RatedCommissionClickIsIgnored(s: PageState, c: Commission, outcome: Outcome<()>)
    requires c.rating.Some?
    ensures CardClicked(s, Some("Buyer"), c, outcome) == s
  {
  }

  /** `updateStage` on a completed commission sends no request: it
      selects the commission for rating, opens the dialog, and changes
      nothing else. */
  lemma CompletedStageOpensRatingDialog(s: PageState, id: int, typ: Option<string>,
                                        outcome: Outcome<()>)
    ensures var t := StageUpdated(s, id, Completed, typ, outcome);
      t.requests == s.requests
      && t.isRating && t.selectedRating == Some(id)
      && t == s.(isRating := true, selectedRating := Some(id))
  {
  }

  /** `updateStage` on any other stage sends one PATCH naming the current
      stage and the id. On success the message is "Updated Succesfully",
      the snackbar opens and the list is fetched again; on failure only the
      message may change, and the snackbar stays as it was. The dialog and
      the rate are untouched either way. */
  lemma OtherStageSendsCurrentStage(s: PageState, id: int, stage: StageValue, typ: Option<string>,
                                    outcome: Outcome<()>)
    requires stage != Completed
    ensures var t := StageUpdated(s, id, stage, typ, outcome);
      |t.requests| > |s.requests|
      && t.requests[..|s.requests|] == s.requests
      && t.requests[|s.requests|] == Patch("/commission/" + StageToken(stage) + "/" + IntToString(id), NoBody)
      && t.isRating == s.isRating && t.selectedRating == s.selectedRating && t.rate == s.rate
      && t.commissions == s.commissions
      && (outcome.Ok? ==>
            t.snackbarMessage == Some(UpdatedMessage) && t.snackbarOpen
            && t.requests == s.requests + [Patch(StagePath(stage, id), NoBody), Get(CommissionListPath(typ))])
      && (outcome.Failed? ==>
            t.snackbarOpen == s.snackbarOpen
            && t.snackbarMessage == FailureMessage(s.snackbarMessage, outcome.error)
            && t.requests == s.requests + [Patch(StagePath(stage, id), NoBody)])
  {
  }

  /** The stage segment of the PATCH path reads back as the commission's
      own stage: the request names where the commission is, not where it
      goes. */
  lemma StagePathNamesCurrentStage(st: StageValue, id: int)
    ensures var p := StagePath(st, id);
      var prefix := "/commission/" + StageToken(st) + "/";
      p[..|prefix|] == prefix && ParseStage(StageToken(st)) == st
      && ParseInt(p[|prefix|..]) == Some(id)
  {
    var prefix := "/commission/" + StageToken(st) + "/";
    var p := StagePath(st, id);
    assert p[|prefix|..] == IntToString(id);
    ParseIntOfIntToString(id);
    ParseStageToken(st);
  }

  /** Closing the dialog resets it whatever was chosen. */
  lemma CloseRateResets(s: PageState)
    ensures var t := RatingClosed(s);
      !t.isRating && t.rate == 5 && t.selectedRating == s.selectedRating
      && t.requests == s.requests && t.snackbarOpen == s.snackbarOpen
  {
  }

  /** `handleRate` sends `{rating: rate}` for the selected commission. On
      success the dialog closes with the rate back at 5 and the list is
      fetched again; on failure the dialog stays open with the rate it had. */
  lemma RateSendsChosenRate(s: PageState, typ: Option<string>, outcome: Outcome<()>)
    ensures var t := RateSubmitted(s, typ, outcome);
      |t.requests| > |s.requests|
      && t.requests[|s.requests|] == Patch(RatePath(s.selectedRating), RatingBody(s.rate))
      && t.selectedRating == s.selectedRating
      && (outcome.Ok? ==>
            !t.isRating && t.rate == 5 && t.snackbarOpen
            && t.snackbarMessage == Some(RatedMessage)
            && t.requests == s.requests + [Patch(RatePath(s.selectedRating), RatingBody(s.rate)),
                                           Get(CommissionListPath(typ))])
      && (outcome.Failed? ==>
            t.isRating == s.isRating && t.rate == s.rate && t.snackbarOpen == s.snackbarOpen
            && t.snackbarMessage == FailureMessage(s.snackbarMessage, outcome.error))
  {
  }

  // ------------------------------------------ what every state satisfies

  /** Page events, as the user and the service produce them. */
  datatype PageEvent =
    | Mount(typ: Option<string>)
    | ListArrived(list: Outcome<seq<Commission>>)
    | ClickCard(typ: Option<string>, card: Commission, outcome: Outcome<()>)
    | CloseSnackbar
    | SelectStar(star: StarIndex)
    | CancelRating
    | SubmitRating(typ: Option<string>, outcome: Outcome<()>)

  function Step(s: PageState, e: PageEvent): PageState
  {
    match e
    case Mount(typ) => FetchStarted(s, typ)
    case ListArrived(list) => CommissionsReceived(s, list)
    case ClickCard(typ, c, outcome) => CardClicked(s, typ, c, outcome)
    case CloseSnackbar => SnackbarClosed(s)
    case SelectStar(i) => RateSelected(s, i)
    case CancelRating => RatingClosed(s)
    case SubmitRating(typ, outcome) => RateSubmitted(s, typ, outcome)
  }

  function Run(s: PageState, events: seq<PageEvent>): PageState
    decreases |events|
  {
    if events == [] then s else Run(Step(s, events[0]), events[1..])
  }

  /** The rate is always one of the five star values, and the dialog is
      only ever open for a selected commission. */
  predicate PageInvariant(s: PageState)
  {
    1 <= s.rate <= 5 && (s.isRating ==> s.selectedRating.Some?)
  }

  lemma StepKeepsInvariant(s: PageState, e: PageEvent)
    requires PageInvariant(s)
    ensures PageInvariant(Step(s, e))
  {
  }

  /** Whatever happens after the page mounts, the invariant holds. */
  lemma {:induction false} RunKeepsInvariant(s: PageState, events: seq<PageEvent>)
    requires PageInvariant(s)
    ensures PageInvariant(Run(s, events))
    decreases |events|
  {
    if events != [] {
      StepKeepsInvariant(s, events[0]);
      RunKeepsInvariant(Step(s, events[0]), events[1..]);
    }
  }

  /** So a rating sent from the open dialog always targets a selected
      commission (never the path ".../rate/undefined") and carries a value
      in 1..5. */
  lemma {:induction false} DialogRatesSelectedCommission(events: seq<PageEvent>,
                                                          typ: Option<string>, outcome: Outcome<()>)
    requires Run(InitialPage(), events).isRating
    ensures var s := Run(InitialPage(), events);
      var t := RateSubmitted(s, typ, outcome);
      s.selectedRating.Some?
      && t.requests[|s.requests|] == Patch("/commission/rate/" + IntToString(s.selectedRating.value),
                                           RatingBody(s.rate))
      && 1 <= s.rate <= 5
  {
    RunKeepsInvariant(InitialPage(), events);
  }

  // ------------------------------------------------------------- the page

  /** The page component, whose handlers update its fields. */
  class MyCommissionsPage {
    var commissions: seq<Commission>
    var snackbarOpen: bool
    var snackbarMessage: Option<string>
    var isRating: bool
    var selectedRating: Option<int>
    var rate: int
    var requests: seq<Request>
    var location: Option<string>

    function View(): PageState
      reads this
    {
      PageState(commissions, snackbarOpen, snackbarMessage, isRating, selectedRating,
                rate, requests, location)
    }

    constructor ()
      ensures View() == InitialPage()
    {
      commissions := [];
      snackbarOpen := false;
      snackbarMessage := None;
      isRating := false;
      selectedRating := None;
      rate := 5;
      requests := [];
      location := None;
    }

    /** `fetchData`, the request half: the role-scoped list is asked for. */
    method FetchData(typ: Option<string>)
      modifies this
      ensures View() == FetchStarted(old(View()), typ)
    {
      requests := requests + [Get(CommissionListPath(typ))];
    }

    /** `fetchData`, the response half. */
    method ReceiveCommissions(outcome: Outcome<seq<Commission>>)
      modifies this
      ensures View() == CommissionsReceived(old(View()), outcome)
    {
      match outcome {
        case Ok(list) => commissions := list;
        case Failed(_) => location := Some("/not-found");
      }
    }

    method UpdateStage(id: int, stage: StageValue, typ: Option<string>, outcome: Outcome<()>)
      modifies this
      ensures View() == StageUpdated(old(View()), id, stage, typ, outcome)
    {
      if stage == Completed {
        selectedRating := Some(id);
        isRating := true;
      } else {
        requests := requests + [Patch(StagePath(stage, id), NoBody)];
        match outcome {
          case Ok(_) =>
            snackbarMessage := Some(UpdatedMessage);
            snackbarOpen := true;
            FetchData(typ);
          case Failed(e) =>
            snackbarMessage := FailureMessage(snackbarMessage, e);
        }
      }
    }

    /** The card button's click, which only fires when it is enabled. */
    method ClickAction(typ: Option<string>, c: Commission, outcome: Outcome<()>)
      modifies this
      ensures View() == CardClicked(old(View()), typ, c, outcome)
    {
      if !ActionDisabled(typ, c) {
        UpdateStage(c.id, c.stage, typ, outcome);
      }
    }

    method HandleSnackbarClose()
      modifies this
      ensures View() == SnackbarClosed(old(View()))
    {
      snackbarOpen := false;
    }

    method HandleCloseRate()
      modifies this
      ensures View() == RatingClosed(old(View()))
    {
      isRating := false;
      rate := 5;
    }

    method HandleSelectRate(r: StarIndex)
      modifies this
      ensures View() == RateSelected(old(View()), r)
    {
      rate := r;
    }

    method HandleRate(typ: Option<string>, outcome: Outcome<()>)
      modifies this
      ensures View() == RateSubmitted(old(View()), typ, outcome)
    {
      requests := requests + [Patch(RatePath(selectedRating), RatingBody(rate))];
      match outcome {
        case Ok(_) =>
          snackbarMessage := Some(RatedMessage);
          snackbarOpen := true;
          HandleCloseRate();
          FetchData(typ);
        case Failed(e) =>
          snackbarMessage := FailureMessage(snackbarMessage, e);
      }
    }
  }
}
