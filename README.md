# Camay front end: commission pages, header, breadcrumbs — a Dafny model

Camay is a marketplace where buyers commission artwork from sellers
(artists). This project models the logic of its React client's commission
workflow:

- **My Commissions page** (`MyCommissions`): each commission card has an
  action button. Its label depends on the stage, and whether it is enabled
  depends on the role stored in the session and on the stage. The card
  shows a truncated description. A five-star rating dialog is opened by the
  "Rate" action. The handlers `updateStage`, `handleSelectRate`,
  `handleCloseRate` and `handleRate` are state transitions.
- **Header** (`Header`): the logged-in flag and the buyer/seller flag come
  from the session store. The badge counts the commissions that are not
  completed. There is a mobile menu toggle, and logout clears the session.
- **Breadcrumbs** (`PageIndicator`): the path is split on "/" and empty
  pieces are dropped. Each segment gets a cumulative URL and a capitalised
  display name; paths not under artists/products get two fixed links.
- **Commission request form** (`CommissionForm`): a select over the
  seller's commission types, looked up by parsed id. Send is gated on a
  selection. The request body and the outcome handling are modelled.
- **Commission-type editor** (`CommissionTypeEditor`): one row at a time is
  edited through title and price buffers. A delete-confirmation dialog acts
  on a captured id.

Supporting modules:

- `Common`: options, call outcomes, request bodies and requests.
- `Text`: ASCII case mapping, decimal rendering and JavaScript-style
  `parseInt`.
- `Domain`: stages, roles, the commission record and the role-scoped list
  path.

Each stateful component is modelled twice:

- as a pure state datatype with one transition function per handler; the
  lemmas are stated about these;
- as a `class` whose fields are the component's state. Each method states
  that its new `View()` is the transition applied to the old one.

Network calls do not happen in the model. Each request is appended to a
`requests` field, and its result comes in as an `Outcome` parameter:

- `Ok` for success.
- `Failed(Some(m))` for an error response whose body carries an `error`
  field `m`.
- `Failed(None)` for an error response without an `error` field, or for
  no response at all. In that case the handler throws before it sets a
  message, so the message is left as it was.

A commission's stage is read from the service's string (`ParseStage`), so
"Completed" is always the `Completed` stage and never an unknown one.

Reads of `localStorage` (the session's `type` entry) are parameters.
Navigation is a recorded `location`.

Where the source behaves oddly, the model follows the code:

- In `updateStage` and `handleRate`, a failure sets the snackbar message
  but never opens the snackbar. The form's send handler and the editor's
  save and delete handlers do open it on failure.
- The stage PATCH names the commission's current stage, not the next one.
- An unknown stage gets the label "Pending".
- Descriptions of 16 to 25 UTF-16 code units are shown whole followed by
  "...". Lengths are counted in code units, as JavaScript counts them, so
  an emoji counts twice (`EightEmojiAreCut`).
- The success message "Updated Succesfully" is kept with the source's
  spelling.
- The form's select shows the placeholder when the selected type's id
  is 0 (`selectedCommission?.id || ""`).
- The editor's `editIndex` is a row position and is not adjusted when the
  list is fetched again (`EditIndexFollowsPositionNotType`).

## Model

| member | source | states |
|---|---|---|
| Common.FailureMessage | src/components/CommissionType.tsx:84-93 | after a failed call the message is the server's `error` text when there is one, otherwise the message already shown |
| Text.UpperChar | src/utils/pageindicator.tsx:13 | lower-case ASCII letters become upper-case, every other character is unchanged, and lower-casing cannot tell the result from the input |
| Text.ToLower | src/pages/MyCommissions.tsx:31 | `toLowerCase` keeps the length and lower-cases each character |
| Text.LowerChar | src/pages/MyCommissions.tsx:31 | upper-case ASCII letters become lower-case and every other character is unchanged |
| Text.NatToString | src/pages/MyCommissions.tsx:63 | the decimal rendering of a natural number is non-empty, all digits, and has no leading zero |
| Text.IntToString | src/pages/MyCommissions.tsx:63 | an id interpolated into a path is non-empty and starts with "-" exactly for negative numbers |
| Text.DigitRun | src/components/Commission.tsx:42 | `parseInt` reads the maximal run of leading digits |
| Text.ParseUnsigned | src/components/Commission.tsx:42 | an unsigned parse fails exactly on input that is empty or does not start with a digit |
| Text.ParseInt | src/components/Commission.tsx:42 | `parseInt` gives a number exactly when the text starts with a digit, or with "-" or "+" followed by a digit, and NaN otherwise; unsigned text gives a non-negative number and "-" a non-positive one; every rendered id reads back (`ParseIntOfIntToString`) |
| Text.DigitsValue | src/components/Commission.tsx:42 | the value of a digit string; every decimal rendering reads back to its number (`DigitsValueOfNatToString`) |
| Text.DigitsValueOfNatToString | src/pages/MyCommissions.tsx:63 | reading back the digits of a rendered natural gives the number |
| Text.DigitRunOfAllDigits | src/components/Commission.tsx:42 | on an all-digit string the digit run is the whole string |
| Text.ParseIntOfIntToString | src/components/Commission.tsx:42 | `parseInt` of a rendered id gives the id back, for every integer |
| Text.IntToStringInjective | src/components/Commission.tsx:97 | distinct ids render to distinct option values |
| Text.Utf16Char | src/pages/MyCommissions.tsx:183-185 | a character outside the Basic Multilingual Plane takes two code units; any other takes one, its own code |
| Text.AstralCount | src/pages/MyCommissions.tsx:183-185 | the number of two-unit characters is at most the length, 0 iff no character needs two units, and the length iff all do |
| Text.Utf16 | src/pages/MyCommissions.tsx:183-185 | a string's JavaScript `length` is its number of characters plus one per character outside the Basic Multilingual Plane |
| Text.Utf16OfBmpText | src/pages/MyCommissions.tsx:183-185 | inside the Basic Multilingual Plane the code units are exactly the characters |
| Domain.StageToken | src/pages/MyCommissions.tsx:63 | a known stage's token is one of the three known strings; an unknown stage's token is the string it came with |
| Domain.ParseStage | src/pages/MyCommissions.tsx:14 | reading a stage string keeps the string, and falls through to OtherStage exactly for strings other than the three known stages |
| Domain.ParseStageToken | src/pages/MyCommissions.tsx:63 | every stage a commission can carry reads back from its token, so stages and stage strings determine each other |
| Domain.CompletedIffCompletedString | src/components/Header.tsx:59 | a stage read from a string is Completed, Pending or InProgress exactly when the string is "Completed", "Pending" or "InProgress" |
| Domain.ParseRole | src/pages/MyCommissions.tsx:163-168 | the role is Buyer exactly for "Buyer" and Seller exactly for "Seller"; anything else, including a missing entry, is neither |
| Domain.CommissionListPath | src/pages/MyCommissions.tsx:29-31 | the list path is /commission/buyer for a buyer, /commission/seller for a seller, and /commission/undefined without a session type |
| MyCommissions.ActionLabel | src/pages/MyCommissions.tsx:174-180 | Pending→"Mark as In Progress", InProgress→"Mark as Complete", Completed→"Rate", and "Pending" exactly for any other stage |
| MyCommissions.ActionLabelIdentifiesStage | src/pages/MyCommissions.tsx:174-180 | two stages with the same label are equal unless both are unknown |
| MyCommissions.ActionLabelOfStageString | src/pages/MyCommissions.tsx:174-180 | for the service's stage string the label is the source's comparison chain: "Completed" gives "Rate", and any unknown string gives "Pending" |
| MyCommissions.ActionDisabled | src/pages/MyCommissions.tsx:162-169 | the `disabled` condition; `ActionDisabledByRole` and `EnabledActionsFollowStageMachine` characterise it per role |
| MyCommissions.ActionDisabledByRole | src/pages/MyCommissions.tsx:162-169 | for a buyer the button is disabled iff the stage is Pending or there is a rating; for a seller iff the stage is InProgress or Completed; for any other role never |
| MyCommissions.RatedIsDisabledForBuyer | src/pages/MyCommissions.tsx:163-165 | a rated commission is always disabled for a buyer |
| MyCommissions.EnabledActionsFollowStageMachine | src/pages/MyCommissions.tsx:162-169 | on known stages and roles, the enabled actions are exactly: seller on Pending, buyer on an unrated InProgress or Completed |
| MyCommissions.GreyIffDisabled | src/pages/MyCommissions.tsx:152-169 | the grey "not-allowed" class is applied exactly when the button is disabled |
| MyCommissions.ActionClass | src/pages/MyCommissions.tsx:152-161 | the colour classes, computed from their own copy of the condition; grey exactly when disabled (`GreyIffDisabled`) |
| MyCommissions.CardDescription | src/pages/MyCommissions.tsx:183-190 | counted in UTF-16 code units, a description of at most 15 is shown unchanged, and a longer one as its first min(25, length) code units followed by "...", never more than 28 |
| MyCommissions.EightEmojiAreCut | src/pages/MyCommissions.tsx:183-185 | eight emoji are 16 code units, so they are shown whole followed by "..." |
| MyCommissions.BmpDescriptionCutByCharacters | src/pages/MyCommissions.tsx:183-185 | for text inside the Basic Multilingual Plane the cut keeps the first min(25, length) characters |
| MyCommissions.Stars | src/pages/MyCommissions.tsx:239-345 | there are five stars, and star i is filled iff rate ≥ i |
| MyCommissions.FilledStarsMatchRate | src/pages/MyCommissions.tsx:239-345 | for a rate in 1..5 exactly `rate` stars are filled, and they are the leftmost ones |
| MyCommissions.StagePath | src/pages/MyCommissions.tsx:63 | /commission/{stage}/{id}; its segments read back as the commission's own stage and id (`StagePathNamesCurrentStage`) |
| MyCommissions.RatePath | src/pages/MyCommissions.tsx:99 | /commission/rate/{selectedRating}, with "undefined" when nothing is selected; from an open dialog it always names an id (`DialogRatesSelectedCommission`) |
| MyCommissions.FetchStarted | src/pages/MyCommissions.tsx:27-37 | the role-scoped list request is appended |
| MyCommissions.CommissionsReceived | src/pages/MyCommissions.tsx:39-48 | the list is replaced, or the page goes to /not-found |
| MyCommissions.StageUpdated | src/pages/MyCommissions.tsx:55-84 | updateStage; `CompletedStageOpensRatingDialog` and `OtherStageSendsCurrentStage` state both branches and both outcomes |
| MyCommissions.CardClicked | src/pages/MyCommissions.tsx:162-172 | a click on the card button, ignored when it is disabled (`DisabledClickIsIgnored`) |
| MyCommissions.SnackbarClosed | src/pages/MyCommissions.tsx:86-88 | handleSnackbarClose; only the snackbar closes |
| MyCommissions.RatingClosed | src/pages/MyCommissions.tsx:90-93 | handleCloseRate; `CloseRateResets` states its effect |
| MyCommissions.RateSelected | src/pages/MyCommissions.tsx:122-124 | handleSelectRate with a star's value in 1..5, which keeps the invariant (`StepKeepsInvariant`) |
| MyCommissions.RateSubmitted | src/pages/MyCommissions.tsx:95-120 | handleRate; `RateSendsChosenRate` states both outcomes |
| MyCommissions.DisabledClickIsIgnored | src/pages/MyCommissions.tsx:162-172 | a click on a disabled button changes nothing and sends nothing |
| MyCommissions.RatedCommissionClickIsIgnored | src/pages/MyCommissions.tsx:163-172 | a buyer's click on a rated commission never reaches the service |
| MyCommissions.CompletedStageOpensRatingDialog | src/pages/MyCommissions.tsx:58-60 | updateStage on Completed sends nothing and only sets selectedRating to the id and opens the dialog |
| MyCommissions.OtherStageSendsCurrentStage | src/pages/MyCommissions.tsx:61-83 | any other stage PATCHes /commission/{current stage}/{id}; success sets "Updated Succesfully", opens the snackbar and refetches; failure sets the message and leaves the snackbar as it was |
| MyCommissions.StagePathNamesCurrentStage | src/pages/MyCommissions.tsx:63 | the PATCH path's stage and id segments read back as the commission's own stage and id |
| MyCommissions.CloseRateResets | src/pages/MyCommissions.tsx:90-93 | handleCloseRate closes the dialog and resets the rate to 5, keeping the selection |
| MyCommissions.RateSendsChosenRate | src/pages/MyCommissions.tsx:95-120 | handleRate sends {rating: rate} for selectedRating; success closes the dialog with rate 5 and refetches; failure keeps the dialog open with its rate |
| MyCommissions.StepKeepsInvariant | src/pages/MyCommissions.tsx:25 | every handler keeps the rate in 1..5 and the dialog open only with a selected commission |
| MyCommissions.RunKeepsInvariant | src/pages/MyCommissions.tsx:25 | the invariant holds after any sequence of events |
| MyCommissions.DialogRatesSelectedCommission | src/pages/MyCommissions.tsx:95-106 | from any reachable state with the dialog open, the rating request names a real id and carries a rate in 1..5 |
| MyCommissions.MyCommissionsPage.constructor | src/pages/MyCommissions.tsx:20-25 | the page starts with no commissions, a closed dialog and rate 5 |
| MyCommissions.MyCommissionsPage.FetchData | src/pages/MyCommissions.tsx:27-37 | the list request for the session's role is sent |
| MyCommissions.MyCommissionsPage.ReceiveCommissions | src/pages/MyCommissions.tsx:39-48 | the list is replaced, or on failure the page navigates to /not-found |
| MyCommissions.MyCommissionsPage.UpdateStage | src/pages/MyCommissions.tsx:55-84 | the fields change as the stage transition says |
| MyCommissions.MyCommissionsPage.ClickAction | src/pages/MyCommissions.tsx:162-172 | a click does nothing when disabled, otherwise runs updateStage |
| MyCommissions.MyCommissionsPage.HandleSnackbarClose | src/pages/MyCommissions.tsx:86-88 | the snackbar closes |
| MyCommissions.MyCommissionsPage.HandleCloseRate | src/pages/MyCommissions.tsx:90-93 | the dialog closes and the rate is 5 |
| MyCommissions.MyCommissionsPage.HandleSelectRate | src/pages/MyCommissions.tsx:122-124 | the rate becomes the clicked star's value |
| MyCommissions.MyCommissionsPage.HandleRate | src/pages/MyCommissions.tsx:95-120 | the fields change as the rating transition says |
| Header.NotCompleted | src/components/Header.tsx:58-60 | the filter; it keeps exactly the commissions that are not Completed (`NotCompletedMembers`) and distributes over concatenation (`NotCompletedAppend`) |
| Header.BadgeCount | src/components/Header.tsx:57-62 | the filtered list's length, equal to the number of open positions (`BadgeCountCountsOpenCommissions`) |
| Header.NotCompletedMembers | src/components/Header.tsx:58-60 | the filter keeps exactly the commissions whose stage is not Completed |
| Header.NotCompletedAppend | src/components/Header.tsx:58-60 | filtering distributes over concatenation |
| Header.BadgeCountAppend | src/components/Header.tsx:57-62 | the count of a concatenation is the sum of the counts |
| Header.BadgeCountCountsOpenCommissions | src/components/Header.tsx:57-62 | the badge count equals the number of positions holding a commission that is not Completed |
| Header.BadgeCountBounds | src/components/Header.tsx:57-62 | the count is 0 for an empty list, at most the length, equal to it iff nothing is Completed, and 0 iff everything is |
| Header.Truthy | src/components/Header.tsx:33-37 | a token is truthy when it is present and not empty |
| Header.Mounted | src/components/Header.tsx:29-55 | the mount effect; `MountedFlags` states the flags it derives |
| Header.CommissionsReceived | src/components/Header.tsx:57-65 | the list response; `ReceivedCountIsOpenCommissions` states the count |
| Header.MenuToggled | src/components/Header.tsx:25-27 | toggleMenu; `ToggleTwiceRestores` |
| Header.LoggedOut | src/components/Header.tsx:71-78 | handleLogout; `LogoutClearsSession` |
| Header.SnackbarClosed | src/components/Header.tsx:80-82 | handleSnackbarClose; only the snackbar closes |
| Header.Badge | src/components/Header.tsx:165 | the badge link is shown iff the type flag is set, with the commission count |
| Header.MountedFlags | src/components/Header.tsx:29-43 | logged in iff a non-empty token is stored; the flag is set for Buyer, cleared for Seller, and kept otherwise |
| Header.FreshHeaderBadge | src/components/Header.tsx:22 | on a fresh header only a seller session hides the badge |
| Header.ReceivedCountIsOpenCommissions | src/components/Header.tsx:57-65 | after the list arrives the count is the number of non-Completed commissions (0 for an empty list); a failed fetch changes nothing |
| Header.ToggleTwiceRestores | src/components/Header.tsx:25-27 | the toggle negates the menu flag, and two toggles restore the header |
| Header.LogoutClearsSession | src/components/Header.tsx:71-78 | logout empties the session store, shows "Logout successful" and schedules /login |
| Header.HeaderComponent.constructor | src/components/Header.tsx:18-23 | the header starts logged out, with the flag set and count 0 |
| Header.HeaderComponent.Mount | src/components/Header.tsx:29-55 | the fields change as the mount effect says and the list request is sent |
| Header.HeaderComponent.ReceiveCommissions | src/components/Header.tsx:57-65 | the count becomes the badge count, or is unchanged on failure |
| Header.HeaderComponent.ToggleMenu | src/components/Header.tsx:25-27 | the menu flag is negated |
| Header.HeaderComponent.HandleLogout | src/components/Header.tsx:71-78 | the session is cleared, with the message and the scheduled navigation |
| Header.HeaderComponent.HandleSnackbarClose | src/components/Header.tsx:80-82 | the snackbar closes |
| PageIndicator.Split | src/utils/pageindicator.tsx:6-7 | `split` gives at least one piece, and no piece contains the separator |
| PageIndicator.Join | src/utils/pageindicator.tsx:12 | `join`, which undoes `split` (`JoinSplit`) and grows by one separator per part (`JoinSnoc`) |
| PageIndicator.JoinSplit | src/utils/pageindicator.tsx:6-7 | joining the pieces of a split with the separator gives the string back |
| PageIndicator.JoinSnoc | src/utils/pageindicator.tsx:12 | joining one more part appends the separator and the part |
| PageIndicator.NonEmpty | src/utils/pageindicator.tsx:8 | the truthiness filter (`NonEmptyMembers`, `NonEmptyAppend`, `ConcatNonEmpty`) |
| PageIndicator.Segments | src/utils/pageindicator.tsx:6-8 | split on "/" and filtered (`SegmentsAreProper`, `SegmentsSpellPath`) |
| PageIndicator.NonEmptyMembers | src/utils/pageindicator.tsx:8 | the filter keeps exactly the non-empty pieces |
| PageIndicator.NonEmptyAppend | src/utils/pageindicator.tsx:8 | the filter keeps order and multiplicity: filtering a concatenation concatenates the filtered halves |
| PageIndicator.NonEmptySnoc | src/utils/pageindicator.tsx:8 | a piece added at the end is kept, at the end, exactly when it is non-empty |
| PageIndicator.NonEmptyOfNonEmpty | src/utils/pageindicator.tsx:8 | a list with no empty piece is left unchanged by the filter |
| PageIndicator.SegmentsAreProper | src/utils/pageindicator.tsx:6-8 | the segments are exactly the non-empty pieces of the path; none is empty or contains "/" |
| PageIndicator.ConcatNonEmpty | src/utils/pageindicator.tsx:8 | dropping empty pieces loses no characters |
| PageIndicator.ConcatSplit | src/utils/pageindicator.tsx:6-7 | the pieces of a split on "/" spell the path without its slashes |
| PageIndicator.SegmentsSpellPath | src/utils/pageindicator.tsx:6-8 | the segments, in order, spell the path without its slashes |
| PageIndicator.CrumbUrl | src/utils/pageindicator.tsx:12 | "/" followed by the first i+1 segments joined with "/" (`CrumbUrlExtends`, `CrumbUrlPrefix`, `CrumbUrlWellFormed`) |
| PageIndicator.Capitalize | src/utils/pageindicator.tsx:13 | the display name has the segment's length; its first character is the segment's first character upper-cased and the rest is the segment's rest unchanged |
| PageIndicator.Crumbs | src/utils/pageindicator.tsx:11-35 | one link per segment (`BreadcrumbLinks`) |
| PageIndicator.Indicator | src/utils/pageindicator.tsx:10-56 | outside artists/products the output is the two fixed links; otherwise one link per segment |
| PageIndicator.BreadcrumbLinks | src/utils/pageindicator.tsx:11-35 | link i has the cumulative URL of segment i and its capitalised name, and only link 0 is rendered without a ">" separator |
| PageIndicator.CrumbUrlExtends | src/utils/pageindicator.tsx:12 | each crumb's URL is the previous one plus "/" and its segment |
| PageIndicator.CrumbUrlPrefix | src/utils/pageindicator.tsx:12 | each crumb's URL is a prefix of every later one |
| PageIndicator.LastCrumbIsPath | src/utils/pageindicator.tsx:6-12 | for a path with a leading "/", no "//" and no trailing "/", there is a segment and the last crumb's URL is the path itself |
| PageIndicator.PiecesAfterFirstNonEmpty | src/utils/pageindicator.tsx:6-7 | with no "//" and no trailing "/", every piece of the split after the first is non-empty |
| PageIndicator.LastCrumbSpellsPath | src/utils/pageindicator.tsx:6-12 | for any path with a segment, the last crumb's URL and the path are the same text once slashes are removed |
| PageIndicator.WithoutSlashesAppend | src/utils/pageindicator.tsx:12 | removing slashes distributes over concatenation |
| PageIndicator.WithoutSlashesOfSegment | src/utils/pageindicator.tsx:12 | a segment without "/" is unchanged by removing slashes |
| PageIndicator.WithoutSlashesOfJoin | src/utils/pageindicator.tsx:12 | proper segments joined with "/", with the slashes removed, are the segments read in order |
| PageIndicator.ExtendKeepsWellFormed | src/utils/pageindicator.tsx:12 | appending "/" and a proper segment to a well-formed URL keeps it well-formed |
| PageIndicator.CrumbUrlWellFormed | src/utils/pageindicator.tsx:6-12 | every cumulative URL of proper segments starts with "/", contains no "//" and does not end with "/" |
| PageIndicator.BreadcrumbUrlsWellFormed | src/utils/pageindicator.tsx:7-12 | every breadcrumb link starts with "/", contains no "//" and does not end with "/" |
| PageIndicator.CapitalizeKeepsSegment | src/utils/pageindicator.tsx:13 | the display name has the segment's length and tail; its first character is the upper-cased first character, an upper-case letter exactly when the segment starts with a letter; it differs from the segment only in case, and capitalising twice changes nothing more |
| CommissionForm.FindType | src/components/Commission.tsx:42-46 | the lookup finds a type with the parsed id, and finds nothing exactly when the value does not parse or no type has that id |
| CommissionForm.FindTypeIsFirst | src/components/Commission.tsx:43-45 | the type found is the first one with that id |
| CommissionForm.SelectOptions | src/components/Commission.tsx:93-101 | the placeholder, then one option per type (`ChoosingOptionSelectsType`) |
| CommissionForm.ChoosingOptionSelectsType | src/components/Commission.tsx:90-101 | the select has a disabled "" placeholder, which selects nothing, and one enabled option per type in order; choosing a type's option selects that type when ids are unique |
| CommissionForm.SelectValue | src/components/Commission.tsx:90 | the select's value is "" iff nothing is selected or the id is 0, and otherwise parses back to the selected id |
| CommissionForm.RequestBody | src/components/Commission.tsx:54-57 | the body carries the selected id (absent without a selection) and the description verbatim |
| CommissionForm.SendDisabled | src/components/Commission.tsx:118 | Send is disabled while nothing is selected (`InitialFormIsBlank`, `EnabledSendCarriesSelection`) |
| CommissionForm.Content | src/components/Commission.tsx:85-125 | the form is shown iff there are types, otherwise "No commission types available." |
| CommissionForm.TypesRequested | src/components/Commission.tsx:26-39 | the catalog of the seller named in the route is requested |
| CommissionForm.TypesReceived | src/components/Commission.tsx:32-35 | the list is replaced, or unchanged on failure |
| CommissionForm.SelectionChanged | src/components/Commission.tsx:41-47 | the selection is the lookup of the parsed value (`SelectThenSend`) |
| CommissionForm.DescriptionChanged | src/components/Commission.tsx:108 | the description becomes the typed text |
| CommissionForm.CommissionSent | src/components/Commission.tsx:49-77 | sendCommission (`EnabledSendCarriesSelection`, `SendOutcome`) |
| CommissionForm.SnackbarClosed | src/components/Commission.tsx:79-81 | handleSnackbarClose; only the snackbar closes |
| CommissionForm.InitialFormIsBlank | src/components/Commission.tsx:17-24 | the form starts with no selection, an empty description and Send disabled |
| CommissionForm.EnabledSendCarriesSelection | src/components/Commission.tsx:49-63 | sending from an enabled button POSTs the selected id and the description |
| CommissionForm.SendOutcome | src/components/Commission.tsx:64-76 | success shows "Commission Sent and Artist Notified" and navigates to /commissions; failure opens the snackbar and keeps the selection, description and view |
| CommissionForm.SelectThenSend | src/components/Commission.tsx:41-57 | choosing a type's option and sending names that type in the body |
| CommissionForm.CommissionRequestForm.constructor | src/components/Commission.tsx:17-24 | the form starts empty |
| CommissionForm.CommissionRequestForm.FetchData | src/components/Commission.tsx:26-39 | the seller's catalog is requested |
| CommissionForm.CommissionRequestForm.ReceiveTypes | src/components/Commission.tsx:32-35 | the list is replaced, or unchanged on failure |
| CommissionForm.CommissionRequestForm.HandleSelectChange | src/components/Commission.tsx:41-47 | the selection becomes the lookup of the parsed value |
| CommissionForm.CommissionRequestForm.HandleDescriptionChange | src/components/Commission.tsx:108 | the description becomes the typed text |
| CommissionForm.CommissionRequestForm.SendCommission | src/components/Commission.tsx:49-77 | the fields change as the send transition says |
| CommissionForm.CommissionRequestForm.HandleSnackbarClose | src/components/Commission.tsx:79-81 | the snackbar closes |
| CommissionTypeEditor.Rows | src/components/CommissionType.tsx:135-210 | one row per type (`AtMostOneRowEditing`) |
| CommissionTypeEditor.ListView | src/components/CommissionType.tsx:133-217 | an empty list shows "No items to display"; otherwise there is one row per type |
| CommissionTypeEditor.AtMostOneRowEditing | src/components/CommissionType.tsx:135-193 | a row is in edit mode iff its index is editIndex, so at most one is, and each row shows its own type's values |
| CommissionTypeEditor.ItemPath | src/components/CommissionType.tsx:67 | /commission_types/my_commissions/{id}, with "undefined" without an id; a delete from an open dialog always names an id (`ConfirmedDeleteNamesCapturedId`) |
| CommissionTypeEditor.TypesRequested | src/components/CommissionType.tsx:24-34 | the seller's own catalog is requested |
| CommissionTypeEditor.TypesReceived | src/components/CommissionType.tsx:35-38 | the list is replaced, or unchanged on failure |
| CommissionTypeEditor.EditStarted | src/components/CommissionType.tsx:45-49 | handleEdit (`EditPreloadsBuffers`) |
| CommissionTypeEditor.TitleTyped | src/components/CommissionType.tsx:153 | the title buffer becomes the typed text |
| CommissionTypeEditor.PriceTyped | src/components/CommissionType.tsx:168 | the price buffer becomes the typed text |
| CommissionTypeEditor.EditCancelled | src/components/CommissionType.tsx:178 | Cancel (`CancelLeavesListAlone`) |
| CommissionTypeEditor.Saved | src/components/CommissionType.tsx:60-94 | handleSave (`SaveSendsBuffers`) |
| CommissionTypeEditor.DeleteClicked | src/components/CommissionType.tsx:51-54 | handleDeleteClick (`DeleteDialogCapturesId`) |
| CommissionTypeEditor.DeleteDialogClosed | src/components/CommissionType.tsx:56-58 | handleCloseDeleteClick (`DeleteDialogCapturesId`) |
| CommissionTypeEditor.Deleted | src/components/CommissionType.tsx:96-121 | handleDelete (`DeleteTargetsCapturedId`) |
| CommissionTypeEditor.SnackbarClosed | src/components/CommissionType.tsx:123-125 | handleSnackbarClose; only the snackbar closes |
| CommissionTypeEditor.EditPreloadsBuffers | src/components/CommissionType.tsx:45-49 | handleEdit sets editIndex and preloads the title and price buffers from the row, touching nothing else |
| CommissionTypeEditor.CancelLeavesListAlone | src/components/CommissionType.tsx:178 | Cancel leaves no row in edit mode and the list unchanged |
| CommissionTypeEditor.SaveSendsBuffers | src/components/CommissionType.tsx:60-93 | Save PATCHes the buffers, not the row's values, to the row's id; success clears editIndex and refetches; failure keeps editIndex and opens the snackbar |
| CommissionTypeEditor.DeleteDialogCapturesId | src/components/CommissionType.tsx:51-58 | the delete click captures the id and opens the dialog; closing it keeps the id |
| CommissionTypeEditor.DeleteTargetsCapturedId | src/components/CommissionType.tsx:96-120 | Delete targets the captured id; success closes the dialog and refetches; failure keeps it open and opens the snackbar |
| CommissionTypeEditor.RunKeepsInvariant | src/components/CommissionType.tsx:51-58 | after any sequence of events the dialog is open only with a captured id |
| CommissionTypeEditor.ConfirmedDeleteNamesCapturedId | src/components/CommissionType.tsx:96-106 | from any reachable state with the dialog open, the delete request names a real id, never "undefined" |
| CommissionTypeEditor.EditIndexFollowsPositionNotType | src/components/CommissionType.tsx:45-140 | editIndex is a position: after an earlier row is deleted and the list refetched, the next type is in edit mode while the buffers hold the old values, and Save sends them to the next type's id |
| CommissionTypeEditor.CommissionTypeList.constructor | src/components/CommissionType.tsx:13-22 | the editor starts with an empty list, no row editing and the dialog closed |
| CommissionTypeEditor.CommissionTypeList.FetchCommissionTypes | src/components/CommissionType.tsx:24-34 | the seller's own catalog is requested |
| CommissionTypeEditor.CommissionTypeList.ReceiveTypes | src/components/CommissionType.tsx:35-38 | the list is replaced, or unchanged on failure |
| CommissionTypeEditor.CommissionTypeList.HandleEdit | src/components/CommissionType.tsx:45-49 | the fields change as the edit transition says |
| CommissionTypeEditor.CommissionTypeList.HandleTitleChange | src/components/CommissionType.tsx:153 | the title buffer becomes the typed text |
| CommissionTypeEditor.CommissionTypeList.HandlePriceChange | src/components/CommissionType.tsx:168 | the price buffer becomes the typed text |
| CommissionTypeEditor.CommissionTypeList.HandleCancel | src/components/CommissionType.tsx:178 | no row is in edit mode |
| CommissionTypeEditor.CommissionTypeList.HandleSave | src/components/CommissionType.tsx:60-94 | the fields change as the save transition says |
| CommissionTypeEditor.CommissionTypeList.HandleDeleteClick | src/components/CommissionType.tsx:51-54 | the id is captured and the dialog opens |
| CommissionTypeEditor.CommissionTypeList.HandleCloseDeleteClick | src/components/CommissionType.tsx:56-58 | only the dialog flag is cleared |
| CommissionTypeEditor.CommissionTypeList.HandleDelete | src/components/CommissionType.tsx:96-121 | the fields change as the delete transition says |
| CommissionTypeEditor.CommissionTypeList.HandleSnackbarClose | src/components/CommissionType.tsx:123-125 | the snackbar closes |

## Left out

- HTTP calls, the API base URL and the `Authorization: Bearer` header are not modelled. A call is a recorded request plus an `Outcome` parameter, and the server's own rules are not visible in this code.
- The response shapes are assumed. A list response that is not an array (for example, a missing `commissions` field, which makes the header's `filter` throw) is not modelled.
- `localStorage` is not modelled as a store. Its "type" entry is a parameter. Its token is a `Session` field in the header only, because the other components use the token only in the Authorization header.
- `window.location` and `navigate` navigation are recorded as a location value. The one-second delay before the logout redirect is not modelled.
- The snackbar's auto-hide timer (`src/utils/snackbar.tsx`) is timing, not logic.
- `console.log` and `console.error` output is not modelled.
- Exceptions other than the HTTP client's are not modelled. The handlers only log them; `Outcome` failures are always HTTP client errors, so, for instance, every failed list fetch on the My Commissions page navigates to /not-found.
- MyCommissions.CardDescription: cuts the code units exactly as `slice(0, 25)` does. How the browser draws a surrogate pair split by that cut is rendering and is not modelled.
- Paths are `location.pathname`, which the browser percent-encodes, so the breadcrumb functions work on characters and never meet a character made of two code units.
- Text.ParseInt: models `parseInt` only on what the select can produce: an optional "-" or "+" and leading decimal digits. Leading whitespace, the "0x" radix prefix and precision loss beyond 2^53 are not modelled.
- Text.ToLower: maps only ASCII letters. JavaScript's full Unicode case mapping is not modelled.
- Text.UpperChar: maps only ASCII letters. Unicode upper-casing, which can change the length (e.g. "ß" becomes "SS"), is not modelled; `CapitalizeKeepsSegment` holds for ASCII-only casing.
- Text.IntToString: renders ids in plain decimal. JavaScript's exponent notation for numbers of 10^21 and above, and fractional ids, are not modelled.
- The price text `parseFloat(price).toFixed(2)` in the form's options is floating-point formatting and is not modelled. The editor's price is a `real` or the typed text, never a rounded number.
- The uncontrolled inputs' DOM state is not modelled. In the editor, a row's inputs show `defaultValue` only when they mount, and a re-render keeps whatever was typed.
- The rating dialog's markup and the star SVGs are not modelled beyond which stars are filled and which value each star sets.
- Login, SignUp, Reconfirm and the route table are outside this model, as are the purely presentational components (profiles, portfolio, landing page, artist list, footer, not-found page) and the colour extraction in `src/utils/colorthief.tsx`.
- React's scheduling is not modelled. Each handler's state updates are applied together, in the order the code makes them. Two responses racing each other are not modelled.
