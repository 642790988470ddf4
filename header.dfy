/** The page header: login state and role flag read from the session
    store, the badge with the number of unfinished commissions, the mobile
    menu toggle, and logout. */
module Header {
  import opened Common
  import opened Domain

  // ---------------------------------------------------------- the badge

  /** The commissions that are not completed, in list order. */
  function NotCompleted(cs: seq<Commission>): seq<Commission>
  {
    if cs == [] then []
    else (if cs[0].stage != Completed then [cs[0]] else []) + NotCompleted(cs[1..])
  }

  /** The badge count: how many commissions are not completed. */
  function BadgeCount(cs: seq<Commission>): nat
  {
    |NotCompleted(cs)|
  }

  /** The indices of the commissions that are not completed: the badge's
      reference definition, independent of the filter. */
  function OpenIndices(cs: seq<Commission>): set<int>
  {
    set i | 0 <= i < |cs| && cs[i].stage != Completed :: i
  }

  /** The filter keeps exactly the commissions that are not completed. */
  lemma {:induction false} NotCompletedMembers(cs: seq<Commission>, c: Commission)
    ensures c in NotCompleted(cs) <==> c in cs && c.stage != Completed
  {
    if cs != [] {
      NotCompletedMembers(cs[1..], c);
      assert cs == [cs[0]] + cs[1..];
    }
  }

  lemma {:induction false} NotCompletedAppend(a: seq<Commission>, b: seq<Commission>)
    ensures NotCompleted(a + b) == NotCompleted(a) + NotCompleted(b)
  {
    if a == [] {
      assert a + b == b;
    } else {
      assert (a + b)[1..] == a[1..] + b;
      NotCompletedAppend(a[1..], b);
    }
  }

  /** Counting is additive over concatenated lists. */
  lemma BadgeCountAppend(a: seq<Commission>, b: seq<Commission>)
    ensures BadgeCount(a + b) == BadgeCount(a) + BadgeCount(b)
  {
    NotCompletedAppend(a, b);
  }

  /** The badge equals the number of positions holding a commission that
      is not completed, whatever the list. */
  lemma {:induction false} BadgeCountCountsOpenCommissions(cs: seq<Commission>)
    ensures BadgeCount(cs) == |OpenIndices(cs)|
    decreases |cs|
  {
    if cs != [] {
      var init, last := cs[..|cs| - 1], cs[|cs| - 1];
      assert cs == init + [last];
      BadgeCountAppend(init, [last]);
      BadgeCountCountsOpenCommissions(init);
      assert [last][1..] == [];
      assert NotCompleted([last]) == (if last.stage != Completed then [last] else []) + NotCompleted([]);
      assert forall i :: 0 <= i < |init| ==> cs[i] == init[i];
      if last.stage != Completed {
        assert |cs| - 1 !in OpenIndices(init);
        assert OpenIndices(cs) == OpenIndices(init) + {|cs| - 1};
      } else {
        assert OpenIndices(cs) == OpenIndices(init);
      }
    }
  }

  /** The badge is 0 for an empty list, never exceeds the list's length,
      reaches it exactly when nothing in the list is completed, and is 0
      exactly when everything is. */
  lemma {:induction false} BadgeCountBounds(cs: seq<Commission>)
    ensures cs == [] ==> BadgeCount(cs) == 0
    ensures BadgeCount(cs) <= |cs|
    ensures BadgeCount(cs) == |cs| <==> forall i :: 0 <= i < |cs| ==> cs[i].stage != Completed
    ensures BadgeCount(cs) == 0 <==> forall i :: 0 <= i < |cs| ==> cs[i].stage == Completed
  {
    if cs != [] {
      BadgeCountBounds(cs[1..]);
      assert forall i :: 1 <= i < |cs| ==> cs[i] == cs[1..][i - 1];
    }
  }

  // --------------------------------------------------- the header state

  /** The two entries of the session store the header reads and clears. */
  datatype Session = Session(token: Option<string>, typ: Option<string>)

  const EmptySession := Session(None, None)

  /** A token is "truthy" when it is present and not the empty string. */
  predicate Truthy(token: Option<string>)
  {
    token.Some? && token.value != ""
  }

  datatype HeaderState = HeaderState(
    isMenuOpen: bool,
    isLoggedIn: bool,
    snackbarOpen: bool,
    snackbarMessage: Option<string>,
    typeFlag: bool,
    commissionCount: nat,
    session: Session,
    requests: seq<Request>,
    scheduledLocation: Option<string>)

  function InitialHeader(session: Session): HeaderState
  {
    HeaderState(false, false, false, None, true, 0, session, [], None)
  }

  /** The mount effect: the flags are read from the session store and the
      commission list is asked for. */
  function Mounted(s: HeaderState): HeaderState
  {
    s.(isLoggedIn := Truthy(s.session.token),
       typeFlag := if s.session.typ == Some("Buyer") then true
                   else if s.session.typ == Some("Seller") then false
                   else s.typeFlag,
       requests := s.requests + [Get(CommissionListPath(s.session.typ))])
  }

  /** The list comes back: the badge is the number of open commissions;
      on failure the count stays as it was. */
  function CommissionsReceived(s: HeaderState, outcome: Outcome<seq<Commission>>): HeaderState
  {
    match outcome
    case Ok(cs) => s.(commissionCount := BadgeCount(cs))
    case Failed(_) => s
  }

  function MenuToggled(s: HeaderState): HeaderState
  {
    s.(isMenuOpen := !s.isMenuOpen)
  }

  /** Logout clears the store, says so, and schedules the move to /login. */
  function LoggedOut(s: HeaderState): HeaderState
  {
    s.(session := EmptySession, snackbarMessage := Some("Logout successful"),
       snackbarOpen := true, scheduledLocation := Some("/login"))
  }

  function SnackbarClosed(s: HeaderState): HeaderState
  {
    s.(snackbarOpen := false)
  }

  /** The badge link, with its count, is shown only while the flag is set. */
  function Badge(s: HeaderState): (shown: Option<nat>)
    ensures shown.Some? <==> s.typeFlag
    ensures shown.Some? ==> shown.value == s.commissionCount
  {
    if s.typeFlag then Some(s.commissionCount) else None
  }

  // ------------------------------------------- properties of the header

  /** After mounting, the header is logged in exactly when the store holds
      a non-empty token; the flag is set for a buyer, cleared for a seller,
      and keeps its previous value for any other or missing type. */
  lemma MountedFlags(s: HeaderState)
    ensures var t := Mounted(s);
      (t.isLoggedIn <==> s.session.token.Some? && s.session.token.value != "")
      && (ParseRole(s.session.typ) == Buyer ==> t.typeFlag)
      && (ParseRole(s.session.typ) == Seller ==> !t.typeFlag)
      && (ParseRole(s.session.typ) == OtherRole ==> t.typeFlag == s.typeFlag)
      && t.commissionCount == s.commissionCount && t.session == s.session
  {
  }

  /** On a fresh header, only a seller session hides the badge: a missing
      or unknown type leaves the initial flag, which shows it. */
  lemma FreshHeaderBadge(session: Session)
    ensures Badge(Mounted(InitialHeader(session))).Some? <==> session.typ != Some("Seller")
  {
  }

  /** Once the list arrives, the badge count is the number of commissions
      whose stage is not "Completed" (0 for an empty list); a failed fetch
      leaves the count, initially 0, unchanged. */
  lemma ReceivedCountIsOpenCommissions(s: HeaderState, outcome: Outcome<seq<Commission>>)
    ensures outcome.Ok? ==>
      CommissionsReceived(s, outcome).commissionCount == |OpenIndices(outcome.value)|
    ensures outcome.Ok? && outcome.value == [] ==>
      CommissionsReceived(s, outcome).commissionCount == 0
    ensures outcome.Failed? ==> CommissionsReceived(s, outcome) == s
  {
    if outcome.Ok? {
      BadgeCountCountsOpenCommissions(outcome.value);
    }
  }

  /** Toggling the menu twice gives back the header it started from. */
  lemma ToggleTwiceRestores(s: HeaderState)
    ensures MenuToggled(s).isMenuOpen != s.isMenuOpen
    ensures MenuToggled(MenuToggled(s)) == s
  {
  }

  /** Logout leaves nothing in the store and shows its message. */
  lemma LogoutClearsSession(s: HeaderState)
    ensures var t := LoggedOut(s);
      t.session == EmptySession && !Truthy(t.session.token)
      && t.snackbarOpen && t.snackbarMessage == Some("Logout successful")
      && t.scheduledLocation == Some("/login")
      && t.commissionCount == s.commissionCount && t.requests == s.requests
  {
  }

  // ----------------------------------------------------------- the header

  /** The header component, whose effect and handlers update its fields. */
  class HeaderComponent {
    var isMenuOpen: bool
    var isLoggedIn: bool
    var snackbarOpen: bool
    var snackbarMessage: Option<string>
    var typeFlag: bool
    var commissionCount: nat
    var session: Session
    var requests: seq<Request>
    var scheduledLocation: Option<string>

    function View(): HeaderState
      reads this
    {
      HeaderState(isMenuOpen, isLoggedIn, snackbarOpen, snackbarMessage, typeFlag,
                  commissionCount, session, requests, scheduledLocation)
    }

    constructor (store: Session)
      ensures View() == InitialHeader(store)
    {
      isMenuOpen := false;
      isLoggedIn := false;
      snackbarOpen := false;
      snackbarMessage := None;
      typeFlag := true;
      commissionCount := 0;
      session := store;
      requests := [];
      scheduledLocation := None;
    }

    /** The mount effect, up to sending the list request. */
    method Mount()
      modifies this
      ensures View() == Mounted(old(View()))
    {
      if Truthy(session.token) {
        isLoggedIn := true;
      } else {
        isLoggedIn := false;
      }
      if session.typ == Some("Buyer") {
        typeFlag := true;
      } else if session.typ == Some("Seller") {
        typeFlag := false;
      }
      requests := requests + [Get(CommissionListPath(session.typ))];
    }

    /** The list request's response. */
    method ReceiveCommissions(outcome: Outcome<seq<Commission>>)
      modifies this
      ensures View() == CommissionsReceived(old(View()), outcome)
    {
      if outcome.Ok? {
        commissionCount := BadgeCount(outcome.value);
      }
    }

    method ToggleMenu()
      modifies this
      ensures View() == MenuToggled(old(View()))
    {
      isMenuOpen := !isMenuOpen;
    }

    method HandleLogout()
      modifies this
      ensures View() == LoggedOut(old(View()))
    {
      session := EmptySession;
      snackbarMessage := Some("Logout successful");
      snackbarOpen := true;
      scheduledLocation := Some("/login");
    }

    method HandleSnackbarClose()
      modifies this
      ensures View() == SnackbarClosed(old(View()))
    {
      snackbarOpen := false;
    }
  }
}
