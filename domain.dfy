/** The commission record the pages receive from the service, and the two
    session strings (the role "type" and the stage) the pages compare
    against literal values. */
module Domain {
  import opened Common
  import opened Text

  /** A commission's stage. The service sends a string; the three known
      values get their own constructor, any other string is kept as it is. */
  datatype Stage = Pending | InProgress | Completed | OtherStage(token: string)

  /** The stages a commission can carry: read from the service's string, so
      "Completed" is always `Completed` and never `OtherStage("Completed")`. */
  type StageValue = st: Stage | Canonical(st) witness Pending

  /** The string the stage came from, as it is used in request paths. */
  function StageToken(st: Stage): (t: string)
    ensures !st.OtherStage? ==> IsKnownStageToken(t)
    ensures st.OtherStage? ==> t == st.token
  {
    match st
    case Pending => "Pending"
    case InProgress => "InProgress"
    case Completed => "Completed"
    case OtherStage(t) => t
  }

  predicate IsKnownStageToken(s: string)
  {
    s == "Pending" || s == "InProgress" || s == "Completed"
  }

  /** Reads a stage string. Nothing is lost: the token of the result is
      the string read, and only unknown strings fall through to OtherStage. */
  function ParseStage(s: string): (st: StageValue)
    ensures StageToken(st) == s
    ensures st.OtherStage? <==> !IsKnownStageToken(s)
  {
    if s == "Pending" then Pending
    else if s == "InProgress" then InProgress
    else if s == "Completed" then Completed
    else OtherStage(s)
  }

  /** A stage in its one canonical form: OtherStage never wraps a known token. */
  predicate Canonical(st: Stage)
  {
    st.OtherStage? ==> !IsKnownStageToken(st.token)
  }

  /** Reading a stage's token gives the stage back, so a stage and its
      string determine each other. */
  lemma ParseStageToken(st: StageValue)
    ensures ParseStage(StageToken(st)) == st
  {
  }

  /** A stage read from a string is `Completed` exactly when the string is
      "Completed", so comparing stages is comparing the service's strings. */
  lemma CompletedIffCompletedString(s: string)
    ensures ParseStage(s) == Completed <==> s == "Completed"
    ensures ParseStage(s) == Pending <==> s == "Pending"
    ensures ParseStage(s) == InProgress <==> s == "InProgress"
  {
  }

  /** The role read from the session store's "type" entry; a missing entry
      or any string other than "Buyer" and "Seller" is OtherRole. */
  datatype Role = Buyer | Seller | OtherRole

  function ParseRole(typ: Option<string>): (r: Role)
    ensures r == Buyer <==> typ == Some("Buyer")
    ensures r == Seller <==> typ == Some("Seller")
  {
    match typ
    case Some("Buyer") => Buyer
    case Some("Seller") => Seller
    case _ => OtherRole
  }

  /** A commission as the list endpoint returns it. The description is kept
      as the UTF-16 code units of the JavaScript string, which is what its
      `length` and `slice` count. */
  datatype Commission = Commission(
    id: int,
    buyerUsername: Option<string>,
    sellerUsername: Option<string>,
    title: string,
    price: string,
    stage: StageValue,
    description: seq<CodeUnit>,
    rating: Option<int>)

  /** The path of the role-scoped commission list: the session's "type"
      in lower case, or "undefined" when the session has none. */
  function CommissionListPath(typ: Option<string>): (p: string)
    ensures typ == Some("Buyer") ==> p == "/commission/buyer"
    ensures typ == Some("Seller") ==> p == "/commission/seller"
    ensures typ.None? ==> p == "/commission/undefined"
  {
    "/commission/" + match typ
                     case Some(t) => ToLower(t)
                     case None => "undefined"
  }
}
