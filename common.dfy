/** Values shared by every component: optional values, the outcome of a
    call to the REST service, and the requests a component sends. */
module Common {

  datatype Option<T> = None | Some(value: T)

  /** What a network call comes back with. A failure is an error of the
      HTTP client: `Failed(Some(m))` is an error response whose body carries
      an `error` field `m`; `Failed(None)` is a response without an `error`
      field or no response at all, after which the handlers never reach the
      line that would set the snackbar message. */
  datatype Outcome<T> = Ok(value: T) | Failed(error: Option<string>)

  /** The price buffer of the commission-type editor holds either the
      number it was preloaded with or the text the seller typed. */
  datatype PriceField = PriceNumber(amount: real) | PriceText(text: string)

  /** JSON bodies of the requests the components send. An `undefined`
      property is dropped from the JSON, hence the Option. */
  datatype Body =
    | NoBody
    | RatingBody(rating: int)
    | TypeUpdateBody(title: string, price: PriceField)
    | CreateBody(commissionTypeId: Option<int>, description: string)

  /** A request, by method, path below the API's base URL, and body. */
  datatype Request =
    | Get(path: string)
    | Patch(path: string, body: Body)
    | Post(path: string, body: Body)
    | Delete(path: string)

  /** The snackbar message after a failed mutation: the server's `error`
      text when there is one, otherwise the message shown before. */
  function FailureMessage(shown: Option<string>, error: Option<string>): (r: Option<string>)
    ensures error.Some? ==> r == error
    ensures error.None? ==> r == shown
  {
    match error
    case Some(m) => Some(m)
    case None => shown
  }
}
