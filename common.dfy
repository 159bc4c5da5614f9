/** Values shared by the Mailgun message and mailer components: optional values,
    results, the errors a send can raise, PHP truthiness, and the value types of the
    provider options. */
module Common {

  /** PHP `null` is `None`; any set value is `Some`. */
  datatype Option<+T> = None | Some(value: T)

  /** A value, or the exception that interrupted the computation. */
  datatype Result<+T, +E> = Ok(value: T) | Err(error: E)

  /** The exceptions that reach the caller of a send. */
  datatype MailError =
    | MissingDomain              // MissingRequiredParameters: the domain property is falsy
    | MissingApiKey              // MissingRequiredParameters: the API key property is falsy
    | TransportFailure(reason: string)  // raised by the HTTP client, propagated unchanged

  /** PHP truthiness of a property holding a string or null:
      null, "" and "0" are false, every other string is true. */
  predicate Truthy(s: Option<string>) {
    s.Some? && s.value != "" && s.value != "0"
  }

  /** A sender as the host framework passes it: a bare address, or a
      one-entry array `[address => display name]`. */
  datatype Sender = Address(email: string) | Named(email: string, name: string)

  /** PHP truthiness of the mailer's `from` property. A one-entry array is
      never empty, hence always true; a bare address follows string truthiness. */
  predicate SenderTruthy(s: Option<Sender>) {
    match s
    case None => false
    case Some(Address(email)) => Truthy(Some(email))
    case Some(Named(_, _)) => true
  }

  /** A campaign id is a string or an integer. */
  datatype CampaignId = Text(text: string) | Number(number: int)

  /** Click tracking is on, off, or on for HTML parts only ("html"). */
  datatype ClickTracking = Tracking(enabled: bool) | HtmlOnly
}
