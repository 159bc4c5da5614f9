/** The Mailgun mailer: its configuration, its lazily created API client and the
    send rule (domain check, default merge, client creation, one post). */
module Mailers {
  import opened Common
  import opened Messages
  import opened Merging

  /** The SDK client, built from the API key it authenticates with. */
  datatype Client = Client(key: string)

  /** The mailer's configuration properties as one value. */
  datatype Config = Config(domain: Option<string>, key: Option<string>, defaults: Defaults)

  /** One request handed to the HTTP client: the client it went through, the
      endpoint path, the payload and the file list. */
  datatype Request = Request(client: Client, path: string, payload: Payload, files: seq<Attachment>)

  /** How the HTTP call ends: it returns some response, or it raises. */
  datatype Transport = Delivered(response: string) | Raised(reason: string)

  /** Everything one send produces: the cached client afterwards, the message
      afterwards, the request issued (if any) and the value or exception. */
  datatype Outcome = Outcome(
    client: Option<Client>,
    message: MessageState,
    posted: Option<Request>,
    result: Result<bool, MailError>)

  /** The endpoint a message is posted to. */
  function MessagesPath(domain: string): string {
    domain + "/messages"
  }

  /** The requests an outcome adds to the outbox. */
  function Issued(posted: Option<Request>): seq<Request> {
    if posted.Some? then [posted.value] else []
  }

  /** Creating the client fails exactly when the API key is falsy; otherwise the
      client carries that key. */
  function CreateClient(key: Option<string>): (r: Result<Client, MailError>)
    ensures r.Ok? <==> Truthy(key)
    ensures r.Ok? ==> r.value.key == key.value
    ensures r.Err? ==> r.error == MissingApiKey
  {
    if !Truthy(key) then Err(MissingApiKey) else Ok(Client(key.value))
  }

  /** The client a send goes through: the cached one if there is one (the key
      is then not looked at), else a newly created one. */
  function Acquire(cached: Option<Client>, key: Option<string>): Result<Client, MailError> {
    if cached.Some? then Ok(cached.value) else CreateClient(key)
  }

  /** The client cached after acquiring: a successful creation is kept. */
  function Cache(cached: Option<Client>, acquired: Result<Client, MailError>): Option<Client> {
    if acquired.Ok? then Some(acquired.value) else cached
  }

  /** One send, as a value. */
  function Send(cfg: Config, cached: Option<Client>, m: MessageState, t: Transport): (o: Outcome)
    // A falsy domain fails first: nothing changes and nothing is posted.
    ensures !Truthy(cfg.domain) ==> o == Outcome(cached, m, None, Err(MissingDomain))
    // Past the domain check the defaults are merged, whatever happens next.
    ensures Truthy(cfg.domain) ==> o.message == m.(options := Merge(cfg.defaults, m.options))
    // Nothing is posted exactly when the domain is falsy, or no client is cached
    // and the key is falsy.
    ensures o.posted.None? <==> !Truthy(cfg.domain) || (cached.None? && !Truthy(cfg.key))
    ensures o.posted.None? && Truthy(cfg.domain) ==> o.client == cached && o.result == Err(MissingApiKey)
    // Otherwise exactly one request goes to "{domain}/messages" through the
    // client now cached, carrying the merged payload and the files.
    ensures o.posted.Some? ==>
      o.client.Some? &&
      o.posted.value == Request(o.client.value, cfg.domain.value + "/messages",
                                Payload(o.message.options, m.fields), m.files)
    // A cached client is kept and reused; otherwise the new one holds the key.
    ensures cached.Some? ==> o.client == cached
    ensures cached.None? && o.client.Some? ==> o.client.value == Client(cfg.key.value)
    // Any response counts as success; an exception is propagated.
    ensures o.result.Ok? <==> o.posted.Some? && t.Delivered?
    ensures o.result.Ok? ==> o.result.value
    ensures o.posted.Some? && t.Raised? ==> o.result == Err(TransportFailure(t.reason))
  {
    if !Truthy(cfg.domain) then
      Outcome(cached, m, None, Err(MissingDomain))
    else
      var merged := m.(options := Merge(cfg.defaults, m.options));
      var acquired := Acquire(cached, cfg.key);
      var client := Cache(cached, acquired);
      if acquired.Err? then
        Outcome(client, merged, None, Err(acquired.error))
      else
        var request := Request(acquired.value, MessagesPath(cfg.domain.value),
                               Payload(merged.options, merged.fields), merged.files);
        match t
        case Delivered(_) => Outcome(client, merged, Some(request), Ok(true))
        case Raised(reason) => Outcome(client, merged, Some(request), Err(TransportFailure(reason)))
  }

  /** Once a client is cached, the API key plays no part in a send. */
  lemma KeyOnlyReadAtCreation(cfg: Config, c: Client, m: MessageState, t: Transport, key: Option<string>)
    ensures Send(cfg.(key := key), Some(c), m, t) == Send(cfg, Some(c), m, t)
  {
  }

  /** The response body is never inspected: any two responses give the same outcome. */
  lemma ResponseIgnored(cfg: Config, cached: Option<Client>, m: MessageState, a: string, b: string)
    ensures Send(cfg, cached, m, Delivered(a)) == Send(cfg, cached, m, Delivered(b))
  {
  }

  /** The mailer component. Its public properties hold the configuration, the
      private cache holds the SDK client once it exists, and the ghost outbox
      records every request handed to the HTTP client. */
  class Mailer {
    var domain: Option<string>
    var key: Option<string>
    var from: Option<Sender>
    var tags: seq<string>
    var campaignId: Option<CampaignId>
    var dkim: Option<bool>
    var testMode: Option<bool>
    var clickTracking: Option<ClickTracking>
    var opensTracking: Option<bool>
    var client: Option<Client>
    ghost var outbox: seq<Request>

    /** A configured mailer with no client yet and nothing sent. */
    constructor (domain: Option<string>, key: Option<string>, defaults: Defaults)
      ensures Configuration() == Config(domain, key, defaults)
      ensures client == None && outbox == []
    {
      this.domain, this.key := domain, key;
      from, tags, campaignId := defaults.from, defaults.tags, defaults.campaignId;
      dkim, testMode := defaults.dkim, defaults.testMode;
      clickTracking, opensTracking := defaults.clickTracking, defaults.opensTracking;
      client, outbox := None, [];
    }

    function DefaultOptions(): Defaults
      reads this
    {
      Defaults(from, tags, campaignId, dkim, testMode, clickTracking, opensTracking)
    }

    function Configuration(): Config
      reads this
    {
      Config(domain, key, DefaultOptions())
    }

    /** Returns the cached client, creating and caching it on first use. */
    method GetMailgunMailer() returns (r: Result<Client, MailError>)
      modifies this`client
      ensures r == Acquire(old(client), key)
      ensures client == Cache(old(client), r)
      ensures old(client).Some? ==> client == old(client)
    {
      if client.None? {
        var created := CreateMailgunMailer();
        if created.Err? {
          return created;
        }
        client := Some(created.value);
      }
      r := Ok(client.value);
    }

    /** Builds a client from the API key, failing when the key is falsy. */
    method CreateMailgunMailer() returns (r: Result<Client, MailError>)
      ensures r == CreateClient(key)
      ensures r.Ok? <==> Truthy(key)
    {
      if !Truthy(key) {
        return Err(MissingApiKey);
      }
      r := Ok(Client(key.value));
    }

    /** The default merge of a send: each option the message left null is set
        from the matching default when that default passes its test. */
    method ApplyDefaults(message: Message)
      modifies message
      ensures message.State() == old(message.State()).(options := Merge(DefaultOptions(), old(message.Options())))
    {
      ghost var before := message.Options();
      ApplyTruthyDefaults(message);
      ApplyDeliveryDefaults(message);
      ApplyTrackingDefaults(message);
      assert message.Options() == Merge(DefaultOptions(), before);
    }

    /** The sender and the tags: the default must be truthy. */
    method ApplyTruthyDefaults(message: Message)
      modifies message
      ensures message.State() == old(message.State()).(options := old(message.Options()).(
        from := if SenderTruthy(from) && old(message.from).None? then from else old(message.from),
        tags := if tags != [] && old(message.tags).None? then AddTags(old(message.tags), tags) else old(message.tags)))
    {
      if SenderTruthy(from) && message.from.None? {
        message.from := from;
      }
      if tags != [] && message.tags.None? {
        message.SetTags(tags);
      }
    }

    /** Campaign id, DKIM and test mode: the default must be non-null. */
    method ApplyDeliveryDefaults(message: Message)
      modifies message
      ensures message.State() == old(message.State()).(options := old(message.Options()).(
        campaignId := FillUnset(campaignId, old(message.campaignId)),
        dkim := FillUnset(dkim, old(message.dkim)),
        testMode := FillUnset(testMode, old(message.testMode))))
    {
      if campaignId.Some? && message.campaignId.None? {
        message.campaignId := campaignId;
      }
      if dkim.Some? && message.dkim.None? {
        message.dkim := dkim;
      }
      if testMode.Some? && message.testMode.None? {
        message.testMode := testMode;
      }
    }

    /** Click and open tracking: the default must be non-null. */
    method ApplyTrackingDefaults(message: Message)
      modifies message
      ensures message.State() == old(message.State()).(options := old(message.Options()).(
        clickTracking := FillUnset(clickTracking, old(message.clickTracking)),
        opensTracking := FillUnset(opensTracking, old(message.opensTracking))))
    {
      if clickTracking.Some? && message.clickTracking.None? {
        message.clickTracking := clickTracking;
      }
      if opensTracking.Some? && message.opensTracking.None? {
        message.opensTracking := opensTracking;
      }
    }

    /** Sends one message: checks the domain, fills the message's null options
        from the defaults one at a time, obtains the client and posts once. */
    method SendMessage(message: Message, transport: Transport) returns (r: Result<bool, MailError>)
      modifies this`client, this`outbox, message
      ensures var o := Send(old(Configuration()), old(client), old(message.State()), transport);
        client == o.client && message.State() == o.message &&
        outbox == old(outbox) + Issued(o.posted) && r == o.result
      ensures Configuration() == old(Configuration())
    {
      if !Truthy(domain) {
        return Err(MissingDomain);
      }

      ApplyDefaults(message);

      var acquired := GetMailgunMailer();
      if acquired.Err? {
        return Err(acquired.error);
      }
      outbox := outbox + [Request(acquired.value, MessagesPath(domain.value),
                                  message.GetMessage(), message.GetFiles())];
      match transport
      case Delivered(_) =>
        r := Ok(true);
      case Raised(reason) =>
        r := Err(TransportFailure(reason));
    }
  }
}
