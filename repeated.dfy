/** Several sends through one mailer: the SDK client is created at most once and
    every later send reuses it. */
module Repeated {
  import opened Common
  import opened Messages
  import opened Merging
  import opened Mailers

  /** One call of the send entry point: the configuration at that moment, the
      message handed in and how its HTTP call ends. */
  datatype Attempt = Attempt(cfg: Config, message: MessageState, transport: Transport)

  /** What a series of sends leaves behind: the cached client, every request
      issued in order, and how many times a client was created. */
  datatype Run = Run(client: Option<Client>, posted: seq<Request>, created: nat)

  /** The sends in order, each starting from the client the previous one cached. */
  function RunAll(cached: Option<Client>, attempts: seq<Attempt>): Run
    decreases |attempts|
  {
    if attempts == [] then Run(cached, [], 0)
    else
      var a := attempts[0];
      var o := Send(a.cfg, cached, a.message, a.transport);
      var rest := RunAll(o.client, attempts[1..]);
      Run(rest.client, Issued(o.posted) + rest.posted,
          (if cached.None? && o.client.Some? then 1 else 0) + rest.created)
  }

  /** A client is created at most once over any series of sends, never when one
      is already cached, and once cached it stays. */
  lemma {:induction false} ClientCreatedAtMostOnce(cached: Option<Client>, attempts: seq<Attempt>)
    ensures RunAll(cached, attempts).created <= (if cached.None? then 1 else 0)
    ensures cached.Some? ==> RunAll(cached, attempts).client == cached
    ensures RunAll(cached, attempts).created == 1 ==> RunAll(cached, attempts).client.Some?
    decreases |attempts|
  {
    if attempts != [] {
      var a := attempts[0];
      var o := Send(a.cfg, cached, a.message, a.transport);
      ClientCreatedAtMostOnce(o.client, attempts[1..]);
    }
  }

  /** Every request of the run went through the client cached at its end. */
  predicate AllThrough(run: Run, c: Client) {
    forall i | 0 <= i < |run.posted| :: run.posted[i].client == c
  }

  /** Every request of a series goes through the one client cached at its end:
      a key configured after the first creation is never used. */
  lemma {:induction false} PostsShareOneClient(cached: Option<Client>, attempts: seq<Attempt>)
    ensures RunAll(cached, attempts).posted != [] ==> RunAll(cached, attempts).client.Some?
    ensures RunAll(cached, attempts).client.Some? ==>
      AllThrough(RunAll(cached, attempts), RunAll(cached, attempts).client.value)
    ensures cached.Some? ==> AllThrough(RunAll(cached, attempts), cached.value)
    decreases |attempts|
  {
    if attempts != [] {
      var a := attempts[0];
      var o := Send(a.cfg, cached, a.message, a.transport);
      var rest := RunAll(o.client, attempts[1..]);
      PostsShareOneClient(o.client, attempts[1..]);
      ClientCreatedAtMostOnce(o.client, attempts[1..]);
      var run := RunAll(cached, attempts);
      assert run.client == rest.client;
      assert run.posted == Issued(o.posted) + rest.posted;
      if o.posted.Some? {
        assert o.client.Some? && o.posted.value.client == o.client.value;
        assert rest.client == o.client;
      }
      assert rest.posted != [] ==> rest.client.Some?;
      assert run.posted != [] ==> run.client.Some?;
      forall i | 0 <= i < |run.posted|
        ensures run.client.Some? && run.posted[i].client == run.client.value
      {
        if i < |Issued(o.posted)| {
          assert run.posted[i] == o.posted.value;
        } else {
          var k := i - |Issued(o.posted)|;
          assert run.posted[i] == rest.posted[k];
          assert rest.client.Some?;
          assert rest.posted[k].client == rest.client.value;
        }
      }
    }
  }

  /** Sending a message again with the same configuration fills nothing more:
      the first send already set every option a default could reach. */
  lemma SecondSendFillsNothing(cfg: Config, cached: Option<Client>, m: MessageState, t1: Transport, t2: Transport)
    ensures var first := Send(cfg, cached, m, t1);
      Send(cfg, first.client, first.message, t2).message == first.message
  {
    MergeIdempotent(cfg.defaults, m.options);
  }

  /** A missing API key fails only when the client is created: by then the
      defaults are already on the message, and nothing is posted. */
  lemma MissingKeyFailsAfterMerge(cfg: Config, m: MessageState, t: Transport)
    requires Truthy(cfg.domain) && !Truthy(cfg.key)
    ensures var o := Send(cfg, None, m, t);
      o.result == Err(MissingApiKey) && o.posted.None? && o.client.None? &&
      o.message.options == Merge(cfg.defaults, m.options)
  {
  }

  /** The worked example: defaults from "a@example.com" and tag "sys" reach a
      message that set neither; the one request goes to "example.com/messages". */
  lemma DefaultsReachPayload()
    ensures var cfg := Config(Some("example.com"), Some("key-123"),
                              Defaults(Some(Address("a@example.com")), ["sys"], None, None, None, None, None));
      var fields := [("to", "b@example.com"), ("subject", "Hi"), ("text", "hello")];
      var o := Send(cfg, None, MessageState(Unset, fields, []), Delivered(""));
      o.result == Ok(true) &&
      o.posted == Some(Request(Client("key-123"), "example.com/messages",
        Payload(Unset.(from := Some(Address("a@example.com")), tags := Some(["sys"])), fields), []))
  {
    var d := Defaults(Some(Address("a@example.com")), ["sys"], None, None, None, None, None);
    AddTagsAppends(None, ["sys"]);
    assert [] + ["sys"] == ["sys"];
    assert Merge(d, Unset) == Unset.(from := Some(Address("a@example.com")), tags := Some(["sys"]));
    assert MessagesPath("example.com") == "example.com/messages";
  }

  /** The worked example with an explicit sender: the message's own sender is posted. */
  lemma MessageSenderWins()
    ensures var cfg := Config(Some("example.com"), Some("key-123"),
                              Defaults(Some(Address("a@example.com")), [], None, None, None, None, None));
      var m := MessageState(Unset.(from := Some(Address("c@example.com"))), [], []);
      var o := Send(cfg, None, m, Delivered(""));
      o.posted.Some? && o.posted.value.payload.options.from == Some(Address("c@example.com"))
  {
  }
}
