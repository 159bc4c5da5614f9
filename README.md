# Mailgun mailer for Yii 2: the send rule

This project models the part of the `e96\mailgunmailer` Yii 2 extension that
holds its own logic: `Mailer::sendMessage` and the lazily created Mailgun
client behind it. A send does three things in order.

1. **Domain check.** A falsy `domain` (null, `""` or `"0"` under PHP's rules)
   raises `MissingRequiredParameters` before anything else happens.
2. **Default merge.** Each of seven options (sender, tags, campaign id, DKIM,
   test mode, click tracking, open tracking) is copied from the mailer onto the
   message only when the message's value is `null`. The sender and the tags
   need a *truthy* default: a sender other than null, `""` or `"0"` (any
   `[address => name]` entry counts), and a non-empty tag list. The
   other five only need a non-null default, so a `false` default is applied.
3. **Dispatch.** The mailer obtains its SDK client and posts once to
   `"{domain}/messages"` with the message's payload and file list. It then
   returns `true`, whatever the response says. The client is created on first
   use only, and that is the only moment the API key is checked. So a missing
   key fails after the merge has already changed the message.

Layout:

- `common.dfy` (`Common`): optional values, results, the exceptions a send
  raises, PHP truthiness, and the value types of the options.
- `message.dfy` (`Messages`): the `Message` class. It holds the seven options,
  the rest of the builder payload as opaque entries, and the attached files.
  Its tag setter is modelled with its loop.
- `merging.dfy` (`Merging`): the mailer's defaults and `Merge`, the merge rule
  as a function on values, with its properties.
- `mailer.dfy` (`Mailers`): `Send`, one send as a function on values, and the
  `Mailer` class. Its methods change the message and the client cache in
  place and are proved against `Send`. A ghost `outbox` records every request
  handed to the HTTP client.
- `repeated.dfy` (`Repeated`): a series of sends through one mailer. It shows
  that the client is created at most once and that every post uses it.

Three behaviours of the code that a reader might not expect, and that the model keeps:

- The API key is not checked before the merge. It is checked only when the
  client is first created.
- The sender and tags defaults are applied only when truthy. They are not
  applied whenever the message leaves them unset.
- A response that is not an exception is reported as success, and the model
  states this (`Mailers.ResponseIgnored`).

## Model

| member | source | states |
|---|---|---|
| `Messages.AddTagsAppends` | Message.php:250-256 | Adding tags one at a time appends the whole list, in order, to the tags already there. Adding an empty list leaves the field as it was, so a null field stays null. |
| `Messages.Message.SetTags` | Message.php:250-256 | The loop leaves the tag field equal to the old tags followed by every added tag, in order. An empty list leaves it unchanged. |
| `Messages.Message.constructor` | Message.php:28-33 | A new message has all seven options unset (null): the six shadow fields start null, and the sender is null because the payload starts empty (`getFrom`, Message.php:66-69). |
| `Merging.Merge` | Mailer.php:75-95 | For each option, the merged value differs from the message's value exactly when the message left it null and the mailer's default passes that option's test. A changed value is the default, verbatim. The test is truthiness for the sender and a non-empty list for tags. For the other five it is `!== null`. |
| `Merging.MessageValueWins` | Mailer.php:75-95 | An option the message has set is never overwritten by any default. |
| `Merging.MergeIdempotent` | Mailer.php:75-95 | Merging twice with the same defaults gives the same result as merging once. |
| `Merging.FalseDefaultApplied` | Mailer.php:84-95 | For each of DKIM, test mode, click tracking and open tracking on its own, a `false` default still reaches a message that left that option null. |
| `Merging.FalsyDefaultsIgnored` | Mailer.php:75-80 | An empty default tag list never changes the message's tags, and a sender default that is null, `""` or `"0"` never changes its sender, each whatever the other default is. |
| `Mailers.CreateClient` | Mailer.php:114-121 | Client creation fails with the missing-key error exactly when the key is falsy. Otherwise the client carries that key. |
| `Mailers.Send` | Mailer.php:69-107 | A falsy domain fails first and changes nothing. Past that check the defaults are merged, whatever happens next. Nothing is posted exactly when the domain is falsy, or no client is cached and the key is falsy. Otherwise exactly one request goes through the cached client to `domain + "/messages"`, carrying the merged payload and the files. The result is `Ok(true)` exactly when a request was issued and the HTTP call returned. A transport exception is passed on unchanged. |
| `Mailers.KeyOnlyReadAtCreation` | Mailer.php:55-62 | Once a client is cached, the configured API key has no effect on a send. |
| `Mailers.ResponseIgnored` | Mailer.php:98-106 | Any two responses give the same outcome, because the response body is never inspected. |
| `Mailers.Mailer.constructor` | Mailer.php:39-50 | A configured mailer starts with no client and an empty outbox. |
| `Mailers.Mailer.GetMailgunMailer` | Mailer.php:55-62 | Returns the cached client if there is one, without looking at the key. Otherwise it creates a client and caches it on success. A cached client is never replaced. |
| `Mailers.Mailer.CreateMailgunMailer` | Mailer.php:114-121 | Succeeds exactly when the key is truthy, with a client built from that key. |
| `Mailers.Mailer.ApplyDefaults` | Mailer.php:75-95 | The message's options become `Merge` of the mailer's defaults and its old options. Its other fields and files do not change. |
| `Mailers.Mailer.ApplyTruthyDefaults` | Mailer.php:75-80 | Sets the sender from a truthy default and the tags from a non-empty default list, each only when the message's value is null. Nothing else changes. |
| `Mailers.Mailer.ApplyDeliveryDefaults` | Mailer.php:81-89 | Sets campaign id, DKIM and test mode from non-null defaults, each only when the message's value is null. Nothing else changes. |
| `Mailers.Mailer.ApplyTrackingDefaults` | Mailer.php:90-95 | Sets click and open tracking from non-null defaults, each only when the message's value is null. Nothing else changes. |
| `Mailers.Mailer.SendMessage` | Mailer.php:69-107 | The client cache, the message, the requests added to the outbox and the result are exactly those `Send` gives for the state before the call. The configuration does not change. |
| `Repeated.ClientCreatedAtMostOnce` | Mailer.php:55-62 | Over any series of sends a client is created at most once. None is created when one is already cached, and a cached client stays cached. |
| `Repeated.PostsShareOneClient` | Mailer.php:55-62 | Every request in a series goes through the single client cached at its end. With a client cached from the start, all requests use it, whatever key is configured later. |
| `Repeated.SecondSendFillsNothing` | Mailer.php:71-95 | Sending the same message again with the same configuration, under any configuration, fills no further option. |
| `Repeated.MissingKeyFailsAfterMerge` | Mailer.php:71-118 | With a valid domain, a falsy key and no cached client, the send fails with the missing-key error. No request is posted and no client is cached, but the message already carries the merged defaults. |
| `Repeated.DefaultsReachPayload` | Mailer.php:75-102 | Worked example: a sender default `a@example.com` and a tag default `sys` reach a message that set neither. The single request goes to `example.com/messages` and the send returns `true`. |
| `Repeated.MessageSenderWins` | Mailer.php:75-77 | Worked example: a message that set its own sender posts that sender, not the mailer's default. |

## Left out

- `Messages.Message.GetMessage`, `Messages.Message.GetFiles`: plain reads of the message state with no contract of their own. What they return is stated by `Mailers.Send`'s posted-request clause through `Mailers.Mailer.SendMessage`. The builder's own payload layout is not modelled.
- Message setters other than `setTags`: each is modelled as recording its argument. The SDK's return value, which the source stores in the shadow fields, is not modelled. Nor is the payload layout the builder produces.
- Getters and setters for recipients, reply-to, subject, text and HTML bodies, custom variables and charset: these fields are opaque name/value entries set when the message is built. Only the mailer's view of them (payload plus files) is modelled.
- Limits the SDK enforces (`TooManyParameters` for tags and campaign ids) and its click-tracking validation: that code is not part of this model.
- `attach`, `embed`, `attachContent` and `embedContent`: file handling and `NotSupportedException` belong to the message builder and the disk, not to the send rule. Attachments appear only as the file list that is posted.
- The HTTP request and the Mailgun client: the post is recorded in a ghost outbox, and how the call ends is a parameter.
- `Yii::info` logging and `print_r` rendering: diagnostic output with no contract.
- Inheritance from Yii's `BaseMailer`/`BaseMessage`, including how `send` reaches `sendMessage` and how property syntax reaches the getters and setters: framework code that is not part of this model.
- Configuration values of other PHP types: domain, key and the sender are strings or null, with a sender array limited to one entry, and `tags` is a list. Integers, booleans or a null tag list in those properties are not modelled.
