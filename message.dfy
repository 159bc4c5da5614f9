/** The part of a Mailgun message that the mailer reads and writes: the seven
    provider options, the remaining builder payload and the attached files. */
module Messages {
  import opened Common

  /** The seven options the mailer may fill from its defaults. `None` is PHP `null`,
      i.e. the message never set the option. */
  datatype MessageOptions = MessageOptions(
    from: Option<Sender>,
    tags: Option<seq<string>>,
    campaignId: Option<CampaignId>,
    dkim: Option<bool>,
    testMode: Option<bool>,
    clickTracking: Option<ClickTracking>,
    opensTracking: Option<bool>)

  /** A freshly created message has set none of the options. */
  const Unset := MessageOptions(None, None, None, None, None, None, None)

  /** A file sent alongside the payload: its path and an optional display name. */
  datatype Attachment = Attachment(path: string, fileName: Option<string>)

  /** The builder payload handed to the transport: the options and every other
      field the caller set (recipients, subject, bodies, custom variables),
      the latter kept as opaque name/value entries. The sender and the `o:`
      option entries live only in `options`: `fields` never holds an entry
      named "from" or starting with "o:", so reading an option from the
      payload reads it from `options`. */
  datatype Payload = Payload(options: MessageOptions, fields: seq<(string, string)>)

  /** The whole state of a message as a value. */
  datatype MessageState = MessageState(options: MessageOptions, fields: seq<(string, string)>, files: seq<Attachment>)

  /** The tag list as the builder holds it: no tag yet is an empty list. */
  function TagList(tags: Option<seq<string>>): seq<string> {
    if tags.Some? then tags.value else []
  }

  /** The tag field after adding `added` one tag at a time: each addition appends
      one tag to the builder's list and records the whole list. No tag added,
      no change. */
  function AddTags(tags: Option<seq<string>>, added: seq<string>): Option<seq<string>>
    decreases |added|
  {
    if added == [] then tags
    else Some(TagList(AddTags(tags, added[..|added| - 1])) + [added[|added| - 1]])
  }

  /** Adding a non-empty list appends all of it, in order, to what was there;
      adding the empty list leaves the field as it was, null included. */
  lemma {:induction false} AddTagsAppends(tags: Option<seq<string>>, added: seq<string>)
    ensures added == [] ==> AddTags(tags, added) == tags
    ensures added != [] ==> AddTags(tags, added) == Some(TagList(tags) + added)
    decreases |added|
  {
    if added != [] {
      var init := added[..|added| - 1];
      AddTagsAppends(tags, init);
      if init == [] {
        assert added == [added[0]];
      } else {
        assert AddTags(tags, init) == Some(TagList(tags) + init);
        assert (TagList(tags) + init) + [added[|added| - 1]] == TagList(tags) + added;
      }
    }
  }

  /** One outgoing message. The option fields play the part of the message's
      shadow fields (and, for `from`, of the payload's sender entry). Assigning
      an option stands for calling its setter, which records its argument; only
      the tag setter does more, and is a method. */
  class Message {
    var from: Option<Sender>
    var tags: Option<seq<string>>
    var campaignId: Option<CampaignId>
    var dkim: Option<bool>
    var testMode: Option<bool>
    var clickTracking: Option<ClickTracking>
    var opensTracking: Option<bool>
    var fields: seq<(string, string)>
    var files: seq<Attachment>

    /** A message whose other fields and files the caller has already set. */
    constructor (fields: seq<(string, string)>, files: seq<Attachment>)
      ensures Options() == Unset
      ensures this.fields == fields && this.files == files
    {
      from, tags, campaignId, dkim, testMode, clickTracking, opensTracking :=
        None, None, None, None, None, None, None;
      this.fields, this.files := fields, files;
    }

    function Options(): MessageOptions
      reads this
    {
      MessageOptions(from, tags, campaignId, dkim, testMode, clickTracking, opensTracking)
    }

    function State(): MessageState
      reads this
    {
      MessageState(Options(), fields, files)
    }

    /** The payload the transport receives: the message's options (the sender
        included) and its other fields. */
    function GetMessage(): Payload
      reads this
    {
      Payload(Options(), fields)
    }

    /** The files the transport receives: every attachment, in the order added. */
    function GetFiles(): seq<Attachment>
      reads this
    {
      files
    }

    /** Adds each tag in turn; an empty list leaves the field untouched (null stays null). */
    method SetTags(added: seq<string>)
      modifies this`tags
      ensures tags == AddTags(old(tags), added)
      ensures added != [] ==> tags == Some(TagList(old(tags)) + added)
      ensures added == [] ==> tags == old(tags)
    {
      var i := 0;
      while i < |added|
        invariant 0 <= i <= |added|
        invariant tags == AddTags(old(tags), added[..i])
      {
        assert added[..i + 1][..i] == added[..i];
        tags := Some(TagList(tags) + [added[i]]);
        i := i + 1;
      }
      assert added[..i] == added;
      AddTagsAppends(old(tags), added);
    }
  }
}
