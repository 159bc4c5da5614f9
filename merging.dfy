/** The mailer's default-merge rule: which of its defaults a message receives. */
module Merging {
  import opened Common
  import opened Messages

  /** The mailer's seven defaults. `tags` is a list whose unset value is the
      empty list; the others are `null` (`None`) unless configured. */
  datatype Defaults = Defaults(
    from: Option<Sender>,
    tags: seq<string>,
    campaignId: Option<CampaignId>,
    dkim: Option<bool>,
    testMode: Option<bool>,
    clickTracking: Option<ClickTracking>,
    opensTracking: Option<bool>)

  /** One option's outcome under the merge: the value changes exactly when the
      message had left it null and the mailer has a default that passes its
      test, and a changed value is the default, verbatim. */
  predicate Fills<T(==)>(before: Option<T>, after: Option<T>, default: Option<T>, applies: bool) {
    (after != before <==> before.None? && applies) &&
    (after != before ==> after == default)
  }

  /** Fill a null option from a default that is tested with `!== null`. */
  function FillUnset<T>(default: Option<T>, current: Option<T>): Option<T> {
    if default.Some? && current.None? then default else current
  }

  /** The merge done by the mailer before posting, option by option. `from` and `tags` need a truthy default; the other five
      only a non-null one, so a `false` default is still applied. */
  function Merge(d: Defaults, m: MessageOptions): (r: MessageOptions)
    ensures Fills(m.from, r.from, d.from, SenderTruthy(d.from))
    ensures Fills(m.tags, r.tags, Some(d.tags), d.tags != [])
    ensures Fills(m.campaignId, r.campaignId, d.campaignId, d.campaignId.Some?)
    ensures Fills(m.dkim, r.dkim, d.dkim, d.dkim.Some?)
    ensures Fills(m.testMode, r.testMode, d.testMode, d.testMode.Some?)
    ensures Fills(m.clickTracking, r.clickTracking, d.clickTracking, d.clickTracking.Some?)
    ensures Fills(m.opensTracking, r.opensTracking, d.opensTracking, d.opensTracking.Some?)
  {
    AddTagsAppends(m.tags, d.tags);
    assert [] + d.tags == d.tags;
    MessageOptions(
      from := if SenderTruthy(d.from) && m.from.None? then d.from else m.from,
      tags := if d.tags != [] && m.tags.None? then AddTags(m.tags, d.tags) else m.tags,
      campaignId := FillUnset(d.campaignId, m.campaignId),
      dkim := FillUnset(d.dkim, m.dkim),
      testMode := FillUnset(d.testMode, m.testMode),
      clickTracking := FillUnset(d.clickTracking, m.clickTracking),
      opensTracking := FillUnset(d.opensTracking, m.opensTracking))
  }

  /** An option the message has set is never overwritten by any default. */
  lemma MessageValueWins(d: Defaults, m: MessageOptions)
    ensures m.from.Some? ==> Merge(d, m).from == m.from
    ensures m.tags.Some? ==> Merge(d, m).tags == m.tags
    ensures m.campaignId.Some? ==> Merge(d, m).campaignId == m.campaignId
    ensures m.dkim.Some? ==> Merge(d, m).dkim == m.dkim
    ensures m.testMode.Some? ==> Merge(d, m).testMode == m.testMode
    ensures m.clickTracking.Some? ==> Merge(d, m).clickTracking == m.clickTracking
    ensures m.opensTracking.Some? ==> Merge(d, m).opensTracking == m.opensTracking
  {
  }

  /** Merging leaves every option it applies set, so a second merge with the
      same defaults changes nothing. */
  lemma MergeIdempotent(d: Defaults, m: MessageOptions)
    ensures Merge(d, Merge(d, m)) == Merge(d, m)
  {
  }

  /** A `false` default passes the `!== null` test and reaches a message that
      left the option null, for each of the four flags on its own. */
  lemma FalseDefaultApplied(d: Defaults, m: MessageOptions)
    ensures d.dkim == Some(false) && m.dkim.None? ==> Merge(d, m).dkim == Some(false)
    ensures d.testMode == Some(false) && m.testMode.None? ==> Merge(d, m).testMode == Some(false)
    ensures d.clickTracking == Some(Tracking(false)) && m.clickTracking.None? ==>
      Merge(d, m).clickTracking == Some(Tracking(false))
    ensures d.opensTracking == Some(false) && m.opensTracking.None? ==> Merge(d, m).opensTracking == Some(false)
  {
  }

  /** An empty default tag list never touches the message's tags, and a falsy
      default sender (null, "" or "0") never touches its sender, each on its own
      and even when the message left the option null. */
  lemma FalsyDefaultsIgnored(d: Defaults, m: MessageOptions)
    ensures d.tags == [] ==> Merge(d, m).tags == m.tags
    ensures (d.from.None? || d.from == Some(Address("")) || d.from == Some(Address("0"))) ==>
      Merge(d, m).from == m.from
  {
  }
}
