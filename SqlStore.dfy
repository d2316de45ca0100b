/** The relational store behind the notifier: the subscriptions, tags and
    trends tables of the SQLAlchemy schema, the two association tables that
    link tags to subscriptions and to trends, the three insert operations and
    the two read-only trend queries. The tables live in memory; a method's
    commit is the assignment of its new rows. */
module SqlStore {
  import opened Wrappers
  import opened Strings

  datatype Subscription = Subscription(id: nat, email: string, notes: Option<string>)

  datatype Tag = Tag(id: nat, name: string)

  /** A news item. `summary`, `url` and `source` are nullable columns. */
  datatype Trend = Trend(
    id: nat,
    topic: string,
    summary: Option<string>,
    url: Option<string>,
    source: Option<string>,
    notified: bool)

  /** The committed content of the five tables. */
  datatype Tables = Tables(
    subscriptions: seq<Subscription>,
    tags: seq<Tag>,
    trends: seq<Trend>,
    subscriptionTags: set<(nat, nat)>,  // (subscription_id, tag_id)
    trendTags: set<(nat, nat)>)         // (trend_id, tag_id)

  // ---------------------------------------------------------------------
  // Row ids
  // ---------------------------------------------------------------------

  function SubscriptionIds(rows: seq<Subscription>): seq<nat> {
    seq(|rows|, i requires 0 <= i < |rows| => rows[i].id)
  }

  function TagIds(rows: seq<Tag>): seq<nat> {
    seq(|rows|, i requires 0 <= i < |rows| => rows[i].id)
  }

  function TrendIds(rows: seq<Trend>): seq<nat> {
    seq(|rows|, i requires 0 <= i < |rows| => rows[i].id)
  }

  predicate StrictlyIncreasing(ids: seq<nat>) {
    forall i, j :: 0 <= i < j < |ids| ==> ids[i] < ids[j]
  }

  /** The id SQLite gives a new row of a table whose integer primary key is
      declared without AUTOINCREMENT: one more than the largest id present,
      and 1 in an empty table. */
  function NextRowId(ids: seq<nat>): (r: nat)
    ensures r >= 1
    ensures forall i :: 0 <= i < |ids| ==> ids[i] < r
    ensures |ids| > 0 ==> r - 1 in ids
  {
    if |ids| == 0 then 1
    else
      var m := NextRowId(ids[..|ids| - 1]);
      if ids[|ids| - 1] >= m then ids[|ids| - 1] + 1 else m
  }

  // ---------------------------------------------------------------------
  // Table invariants: ids ascend in insertion order, tag names and
  // subscription emails are UNIQUE columns
  // ---------------------------------------------------------------------

  predicate UniqueNames(tags: seq<Tag>) {
    forall i, j :: 0 <= i < j < |tags| ==> tags[i].name != tags[j].name
  }

  predicate UniqueEmails(subs: seq<Subscription>) {
    forall i, j :: 0 <= i < j < |subs| ==> subs[i].email != subs[j].email
  }

  predicate WellFormed(t: Tables) {
    && StrictlyIncreasing(SubscriptionIds(t.subscriptions))
    && StrictlyIncreasing(TagIds(t.tags))
    && StrictlyIncreasing(TrendIds(t.trends))
    && UniqueNames(t.tags)
    && UniqueEmails(t.subscriptions)
  }

  predicate EmailTaken(subs: seq<Subscription>, email: string) {
    exists i :: 0 <= i < |subs| && subs[i].email == email
  }

  predicate NameTaken(tags: seq<Tag>, name: string) {
    exists i :: 0 <= i < |tags| && tags[i].name == name
  }

  /** Every trend whose id is in `ids` marked notified; nothing else changes. */
  function Flag(ts: seq<Trend>, ids: set<nat>): seq<Trend> {
    seq(|ts|, i requires 0 <= i < |ts| => if ts[i].id in ids then ts[i].(notified := true) else ts[i])
  }

  lemma AppendKeepsIncreasing(ids: seq<nat>)
    requires StrictlyIncreasing(ids)
    ensures StrictlyIncreasing(ids + [NextRowId(ids)])
  {
  }

  // ---------------------------------------------------------------------
  // The store object
  // ---------------------------------------------------------------------

  class Store {
    var subscriptions: seq<Subscription>
    var tags: seq<Tag>
    var trends: seq<Trend>
    var subscriptionTags: set<(nat, nat)>
    var trendTags: set<(nat, nat)>

    function State(): Tables
      reads this
    {
      Tables(subscriptions, tags, trends, subscriptionTags, trendTags)
    }

    ghost predicate Valid()
      reads this
    {
      WellFormed(State())
    }

    /** A fresh database: the schema created, every table empty. */
    constructor ()
      ensures Valid() && State() == Tables([], [], [], {}, {})
    {
      subscriptions, tags, trends := [], [], [];
      subscriptionTags, trendTags := {}, {};
    }

    /** Adds a subscription whose tag collection holds the tags `tagIds`.
        The UNIQUE email column makes a second row with the same email fail:
        the commit raises, the result is None and no table changes. */
    method AddSubscription(email: string, notes: Option<string>, tagIds: set<nat>) returns (r: Option<Subscription>)
      requires Valid()
      modifies this
      ensures Valid()
      ensures r.None? <==> EmailTaken(old(subscriptions), email)
      ensures r.None? ==> State() == old(State())
      ensures r.Some? ==>
        && r.value == Subscription(NextRowId(SubscriptionIds(old(subscriptions))), email, notes)
        && subscriptions == old(subscriptions) + [r.value]
        && subscriptionTags == old(subscriptionTags) + (set g | g in tagIds :: (r.value.id, g))
        && tags == old(tags) && trends == old(trends) && trendTags == old(trendTags)
    {
      if EmailTaken(subscriptions, email) {
        return None;
      }
      var row := Subscription(NextRowId(SubscriptionIds(subscriptions)), email, notes);
      AppendKeepsIncreasing(SubscriptionIds(subscriptions));
      assert SubscriptionIds(subscriptions + [row]) == SubscriptionIds(subscriptions) + [row.id];
      subscriptions := subscriptions + [row];
      subscriptionTags := subscriptionTags + (set g | g in tagIds :: (row.id, g));
      r := Some(row);
    }

    /** get_subscriptions: every subscription row, in table order. */
    function GetSubscriptions(): seq<Subscription>
      reads this
    {
      subscriptions
    }

    /** get_all_topics(limit=10). */
    function GetAllTopics(limit: int := DefaultTopicLimit): seq<string>
      reads this
    {
      AllTopics(trends, limit)
    }

    /** Adds a tag. The UNIQUE name column makes a second tag with the same
        name fail: the result is None and no table changes. */
    method AddTag(name: string) returns (r: Option<Tag>)
      requires Valid()
      modifies this
      ensures Valid()
      ensures r.None? <==> NameTaken(old(tags), name)
      ensures r.None? ==> State() == old(State())
      ensures r.Some? ==>
        && r.value == Tag(NextRowId(TagIds(old(tags))), name)
        && tags == old(tags) + [r.value]
        && subscriptions == old(subscriptions) && trends == old(trends)
        && subscriptionTags == old(subscriptionTags) && trendTags == old(trendTags)
    {
      if NameTaken(tags, name) {
        return None;
      }
      var row := Tag(NextRowId(TagIds(tags)), name);
      AppendKeepsIncreasing(TagIds(tags));
      assert TagIds(tags + [row]) == TagIds(tags) + [row.id];
      tags := tags + [row];
      r := Some(row);
    }

    /** Adds a trend tagged with `tagIds`. A trend created without a
        `notified` value gets the column default, false. */
    method AddTrend(topic: string, summary: Option<string>, url: Option<string>, source: Option<string>,
                    notified: Option<bool>, tagIds: set<nat>) returns (row: Trend)
      requires Valid()
      modifies this
      ensures Valid()
      ensures row == Trend(NextRowId(TrendIds(old(trends))), topic, summary, url, source, notified.GetOr(false))
      ensures trends == old(trends) + [row]
      ensures trendTags == old(trendTags) + (set g | g in tagIds :: (row.id, g))
      ensures subscriptions == old(subscriptions) && tags == old(tags)
      ensures subscriptionTags == old(subscriptionTags)
    {
      row := Trend(NextRowId(TrendIds(trends)), topic, summary, url, source, notified.GetOr(false));
      AppendKeepsIncreasing(TrendIds(trends));
      assert TrendIds(trends + [row]) == TrendIds(trends) + [row.id];
      trends := trends + [row];
      trendTags := trendTags + (set g | g in tagIds :: (row.id, g));
    }

    /** `t.notified = True` on the loaded row with this id, as the sender does
        after a successful delivery. */
    method SetNotified(id: nat)
      requires Valid()
      modifies this
      ensures Valid()
      ensures trends == Flag(old(trends), {id})
      ensures subscriptions == old(subscriptions) && tags == old(tags)
      ensures subscriptionTags == old(subscriptionTags) && trendTags == old(trendTags)
    {
      assert TrendIds(Flag(trends, {id})) == TrendIds(trends);
      trends := Flag(trends, {id});
    }

    /** Replaces the tables by `session` in one step: a commit of a session's
        staged rows, or a rollback to the state the session started from. */
    method Apply(session: Tables)
      requires WellFormed(session)
      modifies this
      ensures Valid() && State() == session
    {
      subscriptions, tags, trends := session.subscriptions, session.tags, session.trends;
      subscriptionTags, trendTags := session.subscriptionTags, session.trendTags;
    }
  }

  // ---------------------------------------------------------------------
  // Read-only queries
  // ---------------------------------------------------------------------

  /** get_all_topics' default `limit`. */
  const DefaultTopicLimit := 10

  /** Topics of all trends, highest id (newest) first. */
  function NewestTopics(trends: seq<Trend>): (r: seq<string>)
    ensures |r| == |trends|
    ensures forall i :: 0 <= i < |r| ==> r[i] == trends[|trends| - 1 - i].topic
  {
    if |trends| == 0 then []
    else [trends[|trends| - 1].topic] + NewestTopics(trends[..|trends| - 1])
  }

  /** get_all_topics(limit): `SELECT topic ORDER BY id DESC LIMIT limit`.
      SQLite reads a negative LIMIT as no limit. Topics are not deduplicated. */
  function AllTopics(trends: seq<Trend>, limit: int): (r: seq<string>)
    ensures |r| == if limit < 0 || limit > |trends| then |trends| else limit
    ensures forall i :: 0 <= i < |r| ==> r[i] == trends[|trends| - 1 - i].topic
  {
    var all := NewestTopics(trends);
    if limit < 0 || limit > |all| then all else all[..limit]
  }

  /** In a well-formed table the listed topics are those of the last |r|
      rows, which carry the highest ids, read from the highest id down. */
  lemma AllTopicsAreNewest(trends: seq<Trend>, limit: int)
    requires StrictlyIncreasing(TrendIds(trends))
    ensures var r := AllTopics(trends, limit);
      && (forall k :: |trends| - |r| <= k < |trends| ==> r[|trends| - 1 - k] == trends[k].topic)
      && (forall j, k :: 0 <= j < |trends| - |r| <= k < |trends| ==> trends[j].id < trends[k].id)
  {
    var ids := TrendIds(trends);
    assert forall i :: 0 <= i < |trends| ==> ids[i] == trends[i].id;
  }

  /** The WHERE clause of select_trend_by_topic_or_link: the lowercased topic
      equals the lowercased `topic`, or the url is not NULL and its lowercase
      equals the lowercased `link`. Either half alone suffices; a trend with a
      NULL url can only match through its topic. */
  predicate MatchesTopicOrLink(t: Trend, topic: string, link: string) {
    Lower(t.topic) == Lower(topic) || (t.url.Some? && Lower(t.url.value) == Lower(link))
  }

  /** select_trend_by_topic_or_link: the first matching trend (LIMIT 1), or
      None when no stored trend matches. */
  function SelectTrendByTopicOrLink(trends: seq<Trend>, topic: string, link: string): (r: Option<Trend>)
    ensures r.None? <==> forall t :: t in trends ==> !MatchesTopicOrLink(t, topic, link)
    ensures r.Some? ==> r.value in trends && MatchesTopicOrLink(r.value, topic, link)
  {
    if |trends| == 0 then None
    else if MatchesTopicOrLink(trends[0], topic, link) then Some(trends[0])
    else SelectTrendByTopicOrLink(trends[1..], topic, link)
  }
}
