/** The reference ingest → dedup → persist → send step: the planner of the
    database test. Items the dedup check reports as already stored are
    skipped; every other item becomes one unsent trend tagged with the tag
    named exactly like the query (found, or created once); everything is
    committed together after the loop, and then the sender runs one pass.
    The ingestion result, the dedup check and the SMTP server are inputs. */
module ReferencePlanner {
  import opened Wrappers
  import opened SqlStore
  import opened EmailSender

  /** One ingested news item. */
  datatype NewsItem = NewsItem(topic: string, summary: string, link: string)

  /** `SELECT tag WHERE name = ?` (exact comparison): the first tag so named. */
  function FindTag(tags: seq<Tag>, name: string): (r: Option<Tag>)
    ensures r.None? <==> !NameTaken(tags, name)
    ensures r.Some? ==> r.value in tags && r.value.name == name
  {
    if |tags| == 0 then None
    else if tags[0].name == name then Some(tags[0])
    else
      assert forall i :: 1 <= i < |tags| ==> tags[i] == tags[1..][i - 1];
      FindTag(tags[1..], name)
  }
  /** The id the query's tag has, or gets when it is created. */
  function QueryTagId(tags: seq<Tag>, query: string): nat {
    match FindTag(tags, query)
    case Some(g) => g.id
    case None => NextRowId(TagIds(tags))
  }

  /** The tags once the query's tag is got or created: unchanged when a tag
      has that name, else one new tag with the next id. */
  function WithQueryTag(tags: seq<Tag>, query: string): seq<Tag> {
    if NameTaken(tags, query) then tags else tags + [Tag(NextRowId(TagIds(tags)), query)]
  }

  /** One surviving item staged in the session: a new trend with the item's
      fields and `notified = false`, the query's tag got or created, and the
      link between the two. */
  function Stage(t: Tables, query: string, item: NewsItem): Tables {
    var trend := NewTrend(NextRowId(TrendIds(t.trends)), item);
    t.(trends := t.trends + [trend], tags := WithQueryTag(t.tags, query),
       trendTags := t.trendTags + {(trend.id, QueryTagId(t.tags, query))})
  }

  /** The items the dedup check lets through, in input order. */
  function Survivors(items: seq<NewsItem>, stored: (string, string) -> bool): (s: seq<NewsItem>)
    ensures |s| <= |items|
    ensures (forall i :: 0 <= i < |items| ==> !stored(items[i].topic, items[i].link)) ==> s == items
  {
    if |items| == 0 then []
    else
      var init := items[..|items| - 1];
      var last := items[|items| - 1];
      Survivors(init, stored) + (if stored(last.topic, last.link) then [] else [last])
  }

  /** An item survives exactly when the dedup check does not report it. */
  lemma {:induction false} SurvivorsMembers(items: seq<NewsItem>, stored: (string, string) -> bool)
    ensures forall x :: x in Survivors(items, stored) <==> x in items && !stored(x.topic, x.link)
    decreases |items|
  {
    if |items| > 0 {
      var init := items[..|items| - 1];
      assert items == init + [items[|items| - 1]];
      SurvivorsMembers(init, stored);
    }
  }

  function Topics(items: seq<NewsItem>): seq<string> {
    seq(|items|, k requires 0 <= k < |items| => items[k].topic)
  }

  lemma TopicsAppend(s: seq<NewsItem>, item: NewsItem)
    ensures Topics(s + [item]) == Topics(s) + [item.topic]
  {
  }

  /** The session after the loop over `items`. */
  function Persist(t: Tables, query: string, items: seq<NewsItem>, stored: (string, string) -> bool): Tables
    decreases |items|
  {
    if |items| == 0 then t
    else
      var p := Persist(t, query, items[..|items| - 1], stored);
      var last := items[|items| - 1];
      if stored(last.topic, last.link) then p else Stage(p, query, last)
  }

  /** The trends created for the surviving items, with consecutive ids from
      `first`. */
  function Created(first: nat, s: seq<NewsItem>): seq<Trend> {
    seq(|s|, k requires 0 <= k < |s| => NewTrend(first + k, s[k]))
  }

  function NewTrend(id: nat, item: NewsItem): Trend {
    Trend(id, item.topic, Some(item.summary), Some(item.link), None, false)
  }

  lemma CreatedAppend(first: nat, s: seq<NewsItem>, item: NewsItem)
    ensures Created(first, s + [item]) == Created(first, s) + [NewTrend(first + |s|, item)]
  {
    var c := Created(first, s + [item]);
    assert c[|s|] == NewTrend(first + |s|, item);
  }

  lemma StageTrend(t: Tables, query: string, item: NewsItem, id: nat)
    requires NextRowId(TrendIds(t.trends)) == id
    ensures Stage(t, query, item).trends == t.trends + [NewTrend(id, item)]
  {
  }

  function Links(trends: seq<Trend>, tagId: nat): set<(nat, nat)> {
    set t | t in trends :: (t.id, tagId)
  }

  lemma LinksAppend(trends: seq<Trend>, x: Trend, tagId: nat)
    ensures Links(trends + [x], tagId) == Links(trends, tagId) + {(x.id, tagId)}
  {
  }

  lemma StageLinks(t: Tables, query: string, item: NewsItem, id: nat, tagId: nat)
    requires NextRowId(TrendIds(t.trends)) == id && QueryTagId(t.tags, query) == tagId
    ensures Stage(t, query, item).trendTags == t.trendTags + {(id, tagId)}
  {
  }

  /** A trend appended with the next row id keeps the ids increasing and
      moves the next id up by one. */
  lemma AppendTrend(trends: seq<Trend>, trend: Trend)
    requires StrictlyIncreasing(TrendIds(trends)) && trend.id == NextRowId(TrendIds(trends))
    ensures StrictlyIncreasing(TrendIds(trends + [trend]))
    ensures NextRowId(TrendIds(trends + [trend])) == trend.id + 1
  {
    var ids := TrendIds(trends);
    AppendKeepsIncreasing(ids);
    assert TrendIds(trends + [trend]) == ids + [trend.id];
    assert (ids + [trend.id])[..|ids|] == ids;
  }

  lemma {:induction false} FindTagAppend(tags: seq<Tag>, g: Tag)
    requires !NameTaken(tags, g.name)
    ensures FindTag(tags + [g], g.name) == Some(g)
    decreases |tags|
  {
    if |tags| == 0 {
      assert (tags + [g])[0] == g;
    } else {
      assert tags[0].name != g.name;
      assert (tags + [g])[1..] == tags[1..] + [g];
      assert !NameTaken(tags[1..], g.name) by {
        forall i | 0 <= i < |tags[1..]|
          ensures tags[1..][i].name != g.name
        {
          assert tags[1..][i] == tags[i + 1];
        }
      }
      FindTagAppend(tags[1..], g);
    }
  }

  /** Getting or creating the query's tag keeps ids increasing and names
      unique, leaves a tag with that name, keeps the id the query's tag is
      linked under, and is idempotent. */
  lemma WithQueryTagSpec(tags: seq<Tag>, query: string)
    requires StrictlyIncreasing(TagIds(tags)) && UniqueNames(tags)
    ensures var u := WithQueryTag(tags, query);
      && StrictlyIncreasing(TagIds(u)) && UniqueNames(u)
      && NameTaken(u, query)
      && QueryTagId(u, query) == QueryTagId(tags, query)
      && WithQueryTag(u, query) == u
  {
    if !NameTaken(tags, query) {
      var g := Tag(NextRowId(TagIds(tags)), query);
      var u := tags + [g];
      AppendKeepsIncreasing(TagIds(tags));
      assert TagIds(u) == TagIds(tags) + [g.id];
      assert u[|tags|] == g;
      FindTagAppend(tags, g);
    }
  }

  /** One more item of the loop: skipped when the dedup check reports it,
      else staged. */
  lemma PersistUnfold(t: Tables, query: string, items: seq<NewsItem>, stored: (string, string) -> bool)
    requires |items| > 0
    ensures var init, last := items[..|items| - 1], items[|items| - 1];
      if stored(last.topic, last.link) then
        && Persist(t, query, items, stored) == Persist(t, query, init, stored)
        && Survivors(items, stored) == Survivors(init, stored)
      else
        && Persist(t, query, items, stored) == Stage(Persist(t, query, init, stored), query, last)
        && Survivors(items, stored) == Survivors(init, stored) + [last]
  {
    var init := items[..|items| - 1];
    assert Survivors(init, stored) + [] == Survivors(init, stored);
  }

  /** Staging after `s` was staged from `t0` is staging `s + [item]`, as far
      as the trends go. */
  lemma StageTrends(t0: seq<Trend>, p: Tables, query: string, s: seq<NewsItem>, item: NewsItem)
    requires StrictlyIncreasing(TrendIds(t0))
    requires p.trends == t0 + Created(NextRowId(TrendIds(t0)), s)
    requires StrictlyIncreasing(TrendIds(p.trends)) && NextRowId(TrendIds(p.trends)) == NextRowId(TrendIds(t0)) + |s|
    ensures var u := Stage(p, query, item);
      && u.trends == t0 + Created(NextRowId(TrendIds(t0)), s + [item])
      && StrictlyIncreasing(TrendIds(u.trends))
      && NextRowId(TrendIds(u.trends)) == NextRowId(TrendIds(t0)) + |s| + 1
  {
    var first := NextRowId(TrendIds(t0));
    var x := NewTrend(first + |s|, item);
    assert x.id == first + |s|;
    CreatedAppend(first, s, item);
    StageTrend(p, query, item, x.id);
    AppendTrend(p.trends, x);
    calc {
      Stage(p, query, item).trends;
      p.trends + [x];
      t0 + (Created(first, s) + [x]);
      t0 + Created(first, s + [item]);
    }
  }

  /** The trends after the loop: one new unsent trend per surviving item,
      with the item's topic, summary and link and consecutive fresh ids. */
  lemma {:induction false} PersistTrends(t: Tables, query: string, items: seq<NewsItem>, stored: (string, string) -> bool)
    requires StrictlyIncreasing(TrendIds(t.trends))
    ensures var u := Persist(t, query, items, stored);
      var first := NextRowId(TrendIds(t.trends));
      && u.trends == t.trends + Created(first, Survivors(items, stored))
      && StrictlyIncreasing(TrendIds(u.trends))
      && NextRowId(TrendIds(u.trends)) == first + |Survivors(items, stored)|
    decreases |items|
  {
    if |items| == 0 {
      assert Created(NextRowId(TrendIds(t.trends)), []) == [];
    } else {
      var init := items[..|items| - 1];
      var last := items[|items| - 1];
      PersistTrends(t, query, init, stored);
      PersistUnfold(t, query, items, stored);
      if !stored(last.topic, last.link) {
        StageTrends(t.trends, Persist(t, query, init, stored), query, Survivors(init, stored), last);
      }
    }
  }

  /** The tags after the loop: the query's tag is created when missing and
      at least one item survived, and nothing else changes. */
  lemma {:induction false} PersistTags(t: Tables, query: string, items: seq<NewsItem>, stored: (string, string) -> bool)
    requires StrictlyIncreasing(TagIds(t.tags)) && UniqueNames(t.tags)
    ensures var u := Persist(t, query, items, stored);
      && u.tags == (if |Survivors(items, stored)| == 0 then t.tags else WithQueryTag(t.tags, query))
      && StrictlyIncreasing(TagIds(u.tags)) && UniqueNames(u.tags)
      && u.subscriptions == t.subscriptions && u.subscriptionTags == t.subscriptionTags
    decreases |items|
  {
    WithQueryTagSpec(t.tags, query);
    if |items| > 0 {
      var init := items[..|items| - 1];
      PersistTags(t, query, init, stored);
      PersistUnfold(t, query, items, stored);
    }
  }

  /** Staging links the new trend to the query's tag, under the id that tag
      had before the loop. */
  lemma StageLinksAfter(t: Tables, p: Tables, query: string, s: seq<NewsItem>, item: NewsItem)
    requires StrictlyIncreasing(TagIds(t.tags)) && UniqueNames(t.tags)
    requires p.trendTags == t.trendTags + Links(Created(NextRowId(TrendIds(t.trends)), s), QueryTagId(t.tags, query))
    requires NextRowId(TrendIds(p.trends)) == NextRowId(TrendIds(t.trends)) + |s|
    requires p.tags == (if |s| == 0 then t.tags else WithQueryTag(t.tags, query))
    ensures Stage(p, query, item).trendTags
      == t.trendTags + Links(Created(NextRowId(TrendIds(t.trends)), s + [item]), QueryTagId(t.tags, query))
  {
    var first := NextRowId(TrendIds(t.trends));
    var g := QueryTagId(t.tags, query);
    var x := NewTrend(first + |s|, item);
    if |s| > 0 {
      WithQueryTagSpec(t.tags, query);
    }
    assert QueryTagId(p.tags, query) == g;
    assert x.id == first + |s|;
    StageLinks(p, query, item, x.id, g);
    CreatedAppend(first, s, item);
    LinksAppend(Created(first, s), x, g);
    calc {
      Stage(p, query, item).trendTags;
      p.trendTags + {(x.id, g)};
      t.trendTags + (Links(Created(first, s), g) + {(x.id, g)});
      t.trendTags + Links(Created(first, s + [item]), g);
    }
  }

  /** The links after the loop: every created trend is linked to the query's
      tag, under the id that tag had or was given. */
  lemma {:induction false} PersistLinks(t: Tables, query: string, items: seq<NewsItem>, stored: (string, string) -> bool)
    requires WellFormed(t)
    ensures var u := Persist(t, query, items, stored);
      u.trendTags == t.trendTags + Links(Created(NextRowId(TrendIds(t.trends)), Survivors(items, stored)), QueryTagId(t.tags, query))
    decreases |items|
  {
    if |items| == 0 {
      assert Links([], QueryTagId(t.tags, query)) == {};
    } else {
      var init := items[..|items| - 1];
      var last := items[|items| - 1];
      PersistLinks(t, query, init, stored);
      PersistUnfold(t, query, items, stored);
      if !stored(last.topic, last.link) {
        PersistTrends(t, query, init, stored);
        PersistTags(t, query, init, stored);
        StageLinksAfter(t, Persist(t, query, init, stored), query, Survivors(init, stored), last);
      }
    }
  }

  /** The session the loop builds is well formed, so it can be committed. */
  lemma PersistWellFormed(t: Tables, query: string, items: seq<NewsItem>, stored: (string, string) -> bool)
    requires WellFormed(t)
    ensures WellFormed(Persist(t, query, items, stored))
  {
    PersistTrends(t, query, items, stored);
    PersistTags(t, query, items, stored);
  }

  /** process_query of the test planner: the loop staging the surviving
      items in a session, one commit, then one pass of the sender over the
      committed tables. Returns the topics of the persisted items. */
  method ProcessQuery(db: Store, query: string, items: seq<NewsItem>, stored: (string, string) -> bool,
                      cfg: SmtpConfig, smtp: nat -> Email -> bool, faults: nat -> Fault)
    returns (processed: seq<string>)
    requires db.Valid()
    modifies db
    ensures db.Valid()
    ensures processed == Topics(Survivors(items, stored))
    ensures var committed := Persist(old(db.State()), query, items, stored);
      db.State() == committed.(trends := FanOut(committed, cfg, smtp, faults).trends)
  {
    var start := db.State();
    var session := start;
    processed := [];
    for i := 0 to |items|
      invariant session == Persist(start, query, items[..i], stored)
      invariant processed == Topics(Survivors(items[..i], stored))
    {
      var item := items[i];
      assert items[..i + 1][..i] == items[..i];
      PersistUnfold(start, query, items[..i + 1], stored);
      if !stored(item.topic, item.link) {
        TopicsAppend(Survivors(items[..i], stored), item);
        session := Stage(session, query, item);
        processed := processed + [item.topic];
      }
    }
    assert items[..|items|] == items;
    PersistWellFormed(start, query, items, stored);
    db.Apply(session);
    var _ := SendForSubscriptions(db, cfg, smtp, faults);
  }
}
