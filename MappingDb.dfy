/** The raw SQLite association tables: subscription ↔ tag and trend ↔ tag
    pairs, each pair a composite primary key filled by `INSERT OR IGNORE`,
    and the join that finds a subscription's trends through shared tags. */
module MappingDb {
  import opened TrendDb

  /** The tags a trend and a subscription share. */
  function SharedTags(trendId: nat, subscriptionId: nat,
                      trendTags: set<(nat, nat)>, subscriptionTags: set<(nat, nat)>): set<nat> {
    set p | p in trendTags && p.0 == trendId && (subscriptionId, p.1) in subscriptionTags :: p.1
  }

  function Repeat(t: TrendRow, n: nat): (r: seq<TrendRow>)
    ensures |r| == n && forall x :: x in r ==> x == t
    ensures multiset(r)[t] == n
  {
    if n == 0 then [] else [t] + Repeat(t, n - 1)
  }

  /** The join `trends ⋈ trend_tags ⋈ subscription_tags` for one
      subscription: every trend once per tag it shares with the
      subscription, trends in table order. */
  function MatchingTrends(trends: seq<TrendRow>, trendTags: set<(nat, nat)>,
                          subscriptionTags: set<(nat, nat)>, subscriptionId: nat): seq<TrendRow>
  {
    if |trends| == 0 then []
    else Repeat(trends[0], |SharedTags(trends[0].id, subscriptionId, trendTags, subscriptionTags)|)
         + MatchingTrends(trends[1..], trendTags, subscriptionTags, subscriptionId)
  }

  /** A trend is matched exactly when it shares a tag with the subscription,
      whatever its `notified` flag; with distinct ids it comes back once per
      shared tag. */
  lemma {:induction false} MatchingTrendsSpec(trends: seq<TrendRow>, trendTags: set<(nat, nat)>,
                                              subscriptionTags: set<(nat, nat)>, subscriptionId: nat)
    requires IdsAscend(trends)
    ensures var r := MatchingTrends(trends, trendTags, subscriptionTags, subscriptionId);
      && (forall t :: t in r <==> t in trends && SharedTags(t.id, subscriptionId, trendTags, subscriptionTags) != {})
      && (forall t :: t in trends ==> multiset(r)[t] == |SharedTags(t.id, subscriptionId, trendTags, subscriptionTags)|)
    decreases |trends|
  {
    if |trends| > 0 {
      var t0 := trends[0];
      var head := Repeat(t0, |SharedTags(t0.id, subscriptionId, trendTags, subscriptionTags)|);
      var rest := MatchingTrends(trends[1..], trendTags, subscriptionTags, subscriptionId);
      MatchingTrendsSpec(trends[1..], trendTags, subscriptionTags, subscriptionId);
      assert forall t :: t in trends <==> t == t0 || t in trends[1..];
      assert t0 !in trends[1..] by {
        forall i | 0 <= i < |trends[1..]|
          ensures trends[1..][i] != t0
        {
          assert trends[1..][i].id == trends[i + 1].id > t0.id;
        }
      }
      assert t0 !in rest;
      assert multiset(rest)[t0] == 0;
      forall t | t in trends
        ensures multiset(head + rest)[t] == |SharedTags(t.id, subscriptionId, trendTags, subscriptionTags)|
      {
        if t != t0 {
          assert t !in head;
          assert multiset(head)[t] == 0;
        }
      }
      forall t
        ensures t in head + rest <==> t in trends && SharedTags(t.id, subscriptionId, trendTags, subscriptionTags) != {}
      {
        if t == t0 && SharedTags(t.id, subscriptionId, trendTags, subscriptionTags) != {} {
          assert head[0] == t;
        }
      }
    }
  }

  /** A subscription with no tag links matches nothing. */
  lemma {:induction false} NoLinksNoMatches(trends: seq<TrendRow>, trendTags: set<(nat, nat)>,
                                            subscriptionTags: set<(nat, nat)>, subscriptionId: nat)
    requires forall p :: p in subscriptionTags ==> p.0 != subscriptionId
    ensures MatchingTrends(trends, trendTags, subscriptionTags, subscriptionId) == []
    decreases |trends|
  {
    if |trends| > 0 {
      assert SharedTags(trends[0].id, subscriptionId, trendTags, subscriptionTags) == {};
      NoLinksNoMatches(trends[1..], trendTags, subscriptionTags, subscriptionId);
    }
  }

  class MappingDB {
    var subscriptionTags: set<(nat, nat)>
    var trendTags: set<(nat, nat)>

    constructor ()
      ensures subscriptionTags == {} && trendTags == {}
    {
      subscriptionTags, trendTags := {}, {};
    }

    /** link_subscription_tag: the pair is present afterwards; a pair already
        present leaves the table as it was. */
    method LinkSubscriptionTag(subscriptionId: nat, tagId: nat)
      modifies this
      ensures subscriptionTags == old(subscriptionTags) + {(subscriptionId, tagId)}
      ensures trendTags == old(trendTags)
    {
      subscriptionTags := subscriptionTags + {(subscriptionId, tagId)};
    }

    /** link_trend_tag: the same on the trend pairs. */
    method LinkTrendTag(trendId: nat, tagId: nat)
      modifies this
      ensures trendTags == old(trendTags) + {(trendId, tagId)}
      ensures subscriptionTags == old(subscriptionTags)
    {
      trendTags := trendTags + {(trendId, tagId)};
    }

    /** get_matching_trends_for_subscription over the trends table `trends`. */
    function GetMatchingTrendsForSubscription(trends: seq<TrendRow>, subscriptionId: nat): seq<TrendRow>
      reads this
    {
      MatchingTrends(trends, trendTags, subscriptionTags, subscriptionId)
    }
  }
}
