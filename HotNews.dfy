/** The hot-news helpers of the SerpAPI tool server: how a search result is
    scored (recency, source authority, breaking-news words), how the articles
    of one search are ranked by hotness, how the trending-topics tool merges
    several searches and drops repeated urls, and which query a news category
    searches for. The HTTP request and date parsing are oracles: `fetch`
    answers a request, `hoursAgo` turns a date string into the hours elapsed
    since then, or None when it cannot be parsed. */
module HotNews {
  import opened Wrappers
  import opened Strings

  // =====================================================================
  // Sequence helpers
  // =====================================================================

  predicate Distinct<T(==)>(s: seq<T>) {
    forall i, j :: 0 <= i < j < |s| ==> s[i] != s[j]
  }

  /** `r` is `s` with some elements dropped, the rest kept in order. */
  predicate IsSubsequence<T(==)>(r: seq<T>, s: seq<T>)
    decreases |s|
  {
    if |r| == 0 then true
    else if |s| == 0 then false
    else (r[0] == s[0] && IsSubsequence(r[1..], s[1..])) || IsSubsequence(r, s[1..])
  }

  lemma {:induction false} SubsequenceMembers<T>(r: seq<T>, s: seq<T>)
    requires IsSubsequence(r, s)
    ensures forall x :: x in r ==> x in s
    decreases |s|
  {
    if |r| > 0 {
      if r[0] == s[0] && IsSubsequence(r[1..], s[1..]) {
        SubsequenceMembers(r[1..], s[1..]);
        assert forall x :: x in r ==> x == r[0] || x in r[1..];
      } else {
        SubsequenceMembers(r, s[1..]);
      }
    }
  }

  /** Dropping elements of a list without repeats leaves no repeats. */
  lemma {:induction false} SubsequenceDistinct<T>(r: seq<T>, s: seq<T>)
    requires IsSubsequence(r, s) && Distinct(s)
    ensures Distinct(r)
    decreases |s|
  {
    if |r| > 0 {
      assert Distinct(s[1..]);
      if r[0] == s[0] && IsSubsequence(r[1..], s[1..]) {
        SubsequenceDistinct(r[1..], s[1..]);
        SubsequenceMembers(r[1..], s[1..]);
        forall i, j | 0 <= i < j < |r|
          ensures r[i] != r[j]
        {
          if i == 0 {
            assert r[j] in r[1..];
            assert r[j] in s[1..];
          } else {
            assert r[1..][i - 1] != r[1..][j - 1];
          }
        }
      } else {
        SubsequenceDistinct(r, s[1..]);
      }
    }
  }

  // =====================================================================
  // Scores of one result
  // =====================================================================

  /** `needles` has an element that is a piece of `hay`. */
  function AnyOccurs(needles: seq<string>, hay: string): (b: bool)
    ensures b <==> exists i :: 0 <= i < |needles| && Occurs(needles[i], hay)
  {
    if |needles| == 0 then false
    else if Contains(hay, needles[0]) then true
    else
      assert forall i :: 1 <= i < |needles| ==> needles[i] == needles[1..][i - 1];
      AnyOccurs(needles[1..], hay)
  }

  /** One of `names` is a piece of the lowercased `source`. */
  ghost predicate Mentions(names: seq<string>, source: string) {
    exists i :: 0 <= i < |names| && Occurs(names[i], Lower(source))
  }

  const HighAuthority: seq<string> :=
    ["reuters", "ap", "bbc", "cnn", "nytimes", "washingtonpost", "wsj", "bloomberg", "npr", "abc", "cbs", "nbc"]

  const MediumAuthority: seq<string> :=
    ["fox", "usa today", "guardian", "independent", "time", "newsweek", "politico", "axios"]

  /** get_source_authority: 5 when a major outlet's name is a piece of the
      lowercased source, else 3 for a mid-tier outlet, else 1. The major list
      is tried first. */
  function SourceAuthority(source: string): (r: nat)
    ensures r == 1 || r == 3 || r == 5
    ensures r == 5 <==> Mentions(HighAuthority, source)
    ensures r == 3 <==> !Mentions(HighAuthority, source) && Mentions(MediumAuthority, source)
  {
    var s := Lower(source);
    if AnyOccurs(HighAuthority, s) then 5
    else if AnyOccurs(MediumAuthority, s) then 3
    else 1
  }

  const HotIndicators: seq<string> :=
    ["breaking", "urgent", "just in", "developing", "latest", "update", "now", "today", "happening", "live",
     "exclusive", "first", "new", "trending", "viral", "surge", "spike", "boom", "crisis", "alert"]

  const BreakingIndicators: seq<string> := ["breaking", "urgent", "just in", "developing", "alert"]

  /** The words of `needles` that are pieces of `hay`, in list order. */
  function Found(needles: seq<string>, hay: string): (r: seq<string>)
    ensures forall w :: w in r <==> w in needles && Occurs(w, hay)
  {
    if |needles| == 0 then []
    else
      assert forall w :: w in needles <==> w == needles[0] || w in needles[1..];
      (if Contains(hay, needles[0]) then [needles[0]] else []) + Found(needles[1..], hay)
  }

  lemma {:induction false} FoundInOrder(needles: seq<string>, hay: string)
    ensures IsSubsequence(Found(needles, hay), needles)
    decreases |needles|
  {
    if |needles| > 0 {
      FoundInOrder(needles[1..], hay);
      var r := Found(needles, hay);
      if Contains(hay, needles[0]) {
        assert r[0] == needles[0] && r[1..] == Found(needles[1..], hay);
      } else {
        assert r == Found(needles[1..], hay);
      }
    }
  }

  /** The indicators at positions `lo` to `hi` differ from every later one:
      no two indicators start with the same two letters. */
  lemma HotIndicatorsDistinctFrom(lo: nat, hi: nat)
    requires (lo, hi) in {(0, 5), (5, 10), (10, 15), (15, 20)}
    ensures forall i, j :: lo <= i < hi && i < j < |HotIndicators| ==> HotIndicators[i] != HotIndicators[j]
  {
    var h := HotIndicators;
    forall i, j | lo <= i < hi && i < j < |h|
      ensures h[i] != h[j]
    {
      assert h[i][0] != h[j][0] || h[i][1] != h[j][1];
    }
  }

  lemma HotIndicatorsDistinct()
    ensures Distinct(HotIndicators)
  {
    HotIndicatorsDistinctFrom(0, 5);
    HotIndicatorsDistinctFrom(5, 10);
    HotIndicatorsDistinctFrom(10, 15);
    HotIndicatorsDistinctFrom(15, 20);
  }

  /** extract_hot_keywords: the hot indicators found in the lowercased text. */
  function HotKeywords(text: string): seq<string> {
    Found(HotIndicators, Lower(text))
  }

  /** The keywords are exactly the indicators found in the lowercased text,
      in the indicator list's order, each at most once. */
  lemma HotKeywordsSpec(text: string)
    ensures var r := HotKeywords(text);
      && (forall w :: w in r <==> w in HotIndicators && Occurs(w, Lower(text)))
      && IsSubsequence(r, HotIndicators)
      && Distinct(r)
  {
    FoundInOrder(HotIndicators, Lower(text));
    HotIndicatorsDistinct();
    SubsequenceDistinct(HotKeywords(text), HotIndicators);
  }

  /** is_breaking_news: one of the five breaking indicators is in the
      lowercased title. */
  function IsBreakingNews(title: string): (b: bool)
    ensures b <==> Mentions(BreakingIndicators, title)
  {
    AnyOccurs(BreakingIndicators, Lower(title))
  }

  /** A breaking title always yields hot keywords for the article, which are
      taken from the title, a space and the snippet. */
  lemma BreakingHasKeywords(title: string, snippet: string)
    requires IsBreakingNews(title)
    ensures HotKeywords(title + " " + snippet) != []
  {
    var i :| 0 <= i < |BreakingIndicators| && Occurs(BreakingIndicators[i], Lower(title));
    assert BreakingIndicators[i] in BreakingIndicators;
    var w := BreakingIndicators[i];
    assert w in HotIndicators;
    LowerConcat(title, " " + snippet);
    assert title + " " + snippet == title + (" " + snippet);
    OccursInPrefix(w, Lower(title), Lower(" " + snippet));
    assert w in HotKeywords(title + " " + snippet);
  }

  /** The recency ladder over the hours elapsed since publication. */
  function RecencyLadder(hours: real): (r: nat)
    ensures r == 1 || r == 3 || r == 6 || r == 8 || r == 10
  {
    if hours <= 1.0 then 10
    else if hours <= 6.0 then 8
    else if hours <= 24.0 then 6
    else if hours <= 168.0 then 3
    else 1
  }

  /** Older news never scores higher. */
  lemma RecencyMonotone(h1: real, h2: real)
    requires h1 <= h2
    ensures RecencyLadder(h1) >= RecencyLadder(h2)
  {
  }

  /** calculate_recency_score: 0 for a missing or empty date and for one that
      cannot be parsed, otherwise the ladder. */
  function Recency(date: Option<string>, hoursAgo: string -> Option<real>): (r: nat)
    ensures r <= 10
    ensures date.None? || date == Some("") ==> r == 0
    ensures date.Some? && date.value != "" && hoursAgo(date.value).None? ==> r == 0
    ensures date.Some? && date.value != "" && hoursAgo(date.value).Some? ==> r == RecencyLadder(hoursAgo(date.value).value)
  {
    if date.None? || date.value == "" then 0
    else
      match hoursAgo(date.value)
      case None => 0
      case Some(h) => RecencyLadder(h)
  }

  // =====================================================================
  // Articles of one search
  // =====================================================================

  /** One entry of `news_results`; every key may be missing. */
  datatype NewsResult = NewsResult(
    link: Option<string>,
    source: Option<string>,
    title: Option<string>,
    snippet: Option<string>,
    date: Option<string>)

  /** An article as search_hot_news builds it (the search timestamp, a
      reading of the clock, is not kept). `id` and `url` are both the link. */
  datatype Article = Article(
    id: Option<string>,
    source: string,
    url: Option<string>,
    title: string,
    content: string,
    publishedAt: Option<string>,
    language: string,
    recency: nat,
    authority: nat,
    keywords: seq<string>,
    isBreaking: bool,
    searchQuery: string)

  function BuildArticle(item: NewsResult, query: string, language: string,
                        hoursAgo: string -> Option<real>): (a: Article)
    ensures a.recency <= 10
    ensures a.authority == 1 || a.authority == 3 || a.authority == 5
  {
    var title, snippet := item.title.GetOr(""), item.snippet.GetOr("");
    Article(
      item.link, item.source.GetOr(""), item.link, title, snippet, item.date, language,
      Recency(item.date, hoursAgo), SourceAuthority(item.source.GetOr("")),
      HotKeywords(title + " " + snippet), IsBreakingNews(title), query)
  }

  function BuildAll(items: seq<NewsResult>, query: string, language: string,
                    hoursAgo: string -> Option<real>): seq<Article>
  {
    seq(|items|, i requires 0 <= i < |items| => BuildArticle(items[i], query, language, hoursAgo))
  }

  /** The sort key: breaking news counts 10, plus recency, plus authority. */
  function Hotness(a: Article): nat {
    (if a.isBreaking then 10 else 0) + a.recency + a.authority
  }

  lemma HotnessBounds(item: NewsResult, query: string, language: string, hoursAgo: string -> Option<real>)
    ensures 1 <= Hotness(BuildArticle(item, query, language, hoursAgo)) <= 25
  {
  }

  // ---------------------------------------------------------------------
  // The ranking: Python's stable sort with reverse=True
  // ---------------------------------------------------------------------

  /** Hotness does not increase along the list. */
  predicate Ranked(s: seq<Article>) {
    forall i, j :: 0 <= i < j < |s| ==> Hotness(s[i]) >= Hotness(s[j])
  }

  /** The articles of hotness `k`, in their order in `s`. */
  function WithHotness(s: seq<Article>, k: nat): seq<Article> {
    if |s| == 0 then []
    else (if Hotness(s[0]) == k then [s[0]] else []) + WithHotness(s[1..], k)
  }

  /** Inserts `a` before the first article that is not hotter, so that it
      precedes the equally hot articles that came after it. */
  function Insert(a: Article, s: seq<Article>): seq<Article> {
    if |s| == 0 || Hotness(s[0]) <= Hotness(a) then [a] + s
    else [s[0]] + Insert(a, s[1..])
  }

  /** The articles from hottest to coldest, equally hot ones in input order. */
  function RankByHotness(s: seq<Article>): seq<Article> {
    if |s| == 0 then [] else Insert(s[0], RankByHotness(s[1..]))
  }

  lemma {:induction false} InsertPermutes(a: Article, s: seq<Article>)
    ensures multiset(Insert(a, s)) == multiset(s) + multiset{a}
    decreases |s|
  {
    if |s| > 0 && Hotness(s[0]) > Hotness(a) {
      InsertPermutes(a, s[1..]);
      assert s == [s[0]] + s[1..];
    }
  }

  /** No article of `s` is hotter than `h`. */
  predicate NoneHotter(s: seq<Article>, h: nat) {
    forall x :: x in s ==> Hotness(x) <= h
  }

  lemma {:induction false} InsertNoneHotter(a: Article, s: seq<Article>, h: nat)
    requires NoneHotter(s, h) && Hotness(a) <= h
    ensures NoneHotter(Insert(a, s), h)
  {
    InsertPermutes(a, s);
    forall x | x in Insert(a, s)
      ensures Hotness(x) <= h
    {
      assert x in multiset(Insert(a, s));
    }
  }

  lemma {:induction false} InsertRanked(a: Article, s: seq<Article>)
    requires Ranked(s)
    ensures Ranked(Insert(a, s))
    decreases |s|
  {
    if |s| == 0 || Hotness(s[0]) <= Hotness(a) {
      var r := [a] + s;
      forall i, j | 0 <= i < j < |r|
        ensures Hotness(r[i]) >= Hotness(r[j])
      {
        if i > 0 {
          assert r[i] == s[i - 1] && r[j] == s[j - 1];
        } else {
          assert r[j] == s[j - 1];
        }
      }
    } else {
      var h := Hotness(s[0]);
      InsertRanked(a, s[1..]);
      assert NoneHotter(s[1..], h) by {
        forall x | x in s[1..]
          ensures Hotness(x) <= h
        {
          var k :| 0 <= k < |s[1..]| && s[1..][k] == x;
          assert s[k + 1] == x;
        }
      }
      InsertNoneHotter(a, s[1..], h);
      var t := Insert(a, s[1..]);
      var r := [s[0]] + t;
      forall i, j | 0 <= i < j < |r|
        ensures Hotness(r[i]) >= Hotness(r[j])
      {
        assert r[j] == t[j - 1];
        if i == 0 {
          assert t[j - 1] in t;
        } else {
          assert r[i] == t[i - 1];
        }
      }
    }
  }

  lemma {:induction false} InsertKeepsTies(a: Article, s: seq<Article>, k: nat)
    ensures WithHotness(Insert(a, s), k) == (if Hotness(a) == k then [a] else []) + WithHotness(s, k)
    decreases |s|
  {
    if |s| > 0 && Hotness(s[0]) > Hotness(a) {
      InsertKeepsTies(a, s[1..], k);
      assert ([s[0]] + Insert(a, s[1..]))[1..] == Insert(a, s[1..]);
    } else {
      assert ([a] + s)[1..] == s;
    }
  }

  lemma {:induction false} RankPermutes(s: seq<Article>)
    ensures multiset(RankByHotness(s)) == multiset(s)
    decreases |s|
  {
    if |s| > 0 {
      RankPermutes(s[1..]);
      InsertPermutes(s[0], RankByHotness(s[1..]));
      assert s == [s[0]] + s[1..];
    }
  }

  lemma {:induction false} RankRanked(s: seq<Article>)
    ensures Ranked(RankByHotness(s))
    decreases |s|
  {
    if |s| > 0 {
      RankRanked(s[1..]);
      InsertRanked(s[0], RankByHotness(s[1..]));
    }
  }

  lemma {:induction false} RankKeepsTies(s: seq<Article>, k: nat)
    ensures WithHotness(RankByHotness(s), k) == WithHotness(s, k)
    decreases |s|
  {
    if |s| > 0 {
      RankKeepsTies(s[1..], k);
      InsertKeepsTies(s[0], RankByHotness(s[1..]), k);
    }
  }

  /** The ranking is a permutation of the articles, in non-increasing order
      of hotness, and keeps equally hot articles in their original order. */
  lemma RankByHotnessSpec(s: seq<Article>)
    ensures var r := RankByHotness(s);
      && multiset(r) == multiset(s)
      && Ranked(r)
      && forall k :: WithHotness(r, k) == WithHotness(s, k)
  {
    RankPermutes(s);
    RankRanked(s);
    forall k
      ensures WithHotness(RankByHotness(s), k) == WithHotness(s, k)
    {
      RankKeepsTies(s, k);
    }
  }

  // ---------------------------------------------------------------------
  // The search
  // ---------------------------------------------------------------------

  /** The query string of a SerpAPI request. */
  datatype SearchParams = SearchParams(
    apiKey: string, engine: string, q: string, tbm: string, num: int,
    hl: string, gl: string, safe: string, tbs: string, sort: string)

  /** What the HTTP request brings back: a request error (raised by the
      request or by the status check), or a JSON body whose
      `news_results` key may be missing. */
  datatype Response = RequestFailed | Body(newsResults: Option<seq<NewsResult>>)

  const TimeFilters: map<string, string> :=
    map["1h" := "qdr:h", "24h" := "qdr:d", "7d" := "qdr:w", "1m" := "qdr:m", "1y" := "qdr:y"]

  /** The time filter of a timeframe; an unknown timeframe searches the past
      day, as "24h" does. */
  function TimeFilter(timeframe: string): (tbs: string)
    ensures tbs in TimeFilters.Values
  {
    if timeframe in TimeFilters then TimeFilters[timeframe]
    else assert TimeFilters["24h"] == "qdr:d"; "qdr:d"
  }

  /** A Google News search in the US region with safe search on, newest first. */
  function Params(apiKey: string, query: string, language: string, timeframe: string, num: int): SearchParams {
    SearchParams(apiKey, "google", query, "nws", num, language, "us", "active", TimeFilter(timeframe), "date")
  }

  /** What search_hot_news returns: no article when the request fails,
      otherwise the articles built from the results, ranked by hotness. */
  function HotNews(apiKey: string, query: string, language: string, timeframe: string, num: int,
                   fetch: SearchParams -> Response, hoursAgo: string -> Option<real>): seq<Article> {
    match fetch(Params(apiKey, query, language, timeframe, num))
    case RequestFailed => []
    case Body(results) => RankByHotness(BuildAll(results.GetOr([]), query, language, hoursAgo))
  }

  /** The articles of a successful search are its results, one each, ranked
      hottest first with ties in result order, each scoring 1 to 25. */
  lemma HotNewsSpec(apiKey: string, query: string, language: string, timeframe: string, num: int,
                    fetch: SearchParams -> Response, hoursAgo: string -> Option<real>)
    ensures var r := HotNews(apiKey, query, language, timeframe, num, fetch, hoursAgo);
      match fetch(Params(apiKey, query, language, timeframe, num))
      case RequestFailed => r == []
      case Body(results) =>
        var built := BuildAll(results.GetOr([]), query, language, hoursAgo);
        && multiset(r) == multiset(built)
        && Ranked(r)
        && (forall k :: WithHotness(r, k) == WithHotness(built, k))
        && (forall a :: a in r ==> 1 <= Hotness(a) <= 25 && a.searchQuery == query)
  {
    match fetch(Params(apiKey, query, language, timeframe, num))
    case RequestFailed =>
    case Body(results) =>
      var built := BuildAll(results.GetOr([]), query, language, hoursAgo);
      var r := RankByHotness(built);
      RankByHotnessSpec(built);
      forall a | a in r
        ensures 1 <= Hotness(a) <= 25 && a.searchQuery == query
      {
        assert a in multiset(r);
        assert a in built;
      }
  }

  /** search_hot_news: one request, one article per result appended in
      order, then the list sorted by hotness. */
  method SearchHotNews(apiKey: string, query: string, language: string, timeframe: string, num: int,
                       fetch: SearchParams -> Response, hoursAgo: string -> Option<real>)
    returns (articles: seq<Article>)
    ensures articles == HotNews(apiKey, query, language, timeframe, num, fetch, hoursAgo)
  {
    var response := fetch(Params(apiKey, query, language, timeframe, num));
    if response.RequestFailed? {
      return [];
    }
    var items := response.newsResults.GetOr([]);
    articles := [];
    for i := 0 to |items|
      invariant articles == BuildAll(items[..i], query, language, hoursAgo)
    {
      articles := articles + [BuildArticle(items[i], query, language, hoursAgo)];
    }
    assert items[..|items|] == items;
    articles := RankByHotness(articles);
  }

  // =====================================================================
  // Trending topics: several searches, repeated urls dropped
  // =====================================================================

  /** The `topics` argument: None, one string, or a list of strings. */
  datatype Topics = NoTopics | Text(text: string) | Listed(items: seq<string>)

  const DefaultQueries: seq<string> :=
    ["breaking news", "trending now", "latest news", "developing story", "just happened"]

  /** The queries the loop `for topic in topics` runs as written: iterating a
      string visits its characters, so a single string is searched one
      character at a time. */
  function QueriesAsWritten(topics: Topics): seq<string> {
    match topics
    case NoTopics => DefaultQueries
    case Text(s) => seq(|s|, i requires 0 <= i < |s| => [s[i]])
    case Listed(xs) => xs
  }

  /** The default argument "breaking news" becomes thirteen one-letter
      searches, the first for "b". */
  lemma DefaultTextSplitsIntoLetters()
    ensures var q := QueriesAsWritten(Text("breaking news"));
      |q| == 13 && q[0] == "b" && "breaking news" !in q
  {
    var q := QueriesAsWritten(Text("breaking news"));
    assert forall i :: 0 <= i < |q| ==> |q[i]| == 1;
    assert |"breaking news"| == 13;
  }

  /** The queries as evidently intended: a single string is one query. */
  function Queries(topics: Topics): seq<string> {
    match topics
    case NoTopics => DefaultQueries
    case Text(s) => [s]
    case Listed(xs) => xs
  }

  /** Every query's articles, query after query. */
  function Gathered(apiKey: string, queries: seq<string>, language: string,
                    fetch: SearchParams -> Response, hoursAgo: string -> Option<real>): seq<Article>
    decreases |queries|
  {
    if |queries| == 0 then []
    else Gathered(apiKey, queries[..|queries| - 1], language, fetch, hoursAgo)
         + HotNews(apiKey, queries[|queries| - 1], language, "24h", 10, fetch, hoursAgo)
  }

  lemma GatheredStep(apiKey: string, queries: seq<string>, i: nat, language: string,
                     fetch: SearchParams -> Response, hoursAgo: string -> Option<real>)
    requires i < |queries|
    ensures Gathered(apiKey, queries[..i + 1], language, fetch, hoursAgo)
      == Gathered(apiKey, queries[..i], language, fetch, hoursAgo) + HotNews(apiKey, queries[i], language, "24h", 10, fetch, hoursAgo)
  {
    assert queries[..i + 1][..i] == queries[..i];
  }

  function UrlSet(s: seq<Article>): set<Option<string>> {
    set a | a in s :: a.url
  }

  predicate DistinctUrls(s: seq<Article>) {
    forall i, j :: 0 <= i < j < |s| ==> s[i].url != s[j].url
  }

  /** No article before position `j` has the url of the one at `j`. */
  predicate FirstWithUrl(s: seq<Article>, j: int)
    requires 0 <= j < |s|
  {
    forall k :: 0 <= k < j ==> s[k].url != s[j].url
  }

  /** `a` is in `s`, at a position no earlier article shares its url with. */
  ghost predicate FirstOf(s: seq<Article>, a: Article) {
    exists j :: 0 <= j < |s| && s[j] == a && FirstWithUrl(s, j)
  }

  /** The articles of `s` whose url is neither in `seen` nor on an earlier
      article. */
  function DedupFrom(s: seq<Article>, seen: set<Option<string>>): (r: seq<Article>)
    ensures forall a :: a in r ==> a.url !in seen
    decreases |s|
  {
    if |s| == 0 then []
    else if s[0].url in seen then DedupFrom(s[1..], seen)
    else [s[0]] + DedupFrom(s[1..], seen + {s[0].url})
  }

  function DedupByUrl(s: seq<Article>): seq<Article> {
    DedupFrom(s, {})
  }

  lemma {:induction false} DedupKeepsOrder(s: seq<Article>, seen: set<Option<string>>)
    ensures IsSubsequence(DedupFrom(s, seen), s)
    decreases |s|
  {
    if |s| > 0 {
      if s[0].url in seen {
        DedupKeepsOrder(s[1..], seen);
      } else {
        var r := DedupFrom(s, seen);
        DedupKeepsOrder(s[1..], seen + {s[0].url});
        assert r[0] == s[0] && r[1..] == DedupFrom(s[1..], seen + {s[0].url});
      }
    }
  }

  lemma {:induction false} DedupDistinct(s: seq<Article>, seen: set<Option<string>>)
    ensures DistinctUrls(DedupFrom(s, seen))
    decreases |s|
  {
    if |s| > 0 {
      if s[0].url in seen {
        DedupDistinct(s[1..], seen);
      } else {
        var rest := DedupFrom(s[1..], seen + {s[0].url});
        var r := [s[0]] + rest;
        DedupDistinct(s[1..], seen + {s[0].url});
        forall i, j | 0 <= i < j < |r|
          ensures r[i].url != r[j].url
        {
          if i == 0 {
            assert r[j] in rest;
          } else {
            assert rest[i - 1].url != rest[j - 1].url;
          }
        }
      }
    }
  }

  lemma {:induction false} DedupCovers(s: seq<Article>, seen: set<Option<string>>)
    ensures UrlSet(DedupFrom(s, seen)) == UrlSet(s) - seen
    decreases |s|
  {
    if |s| > 0 {
      assert UrlSet(s) == {s[0].url} + UrlSet(s[1..]);
      if s[0].url in seen {
        DedupCovers(s[1..], seen);
      } else {
        var rest := DedupFrom(s[1..], seen + {s[0].url});
        DedupCovers(s[1..], seen + {s[0].url});
        assert UrlSet([s[0]] + rest) == {s[0].url} + UrlSet(rest);
      }
    }
  }

  lemma {:induction false} DedupFirst(s: seq<Article>, seen: set<Option<string>>)
    ensures forall i :: 0 <= i < |DedupFrom(s, seen)| ==> FirstOf(s, DedupFrom(s, seen)[i])
    decreases |s|
  {
    if |s| > 0 {
      var r := DedupFrom(s, seen);
      var seen' := seen + {s[0].url};
      var rest := DedupFrom(s[1..], seen');
      if s[0].url in seen {
        assert seen' == seen;
      } else {
        assert r == [s[0]] + rest;
      }
      DedupFirst(s[1..], seen');
      forall a | a in rest
        ensures FirstOf(s, a)
      {
        var k :| 0 <= k < |rest| && rest[k] == a;
        assert FirstOf(s[1..], rest[k]);
        var j :| 0 <= j < |s[1..]| && s[1..][j] == a && FirstWithUrl(s[1..], j);
        assert FirstWithUrl(s, j + 1);
      }
      forall i | 0 <= i < |r|
        ensures FirstOf(s, r[i])
      {
        if s[0].url !in seen && i == 0 {
          assert FirstWithUrl(s, 0);
        } else {
          assert r[i] in rest;
        }
      }
    }
  }

  /** URL dedup keeps the first article of each url, in order: the kept
      urls are pairwise distinct and every url of the input is kept once. */
  lemma DedupByUrlSpec(s: seq<Article>)
    ensures var r := DedupByUrl(s);
      && IsSubsequence(r, s)
      && DistinctUrls(r)
      && UrlSet(r) == UrlSet(s)
      && forall i :: 0 <= i < |r| ==> FirstOf(s, r[i])
  {
    DedupKeepsOrder(s, {});
    DedupDistinct(s, {});
    DedupCovers(s, {});
    DedupFirst(s, {});
  }

  /** The loop over the gathered articles with the set of urls seen so far. */
  method DropRepeatedUrls(all: seq<Article>) returns (unique: seq<Article>)
    ensures unique == DedupByUrl(all)
  {
    var seen: set<Option<string>> := {};
    unique := [];
    for i := 0 to |all|
      invariant unique + DedupFrom(all[i..], seen) == DedupByUrl(all)
    {
      assert all[i..][1..] == all[i + 1..];
      if all[i].url !in seen {
        assert DedupFrom(all[i..], seen) == [all[i]] + DedupFrom(all[i + 1..], seen + {all[i].url});
        seen := seen + {all[i].url};
        unique := unique + [all[i]];
      }
    }
  }

  /** search_trending_topics (with a single string taken as one query): one
      past-day search of ten results per query, the articles concatenated,
      then the loop keeping an article only if its url was not seen yet. */
  method SearchTrendingTopics(apiKey: string, topics: Topics, language: string,
                              fetch: SearchParams -> Response, hoursAgo: string -> Option<real>)
    returns (unique: seq<Article>)
    ensures unique == DedupByUrl(Gathered(apiKey, Queries(topics), language, fetch, hoursAgo))
  {
    var queries := Queries(topics);
    var all: seq<Article> := [];
    for i := 0 to |queries|
      invariant all == Gathered(apiKey, queries[..i], language, fetch, hoursAgo)
    {
      var articles := SearchHotNews(apiKey, queries[i], language, "24h", 10, fetch, hoursAgo);
      GatheredStep(apiKey, queries, i, language, fetch, hoursAgo);
      all := all + articles;
    }
    assert queries[..|queries|] == queries;
    unique := DropRepeatedUrls(all);
  }

  // =====================================================================
  // Category search
  // =====================================================================

  const CategoryQueries: map<string, string> := map[
    "politics" := "politics breaking news latest",
    "technology" := "tech news latest breakthrough",
    "business" := "business news market latest",
    "sports" := "sports news latest scores",
    "entertainment" := "entertainment news celebrity latest",
    "health" := "health news medical breakthrough",
    "science" := "science news discovery latest",
    "world" := "world news international breaking"]

  /** The phrase searched for a category: the mapped phrase for the eight
      known categories, otherwise the category followed by " latest news". */
  function CategoryQuery(category: string): string {
    if category in CategoryQueries then CategoryQueries[category] else category + " latest news"
  }

  predicate EndsWithLatestNews(q: string) {
    |q| >= 12 && q[|q| - 12..] == " latest news"
  }

  lemma KnownPhraseNotDefault(c: string)
    requires c in CategoryQueries
    ensures !EndsWithLatestNews(CategoryQueries[c])
  {
  }

  lemma KnownPhrasesDistinct(c1: string, c2: string)
    requires c1 in CategoryQueries && c2 in CategoryQueries && c1 != c2
    ensures CategoryQueries[c1] != CategoryQueries[c2]
  {
  }

  /** Different categories never search the same phrase: the eight mapped
      phrases differ, none ends in " latest news", and the fallback phrase
      gives the category back as its prefix. */
  lemma CategoryQueryInjective(c1: string, c2: string)
    requires c1 != c2
    ensures CategoryQuery(c1) != CategoryQuery(c2)
  {
    var q1, q2 := CategoryQuery(c1), CategoryQuery(c2);
    if c1 in CategoryQueries && c2 in CategoryQueries {
      KnownPhrasesDistinct(c1, c2);
    } else if c1 in CategoryQueries {
      KnownPhraseNotDefault(c1);
      assert q2[|q2| - 12..] == " latest news";
    } else if c2 in CategoryQueries {
      KnownPhraseNotDefault(c2);
      assert q1[|q1| - 12..] == " latest news";
    } else if |c1| == |c2| {
      assert q1[..|c1|] == c1 && q2[..|c2|] == c2;
    } else {
      assert |q1| != |q2|;
    }
  }

  /** search_by_category_hot_news: the category's phrase, past day, twenty
      results. */
  method SearchByCategoryHotNews(apiKey: string, category: string, language: string,
                                 fetch: SearchParams -> Response, hoursAgo: string -> Option<real>)
    returns (articles: seq<Article>)
    ensures articles == HotNews(apiKey, CategoryQuery(category), language, "24h", 20, fetch, hoursAgo)
  {
    articles := SearchHotNews(apiKey, CategoryQuery(category), language, "24h", 20, fetch, hoursAgo);
  }
}
