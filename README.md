# Trend-News-Notifier in Dafny

A model of the notifier core of Trend-News-Notifier, with proofs about it. The notifier searches
Google News through SerpAPI, ranks the results by "hotness", stores trends tagged by the query
that found them, and e-mails each subscriber the unsent trends that share a tag with the
subscription. It marks a trend `notified` only after a delivery was committed.

| file | module | models |
|---|---|---|
| `Wrappers.dfy` | `Wrappers` | `Option` |
| `Strings.dfy` | `Strings` | the Python string operations the core relies on: `lower()`, `in` on strings, `",".join`, `split(",")`, `str(int)` |
| `SqlStore.dfy` | `SqlStore` | the SQLAlchemy schema (subscriptions, tags, trends and the two association tables) and `SQLAlchemySubscriptionDB`, as the class `Store` |
| `TrendDb.dfy`, `TagDb.dfy`, `MappingDb.dfy`, `SubscriptionDb.dfy` | same names | the four raw `sqlite3` classes, each as a class over its tables |
| `EmailSender.dfy` | `EmailSender` | `EmailSender.send` (message composition) and `send_for_subscriptions`, the per-subscriber fan-out with commit and rollback |
| `HotNews.dfy` | `HotNews` | the SerpAPI tool server: hotness scores, keyword extraction, ranking, the three search tools |
| `ReferencePlanner.dfy` | `ReferencePlanner` | `process_query` of the database test's planner: ingest, dedup check, persist, one commit, then one sender pass |

The outside world enters as function-valued parameters:
- the SMTP server, `smtp(k)(email)`: its answer on the k-th call;
- exceptions escaping inside the sender's `try`, `faults(k)`: none, raised before `send` returns, or raised by the commit;
- the HTTP search, `fetch(params)`: a body with `news_results`, or a request error;
- date parsing and the clock, `hoursAgo(date)`: hours since publication, or None when the date does not parse;
- the dedup check, `stored(topic, link)`.

The properties proved:
- each trend is in at most one committed delivery per pass;
- it flags exactly the trends of committed deliveries;
- its counters add up the batches the log records;
- after a pass where every attempt was delivered, a second pass does nothing;
- the ranking is a stable sort by hotness;
- URL deduplication keeps the first article of each URL, in order;
- category phrases are injective;
- splitting a joined topic list gives the list back;
- the persisted session is well formed and contains exactly one new trend per surviving item, linked to the query's tag.

## Model

| member | source | states |
|---|---|---|
| Strings.Contains | src/news_agent/agents/ingestion/serpapi_search_mcp_server.py:168 | Python's `needle in hay` is true exactly when `needle` occurs as a contiguous piece of `hay` |
| Strings.Lower | src/news_agent/agents/ingestion/serpapi_search_mcp_server.py:165 | `lower()` keeps the length and leaves no ASCII capital |
| Strings.Join | src/news_agent/agents/db/subscriptions.py:26 | `",".join(topics)`; `Strings.SplitJoin` is its inverse |
| Strings.Split | src/news_agent/agents/db/subscriptions.py:52 | `str.split(sep)` never returns an empty list |
| Strings.SplitJoin | src/news_agent/agents/db/subscriptions.py:26-53 | splitting `sep.join(parts)` at `sep` gives `parts` back, when `parts` is not empty and no part holds `sep` |
| Strings.NatToString | src/news_agent/agents/sender/email_sender.py:58 | the rendering of a count is a non-empty string of decimal digits, with no leading zero |
| Strings.DecimalRoundTrip | src/news_agent/agents/sender/email_sender.py:58 | reading the rendered digits back gives the number |
| SqlStore.NextRowId | src/news_agent/agents/db/sqlachemy_db.py:54 | a new row's id is at least 1 and above every id present; in a non-empty table it is one more than the largest id |
| SqlStore.Store.constructor | src/news_agent/agents/db/sqlachemy_db.py:120-122 | a fresh database has every table empty and is well formed |
| SqlStore.Store.AddSubscription | src/news_agent/agents/db/sqlachemy_db.py:139-144 | fails (None, no table changed) exactly when the UNIQUE email is already present; otherwise appends the row with the next id, links its tags and leaves the other tables alone |
| SqlStore.Store.AddTag | src/news_agent/agents/db/sqlachemy_db.py:154-159 | fails exactly when the UNIQUE name is taken; otherwise appends the tag with the next id and changes nothing else |
| SqlStore.Store.AddTrend | src/news_agent/agents/db/sqlachemy_db.py:164-169 | appends the trend with the next id, with `notified` defaulting to false, and links its tags; ids stay increasing |
| SqlStore.Store.SetNotified | src/news_agent/agents/sender/email_sender.py:128-129 | sets `notified` on the rows with that id only, and changes no other table |
| SqlStore.Store.Apply | src/news_agent/agents/sender/email_sender.py:131-135 | a commit or a rollback: the tables become the given well-formed session |
| SqlStore.Store.GetSubscriptions | src/news_agent/agents/db/sqlachemy_db.py:146-149 | every subscription row, in table order |
| SqlStore.NewestTopics | src/news_agent/agents/db/sqlachemy_db.py:174 | one topic per trend, read from the last row to the first |
| SqlStore.AllTopics | src/news_agent/agents/db/sqlachemy_db.py:171-176 | returns `limit` topics (every topic when the limit is negative or larger than the table), newest first, without deduplication |
| SqlStore.AllTopicsAreNewest | src/news_agent/agents/db/sqlachemy_db.py:171-176 | in a table with increasing ids, the topics listed are those of the highest ids, in descending id order |
| SqlStore.Store.GetAllTopics | src/news_agent/agents/db/sqlachemy_db.py:171-176 | `AllTopics` of the trends table, with the default limit of 10 |
| SqlStore.SelectTrendByTopicOrLink | src/news_agent/agents/db/sqlachemy_db.py:178-188 | None exactly when no trend matches the case-insensitive topic or URL; otherwise a stored trend that matches |
| TrendDb.UnsentTrends | src/news_agent/agents/db/sql_db.py:41-47 | a row is listed exactly when it is stored with `notified = 0` |
| TrendDb.AllEntries | src/news_agent/agents/db/sql_db.py:61-67 | one (topic, url) pair per row, in row order; `AllEntriesIgnoreFlags` states that marking rows sent leaves the entries alone |
| TrendDb.MarkSent | src/news_agent/agents/db/sql_db.py:49-59 | the UPDATE by id; its properties are `UnsentAfterMark`, `MarkSentIdempotent` and `MarkSentUnknownId` |
| TrendDb.MarkSentIdempotent | src/news_agent/agents/db/sql_db.py:49-59 | marking the same id twice is the same as marking it once |
| TrendDb.MarkSentUnknownId | src/news_agent/agents/db/sql_db.py:49-59 | an id no row has changes nothing |
| TrendDb.UnsentAfterMark | src/news_agent/agents/db/sql_db.py:41-59 | after `mark_as_sent(id)`, the unsent rows are the earlier unsent rows except the one with that id |
| TrendDb.AllEntriesIgnoreFlags | src/news_agent/agents/db/sql_db.py:49-67 | marking a row sent does not change the entries |
| TrendDb.SavedIsUnsent | src/news_agent/agents/db/sql_db.py:30-47 | a saved row shows up among the unsent trends, and stays there while rows with other ids are marked sent |
| TrendDb.SQLiteTrendDB.constructor | src/news_agent/agents/db/sql_db.py:10-28 | an empty table whose AUTOINCREMENT counter is 0 |
| TrendDb.SQLiteTrendDB.SaveTrend | src/news_agent/agents/db/sql_db.py:30-39 | appends one row whose id is one above the AUTOINCREMENT counter, and that row is listed among the unsent trends |
| TrendDb.SQLiteTrendDB.MarkAsSent | src/news_agent/agents/db/sql_db.py:49-59 | the rows become `MarkSent` of the old rows, and the counter is unchanged |
| MappingDb.MatchingTrendsSpec | src/news_agent/agents/db/mapping.py:51-63 | the join returns a trend exactly when it shares a tag with the subscription, whatever its flag, and returns it once per shared tag |
| MappingDb.MatchingTrends | src/news_agent/agents/db/mapping.py:51-63 | the three-table join for one subscription, specified by `MatchingTrendsSpec` |
| MappingDb.MappingDB.GetMatchingTrendsForSubscription | src/news_agent/agents/db/mapping.py:51-63 | the join over the object's association tables |
| MappingDb.NoLinksNoMatches | src/news_agent/agents/db/mapping.py:51-63 | a subscription with no tag links matches no trend |
| MappingDb.MappingDB.constructor | src/news_agent/agents/db/mapping.py:10-35 | both association tables start empty |
| MappingDb.MappingDB.LinkSubscriptionTag | src/news_agent/agents/db/mapping.py:37-42 | INSERT OR IGNORE: the pair is present afterwards, a duplicate changes nothing, and the other table is untouched |
| MappingDb.MappingDB.LinkTrendTag | src/news_agent/agents/db/mapping.py:44-49 | the same, on the trend–tag pairs |
| SubscriptionDb.SubscribersFor | src/news_agent/agents/db/subscriptions.py:45-56 | an email is listed exactly when some row with that email lists the topic among its comma-split topics; at most one entry per row |
| SubscriptionDb.SubscribeRoundTrip | src/news_agent/agents/db/subscriptions.py:25-56 | a new subscription with a non-empty list of comma-free topics is found under each of those topics and under no other |
| SubscriptionDb.EmptyTopicsMatchEmptyTopic | src/news_agent/agents/db/subscriptions.py:25-56 | a subscription with no topics is stored as "" and is found only under the topic "" |
| SubscriptionDb.SQLiteSubscriptionDB.constructor | src/news_agent/agents/db/subscriptions.py:12-23 | an empty table |
| SubscriptionDb.SQLiteSubscriptionDB.AddSubscription | src/news_agent/agents/db/subscriptions.py:25-35 | always appends a row with the next AUTOINCREMENT id and the comma-joined topics, even for an email already present |
| SubscriptionDb.SQLiteSubscriptionDB.GetSubscribersForTopic | src/news_agent/agents/db/subscriptions.py:45-56 | the loop returns `SubscribersFor(rows, topic)` |
| SubscriptionDb.SQLiteSubscriptionDB.GetAllSubscriptions | src/news_agent/agents/db/subscriptions.py:37-43 | every row, in table order |
| TagDb.IdOf | src/news_agent/agents/db/tag.py:28-29 | the lookup by name is None exactly when no row has the name; otherwise it is the id of a row with that name |
| TagDb.InsertOrIgnore | src/news_agent/agents/db/tag.py:22-25 | the INSERT OR IGNORE on an AUTOINCREMENT table: an ignored insert still uses up an id; specified by `InsertOrIgnoreSpec` and `InsertOrIgnoreIdempotent` |
| TagDb.AddTagAsWritten | src/news_agent/agents/db/tag.py:21-29 | `add_tag` as written: returns `lastrowid` when non-zero, else the id found by name |
| TagDb.InsertOrIgnoreSpec | src/news_agent/agents/db/tag.py:22-25 | the insert keeps the table well formed and afterwards exactly one row carries the name; a new name is appended with a fresh id; for a known name the rows and the last inserted rowid stay as they were while the AUTOINCREMENT counter moves on by one |
| TagDb.InsertOrIgnoreIdempotent | src/news_agent/agents/db/tag.py:22-25 | inserting a name a second time leaves the rows and the last inserted rowid as the first insert left them; only the counter moves on |
| TagDb.AddTagAsWrittenReturnsOtherId | src/news_agent/agents/db/tag.py:21-29 | as written, after adding "a", "b", "a" on a fresh connection, the last call returns 2, which is the id of "b" |
| TagDb.IgnoredInsertSkipsId | src/news_agent/agents/db/tag.py:14-25 | on a fresh connection, adding "a", "a", "b" stores "a" with id 1 and "b" with id 3, and 3 is the last inserted rowid |
| TagDb.IdOfAppend | src/news_agent/agents/db/tag.py:28-29 | after appending a row with a new name, the lookup by that name finds that row's id |
| TagDb.TagDB.constructor | src/news_agent/agents/db/tag.py:6-19 | an empty table on a connection that has inserted nothing |
| TagDb.TagDB.AddTag | src/news_agent/agents/db/tag.py:21-29 | corrected: the state is the INSERT OR IGNORE, counter included, and the result is the id of the row with that name, which is the existing id when the name was taken |
| TagDb.TagDB.GetAllTags | src/news_agent/agents/db/tag.py:31-35 | every tag row, as stored |
| EmailSender.Configure | src/news_agent/agents/sender/email_sender.py:33-40 | the Gmail submission server on port 587, with the account as both login and sender address (a definition; nothing is proved about it) |
| EmailSender.Outgoing | src/news_agent/agents/sender/email_sender.py:42-68 | no message exactly when the trend list is missing or empty; otherwise a message from the configured address to the recipient |
| EmailSender.Subject | src/news_agent/agents/sender/email_sender.py:55-58 | "New Trend: " and the topic for one trend, the count and " New Trends for You" for several |
| EmailSender.TrendLines | src/news_agent/agents/sender/email_sender.py:62-66 | the four lines of one numbered trend |
| EmailSender.BodyLines | src/news_agent/agents/sender/email_sender.py:61-66 | the lines of all trends, numbered from 1; shape stated by `BodyLinesShape` |
| EmailSender.Body | src/news_agent/agents/sender/email_sender.py:60-68 | the body lines joined by line breaks; `MessageLines` splits them back |
| EmailSender.Send | src/news_agent/agents/sender/email_sender.py:42-84 | a missing or empty list returns False without reaching the server; otherwise the result is the server's answer to the composed message |
| EmailSender.BodyLinesShape | src/news_agent/agents/sender/email_sender.py:60-68 | the body has four lines per trend, and lines 4k to 4k+3 are the numbered topic, summary, link and blank line of trend k |
| EmailSender.BodyLinesLength | src/news_agent/agents/sender/email_sender.py:61-66 | four lines per trend |
| EmailSender.BodyLinesSingle | src/news_agent/agents/sender/email_sender.py:61-66 | no body line holds a line break when no field does |
| EmailSender.MessageLines | src/news_agent/agents/sender/email_sender.py:50-68 | splitting the body at line breaks gives back every trend's four lines; the subject names the topic of a single trend or the count of several |
| EmailSender.Batch | src/news_agent/agents/sender/email_sender.py:107-115 | a trend is in a subscriber's batch exactly when it is stored, not notified, and tagged with one of the subscriber's tags |
| EmailSender.BatchDistinct | src/news_agent/agents/sender/email_sender.py:113 | a batch from a table with increasing ids has increasing ids, so each trend appears once |
| EmailSender.Payloads | src/news_agent/agents/sender/email_sender.py:122-125 | each trend's topic, summary and URL, in order; `BodyLinesShape` and `MessageLines` state how they appear in the message |
| EmailSender.Visit | src/news_agent/agents/sender/email_sender.py:98-135 | one iteration of the loop, continuing after a rollback; properties in `VisitEffect`, `VisitAccounts` and `VisitNotifies` |
| EmailSender.Run | src/news_agent/agents/sender/email_sender.py:98-135 | the pass after the first n subscriptions; properties in `RunFlagsGrow`, `RunAccounts`, `RunNotifies` and `AtMostOnce` |
| EmailSender.FanOut | src/news_agent/agents/sender/email_sender.py:86-141 | the whole pass over the subscriptions loaded at its start |
| EmailSender.VisitAsWritten | src/news_agent/agents/sender/email_sender.py:98-135 | as written: after a rollback the next subscription's `email` access raises, and nothing runs after it |
| EmailSender.RunAsWritten | src/news_agent/agents/sender/email_sender.py:98-135 | the as-written pass after the first n subscriptions |
| EmailSender.SendAsWritten | src/news_agent/agents/sender/email_sender.py:86-141 | as written: no report when the pass raised |
| EmailSender.RunAsWrittenFollowsRun | src/news_agent/agents/sender/email_sender.py:98-135 | until it raises, the as-written pass is the pass that continues after rollbacks |
| EmailSender.SendAsWrittenWithoutFaults | src/news_agent/agents/sender/email_sender.py:86-141 | with no exception in any send or commit, the as-written report is the report of `FanOut` |
| EmailSender.NoFaultNeverRaises | src/news_agent/agents/sender/email_sender.py:126-135 | without an exception no rollback happens, so the as-written pass never raises |
| EmailSender.RollbackEndsPassAsWritten | src/news_agent/agents/sender/email_sender.py:98-135 | as written, two subscribers sharing one trend's tag, with the first send raising, end the pass with an exception; the continuing pass delivers the trend to the second and flags it |
| EmailSender.VisitEffect | src/news_agent/agents/sender/email_sender.py:98-135 | one subscriber makes at most one attempt: only if it has tags and a non-empty batch; flags change only on a delivery; the counters grow by the batch size as the outcome says |
| EmailSender.VisitOutcome | src/news_agent/agents/sender/email_sender.py:126-135 | delivered exactly when nothing raised and `send` returned True; refused exactly when `send` returned False without raising; failed in send exactly when it raised; failed at commit exactly when `send` returned True and the commit raised |
| EmailSender.VisitAccounts | src/news_agent/agents/sender/email_sender.py:126-135 | one visit keeps the counters equal to the batch sizes the log accounts for |
| EmailSender.RunFlagsGrow | src/news_agent/agents/sender/email_sender.py:98-135 | over a pass, rows keep every field except flags turning from false to true, and there is at most one attempt per subscriber |
| EmailSender.RunAccounts | src/news_agent/agents/sender/email_sender.py:126-135 | `sent_count` is the total size of batches whose send returned True (including those whose commit then raised), and `failed_count` is the total size of those that raised |
| EmailSender.VisitNotifies | src/news_agent/agents/sender/email_sender.py:127-131 | one visit keeps every trend of a delivered batch notified |
| EmailSender.RunNotifies | src/news_agent/agents/sender/email_sender.py:127-131 | at the end of a pass, every trend of every delivered batch is notified |
| EmailSender.RunOnlyDeliveredNotified | src/news_agent/agents/sender/email_sender.py:126-135 | a trend notified at the end of a pass but not at its start was in a delivered batch; refused, failed and rolled-back batches flag nothing |
| EmailSender.BatchAvoidsDelivered | src/news_agent/agents/sender/email_sender.py:107-115 | a batch never holds a trend that was already delivered in the pass |
| EmailSender.VisitKeepsDisjoint | src/news_agent/agents/sender/email_sender.py:107-131 | one visit never delivers a trend that was already delivered |
| EmailSender.RunDelivers | src/news_agent/agents/sender/email_sender.py:107-131 | no delivered batch of a pass holds a trend that an earlier delivered batch held |
| EmailSender.AtMostOnce | src/news_agent/agents/sender/email_sender.py:98-135 | two delivered batches of one pass share no trend |
| EmailSender.BatchEmptyIff | src/news_agent/agents/sender/email_sender.py:107-119 | a batch is empty exactly when no row is eligible |
| EmailSender.BatchEmptyStays | src/news_agent/agents/sender/email_sender.py:107-119 | turning flags on never makes an empty batch non-empty |
| EmailSender.FlagBatchEmpties | src/news_agent/agents/sender/email_sender.py:107-131 | after its batch is flagged, a subscriber's batch is empty |
| EmailSender.VisitQuiets | src/news_agent/agents/sender/email_sender.py:98-131 | after a visit that made no attempt or delivered, that subscriber has nothing left to receive |
| EmailSender.QuietAfter | src/news_agent/agents/sender/email_sender.py:98-135 | after a pass whose every attempt was delivered, no subscriber visited has anything left to receive |
| EmailSender.SilentRun | src/news_agent/agents/sender/email_sender.py:98-119 | visiting subscribers who have nothing to receive changes nothing and counts nothing |
| EmailSender.SecondPassQuiet | src/news_agent/agents/sender/email_sender.py:86-141 | idempotence: after a pass whose every attempt was delivered, a second pass sends nothing and changes nothing, whatever the server does |
| EmailSender.MarkBatch | src/news_agent/agents/sender/email_sender.py:128-129 | the loop flags exactly the batch's trends and changes no other table |
| EmailSender.VisitOne | src/news_agent/agents/sender/email_sender.py:99-135 | one loop iteration (query, send, flags, commit or rollback) takes the tables and counters to `Visit` of the old ones |
| EmailSender.SendForSubscriptions | src/news_agent/agents/sender/email_sender.py:86-141 | corrected: a failure does not stop the pass. The trends table ends as the specification pass `FanOut` leaves it, the other tables are unchanged, and the report is the pass's counters with the number of subscriptions loaded |
| HotNews.AnyOccurs | src/news_agent/agents/ingestion/serpapi_search_mcp_server.py:212 | `any(w in text for w in ws)` is true exactly when one of the words occurs in the text |
| HotNews.SourceAuthority | src/news_agent/agents/ingestion/serpapi_search_mcp_server.py:137-175 | 5 exactly when a major outlet's name is in the lowercased source; 3 exactly when none is but a medium outlet's is; otherwise 1 |
| HotNews.Found | src/news_agent/agents/ingestion/serpapi_search_mcp_server.py:204 | a word is kept exactly when it is in the list and occurs in the text |
| HotNews.FoundInOrder | src/news_agent/agents/ingestion/serpapi_search_mcp_server.py:204 | the kept words come in list order |
| HotNews.HotIndicatorsDistinct | src/news_agent/agents/ingestion/serpapi_search_mcp_server.py:180-201 | the twenty hot indicators are pairwise distinct |
| HotNews.HotKeywords | src/news_agent/agents/ingestion/serpapi_search_mcp_server.py:178-205 | `extract_hot_keywords`, specified by `HotKeywordsSpec` |
| HotNews.HotKeywordsSpec | src/news_agent/agents/ingestion/serpapi_search_mcp_server.py:178-205 | the keywords are exactly the indicators found in the lowercased text, in list order, each at most once |
| HotNews.IsBreakingNews | src/news_agent/agents/ingestion/serpapi_search_mcp_server.py:208-212 | true exactly when one of the five breaking indicators is in the lowercased title |
| HotNews.BreakingHasKeywords | src/news_agent/agents/ingestion/serpapi_search_mcp_server.py:81-84 | an article flagged breaking always has engagement keywords |
| HotNews.RecencyLadder | src/news_agent/agents/ingestion/serpapi_search_mcp_server.py:122-131 | the score is one of 10, 8, 6, 3, 1 |
| HotNews.RecencyMonotone | src/news_agent/agents/ingestion/serpapi_search_mcp_server.py:122-131 | older news never scores higher |
| HotNews.Recency | src/news_agent/agents/ingestion/serpapi_search_mcp_server.py:108-134 | 0 for a missing, empty or unparsable date; whenever the date parses, exactly the ladder's score for the elapsed hours; never above 10 |
| HotNews.BuildArticle | src/news_agent/agents/ingestion/serpapi_search_mcp_server.py:65-87 | the article dict of one result; its contract bounds recency by 10 and puts authority in {1, 3, 5}; `HotnessBounds`, `BreakingHasKeywords` and `HotNewsSpec` state what ranking relies on |
| HotNews.BuildAll | src/news_agent/agents/ingestion/serpapi_search_mcp_server.py:61-89 | one article per result, in result order; `HotNewsSpec` states what is returned |
| HotNews.HotnessBounds | src/news_agent/agents/ingestion/serpapi_search_mcp_server.py:92-99 | the sort key of a built article is between 1 and 25 |
| HotNews.Hotness | src/news_agent/agents/ingestion/serpapi_search_mcp_server.py:92-97 | the sort key: 10 for breaking news, plus recency, plus authority |
| HotNews.RankByHotness | src/news_agent/agents/ingestion/serpapi_search_mcp_server.py:91-99 | the sort, specified by `RankByHotnessSpec` |
| HotNews.InsertPermutes | src/news_agent/agents/ingestion/serpapi_search_mcp_server.py:92-99 | inserting adds exactly the one article |
| HotNews.InsertRanked | src/news_agent/agents/ingestion/serpapi_search_mcp_server.py:92-99 | inserting into a ranked list keeps it ranked |
| HotNews.InsertKeepsTies | src/news_agent/agents/ingestion/serpapi_search_mcp_server.py:92-99 | the inserted article goes before the equally hot ones already placed |
| HotNews.RankPermutes | src/news_agent/agents/ingestion/serpapi_search_mcp_server.py:92-99 | the ranking is a permutation of its input |
| HotNews.RankRanked | src/news_agent/agents/ingestion/serpapi_search_mcp_server.py:92-99 | hotness does not increase along the ranking (`reverse=True`) |
| HotNews.RankKeepsTies | src/news_agent/agents/ingestion/serpapi_search_mcp_server.py:92-99 | equally hot articles keep their input order (Python's sort is stable, also with `reverse=True`) |
| HotNews.RankByHotnessSpec | src/news_agent/agents/ingestion/serpapi_search_mcp_server.py:92-99 | the ranking is a stable sort by descending hotness: a permutation, ranked, ties in input order |
| HotNews.TimeFilter | src/news_agent/agents/ingestion/serpapi_search_mcp_server.py:34-51 | `tbs_map.get(timeframe, "qdr:d")`; its contract states that the filter is always one of the five known filters |
| HotNews.Params | src/news_agent/agents/ingestion/serpapi_search_mcp_server.py:42-53 | the request dict (Google News, US, safe search, by date); `HotNewsSpec` states the articles a search returns |
| HotNews.HotNews | src/news_agent/agents/ingestion/serpapi_search_mcp_server.py:55-105 | what `search_hot_news` returns, specified by `HotNewsSpec` |
| HotNews.HotNewsSpec | src/news_agent/agents/ingestion/serpapi_search_mcp_server.py:55-105 | a request error returns []; otherwise the articles are the results, one each, ranked hottest first with ties in result order, each scoring 1 to 25 and recording the query |
| HotNews.SearchHotNews | src/news_agent/agents/ingestion/serpapi_search_mcp_server.py:16-105 | the loop and sort return `HotNews(...)` |
| HotNews.QueriesAsWritten | src/news_agent/agents/ingestion/serpapi_search_mcp_server.py:229-239 | as written: a string argument is iterated character by character |
| HotNews.DefaultTextSplitsIntoLetters | src/news_agent/agents/ingestion/serpapi_search_mcp_server.py:218-243 | as written, the default argument "breaking news" runs thirteen one-letter searches and never searches "breaking news" |
| HotNews.Queries | src/news_agent/agents/ingestion/serpapi_search_mcp_server.py:218-239 | corrected: no argument gives the five defaults, a string is one query, a list its items; `DefaultTextSplitsIntoLetters` shows how `QueriesAsWritten` differs |
| HotNews.DedupFrom | src/news_agent/agents/ingestion/serpapi_search_mcp_server.py:245-251 | no kept article has a URL that was already seen |
| HotNews.DedupKeepsOrder | src/news_agent/agents/ingestion/serpapi_search_mcp_server.py:245-253 | deduplication keeps a subsequence of the articles, in order |
| HotNews.DedupDistinct | src/news_agent/agents/ingestion/serpapi_search_mcp_server.py:245-253 | the kept URLs are pairwise distinct |
| HotNews.DedupCovers | src/news_agent/agents/ingestion/serpapi_search_mcp_server.py:245-253 | every URL not already seen is kept |
| HotNews.DedupFirst | src/news_agent/agents/ingestion/serpapi_search_mcp_server.py:245-253 | each kept article is the first with its URL |
| HotNews.DedupByUrl | src/news_agent/agents/ingestion/serpapi_search_mcp_server.py:245-253 | URL deduplication, specified by `DedupByUrlSpec` |
| HotNews.DedupByUrlSpec | src/news_agent/agents/ingestion/serpapi_search_mcp_server.py:245-253 | URL dedup keeps, in order, exactly the first article of each URL |
| HotNews.DropRepeatedUrls | src/news_agent/agents/ingestion/serpapi_search_mcp_server.py:245-253 | the loop with the `seen_urls` set returns `DedupByUrl` of its input |
| HotNews.SearchTrendingTopics | src/news_agent/agents/ingestion/serpapi_search_mcp_server.py:218-253 | corrected: the URL-deduplicated concatenation of one past-day, ten-result search per query |
| HotNews.CategoryQuery | src/news_agent/agents/ingestion/serpapi_search_mcp_server.py:270-281 | the mapped phrase for the eight known categories, otherwise the category and " latest news"; `CategoryQueryInjective` states that different categories search different phrases |
| HotNews.CategoryQueryInjective | src/news_agent/agents/ingestion/serpapi_search_mcp_server.py:270-281 | different categories never search the same phrase |
| HotNews.SearchByCategoryHotNews | src/news_agent/agents/ingestion/serpapi_search_mcp_server.py:260-282 | one past-day search for the category's phrase, with the default twenty results |
| ReferencePlanner.FindTag | tests/unit/test_db.py:100-101 | None exactly when no tag has the query's name; otherwise a stored tag with that name |
| ReferencePlanner.Survivors | tests/unit/test_db.py:87-93 | no more items survive than came in, and all of them, in order, when the dedup check reports none |
| ReferencePlanner.SurvivorsMembers | tests/unit/test_db.py:87-93 | an item survives exactly when the dedup check does not report its topic and link |
| ReferencePlanner.Created | tests/unit/test_db.py:95-97 | the trends made from the surviving items, with consecutive ids; `PersistTrends` states what they add to the session |
| ReferencePlanner.WithQueryTagSpec | tests/unit/test_db.py:99-106 | get-or-create of the query's tag keeps tag ids increasing and names unique, leaves the tag present, keeps its id, and is idempotent |
| ReferencePlanner.Stage | tests/unit/test_db.py:95-106 | one surviving item staged: a new unsent trend, the query's tag got or created, and their link |
| ReferencePlanner.Persist | tests/unit/test_db.py:86-110 | the session after the loop, specified by `PersistTrends`, `PersistTags`, `PersistLinks` and `PersistWellFormed` |
| ReferencePlanner.PersistTrends | tests/unit/test_db.py:86-110 | the session's trends are the old ones plus one unsent trend per surviving item, with that item's topic, summary and link and consecutive fresh ids |
| ReferencePlanner.PersistTags | tests/unit/test_db.py:99-110 | the query's tag is created only when missing and at least one item survived; subscriptions and their links are unchanged |
| ReferencePlanner.PersistLinks | tests/unit/test_db.py:99-110 | every created trend, and no other new pair, is linked to the query's tag under the id that tag had or was given |
| ReferencePlanner.PersistWellFormed | tests/unit/test_db.py:86-110 | the session the loop builds is well formed, so the commit keeps the store valid |
| ReferencePlanner.ProcessQuery | tests/unit/test_db.py:82-113 | returns the surviving topics in input order; the store ends as the committed session after one sender pass over it |

## Left out

- The LLM agents (the planner `Runner`, `DeduplicationAgent`, `ChatAgent`, `IngestionAgent`) and the automatic agent loop. Their decisions are external: the dedup check is the `stored` parameter, and the ingestion result is the `items` list.
- No retry, backoff or cooldown loop exists on the search paths: a failed search returns [] (`search_hot_news`), and the model does the same.
- Network, SMTP and time are parameters: `fetch`, `smtp`, `faults` and `hoursAgo`.
- `search_timestamp` is the clock and is not a field of the modelled article.
- `dateutil` parsing is part of `hoursAgo`.
- EmailSender.SendForSubscriptions, EmailSender.FanOut: the sender opens its session with `self.db.get_db()`, but the store class it is given, `SQLAlchemySubscriptionDB`, has no `get_db` method (`get_db` is a module-level function), so as written the pass fails before it loads any subscription. The model hands the pass the store's tables, as the session from the module-level `get_db()` would show them.
- The MCP server plumbing, the async engine and session objects, logging, the web routes, the front end, settings and telemetry are not part of this model.
- HotNews.Recency: elapsed hours are a `real`, not a floating-point number.
- Strings.Lower: `str.lower()` is modelled on ASCII letters only; other characters are kept as they are.
- SqlStore.Store.AddSubscription, SqlStore.Store.AddTag: a UNIQUE violation is returned as None, where SQLAlchemy raises `IntegrityError`.
- The ORM relationships are not modelled as objects: tags are linked by id through the association tables, and no cascade is modelled.
- Ids are unbounded naturals; SQLite's 64-bit rowid limit is not modelled.
- SQL queries without ORDER BY return rows in table (id) order in this model. SQLite does not promise that order.
- ReferencePlanner.ProcessQuery: the model assumes `trend.tags.append(tag_obj)` (tests/unit/test_db.py:106) succeeds. As written, the `select` at line 100 autoflushes the pending trend, since the session keeps autoflush on. The trend is then persistent with an unloaded `tags` collection, and reading that collection needs a lazy load, which an async session refuses by raising. The planner would then fail at the first surviving item, before the commit.
- ReferencePlanner.ProcessQuery: the test replaces the sender with a mock and builds `Trend` rows whose `source` is NULL. The model runs the modelled sender pass after the commit, and stores `source` as None.
- The raw `subscriptions.py` table allows several rows per email and keeps topics as a comma-joined string; `SubscriptionDb.SQLiteSubscriptionDB.AddSubscription` always appends, as `add_subscription` does.
- The test's `add_trend` call with four positional arguments, and the dedup agent's `db_exists`, are not modelled. The dedup check is the `stored` parameter.

## Findings

| source | as written | input that shows it | evidently intended | confidence | as-written member | corrected member |
|---|---|---|---|---|---|---|
| src/news_agent/agents/db/tag.py:21-29 | `add_tag` returns `cursor.lastrowid` whenever it is non-zero. After an ignored `INSERT OR IGNORE`, that is the connection's previous insert. | On a fresh connection: `add_tag("a")`, `add_tag("b")`, `add_tag("a")`. The third call returns 2, the id of "b". | The id of the tag named "a", which is 1. | not executed | TagDb.AddTagAsWrittenReturnsOtherId | TagDb.TagDB.AddTag |
| src/news_agent/agents/ingestion/serpapi_search_mcp_server.py:218-243 | `for topic in topics` over the default string argument iterates its characters. | `search_trending_topics()` with its default `"breaking news"` runs thirteen one-letter searches ("b", "r", …) and never searches "breaking news". | One search for the string. | not executed | HotNews.DefaultTextSplitsIntoLetters | HotNews.SearchTrendingTopics |
| src/news_agent/agents/sender/email_sender.py:98-135 | `db.rollback()` (line 135) expires every object the session loaded, the remaining subscriptions included; `expire_on_commit=False` covers commits only. The next iteration reads `subscription.email` (line 99) outside the `try`, which needs a lazy load that the async session refuses by raising. | Two subscribers "a" and "b" share tag "g" of one unsent trend, and the first send raises. The pass raises at "b" and returns no report; "b" never receives the trend. | The pass goes on with the next subscriber, as the per-subscriber `try` and rollback intend. | not executed; rests on SQLAlchemy expiring loaded objects on rollback | EmailSender.RollbackEndsPassAsWritten | EmailSender.SendForSubscriptions |
