/** The raw SQLite subscriptions table: an AUTOINCREMENT id, an email that
    is NOT unique, and the subscriber's topics stored as one comma-joined
    string that the topic lookup splits again. */
module SubscriptionDb {
  import opened Strings

  datatype SubscriptionRow = SubscriptionRow(id: nat, email: string, topics: string)

  /** Python's `topic in topics_str.split(",")`: exact, case- and
      whitespace-sensitive comparison against each piece. */
  predicate ListsTopic(row: SubscriptionRow, topic: string) {
    topic in Split(row.topics, ',')
  }

  /** The emails of the rows that list `topic`, in row order, one per row. */
  function SubscribersFor(rows: seq<SubscriptionRow>, topic: string): (r: seq<string>)
    ensures |r| <= |rows|
    ensures forall e :: e in r <==> exists i :: 0 <= i < |rows| && rows[i].email == e && ListsTopic(rows[i], topic)
  {
    if |rows| == 0 then []
    else
      var init := rows[..|rows| - 1];
      var last := rows[|rows| - 1];
      assert forall i :: 0 <= i < |init| ==> rows[i] == init[i];
      SubscribersFor(init, topic) + (if ListsTopic(last, topic) then [last.email] else [])
  }

  /** A new row for `email` lists exactly the topics it was stored with,
      when the list is not empty and no topic holds a comma: it adds the
      email to the subscribers of each of them, and of no other topic. */
  lemma SubscribeRoundTrip(rows: seq<SubscriptionRow>, id: nat, email: string, topics: seq<string>, topic: string)
    requires |topics| >= 1 && forall k :: 0 <= k < |topics| ==> ',' !in topics[k]
    ensures var row := SubscriptionRow(id, email, Join(topics, ','));
      SubscribersFor(rows + [row], topic) == SubscribersFor(rows, topic) + (if topic in topics then [email] else [])
  {
    var row := SubscriptionRow(id, email, Join(topics, ','));
    SplitJoin(topics, ',');
    assert (rows + [row])[..|rows|] == rows;
  }

  /** An empty topic list is stored as "", which splits to [""]: such a row
      answers the topic "" and no other. */
  lemma EmptyTopicsMatchEmptyTopic(rows: seq<SubscriptionRow>, id: nat, email: string, topic: string)
    ensures var row := SubscriptionRow(id, email, Join([], ','));
      SubscribersFor(rows + [row], topic) == SubscribersFor(rows, topic) + (if topic == "" then [email] else [])
  {
    var row := SubscriptionRow(id, email, Join([], ','));
    assert Split(row.topics, ',') == [""];
    assert (rows + [row])[..|rows|] == rows;
  }

  class SQLiteSubscriptionDB {
    var rows: seq<SubscriptionRow>
    /** The table's AUTOINCREMENT counter. */
    var lastId: nat

    ghost predicate Valid()
      reads this
    {
      forall i :: 0 <= i < |rows| ==> 1 <= rows[i].id <= lastId
    }

    constructor ()
      ensures Valid() && rows == [] && lastId == 0
    {
      rows, lastId := [], 0;
    }

    /** add_subscription: a new row, even when the email already has one. */
    method AddSubscription(email: string, topics: seq<string>)
      requires Valid()
      modifies this
      ensures Valid()
      ensures lastId == old(lastId) + 1
      ensures rows == old(rows) + [SubscriptionRow(lastId, email, Join(topics, ','))]
    {
      lastId := lastId + 1;
      rows := rows + [SubscriptionRow(lastId, email, Join(topics, ','))];
    }

    /** get_all_subscriptions. */
    function GetAllSubscriptions(): seq<SubscriptionRow>
      reads this
    {
      rows
    }

    /** get_subscribers_for_topic: the loop over the rows, appending the
        email of every row whose split topics contain `topic`. Reads the
        table only. */
    method GetSubscribersForTopic(topic: string) returns (subscribers: seq<string>)
      ensures subscribers == SubscribersFor(rows, topic)
    {
      subscribers := [];
      for i := 0 to |rows|
        invariant subscribers == SubscribersFor(rows[..i], topic)
      {
        assert rows[..i + 1][..i] == rows[..i];
        var row := rows[i];
        var pieces := Split(row.topics, ',');
        if topic in pieces {
          subscribers := subscribers + [row.email];
        }
      }
      assert rows[..|rows|] == rows;
    }
  }
}
