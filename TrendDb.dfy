/** The raw SQLite trends table: rows with NOT NULL text columns and a
    `notified` flag stored as 0 or 1, ids from an AUTOINCREMENT key. */
module TrendDb {

  datatype TrendRow = TrendRow(id: nat, topic: string, summary: string, url: string, source: string, notified: bool)

  predicate IdsAscend(rows: seq<TrendRow>) {
    forall i, j :: 0 <= i < j < |rows| ==> rows[i].id < rows[j].id
  }

  /** The rows with `notified = 0`, in table order. */
  function UnsentTrends(rows: seq<TrendRow>): (r: seq<TrendRow>)
    ensures forall t :: t in r <==> t in rows && !t.notified
    ensures |r| <= |rows|
  {
    if |rows| == 0 then []
    else
      var init := UnsentTrends(rows[..|rows| - 1]);
      var last := rows[|rows| - 1];
      assert rows == rows[..|rows| - 1] + [last];
      if last.notified then init else init + [last]
  }

  /** `UPDATE trends SET notified = 1 WHERE id = ?`. */
  function MarkSent(rows: seq<TrendRow>, id: nat): seq<TrendRow> {
    seq(|rows|, i requires 0 <= i < |rows| => if rows[i].id == id then rows[i].(notified := true) else rows[i])
  }

  /** One (topic, url) pair per row. */
  function AllEntries(rows: seq<TrendRow>): seq<(string, string)> {
    seq(|rows|, i requires 0 <= i < |rows| => (rows[i].topic, rows[i].url))
  }

  /** Marking an id twice is marking it once. */
  lemma MarkSentIdempotent(rows: seq<TrendRow>, id: nat)
    ensures MarkSent(MarkSent(rows, id), id) == MarkSent(rows, id)
  {
  }

  /** An id no row has changes nothing. */
  lemma MarkSentUnknownId(rows: seq<TrendRow>, id: nat)
    requires forall i :: 0 <= i < |rows| ==> rows[i].id != id
    ensures MarkSent(rows, id) == rows
  {
  }

  /** After mark_as_sent(id), the unsent trends are those before the call
      minus the row with that id. */
  lemma {:induction false} UnsentAfterMark(rows: seq<TrendRow>, id: nat)
    ensures forall t :: t in UnsentTrends(MarkSent(rows, id)) <==> t in UnsentTrends(rows) && t.id != id
  {
    var m := MarkSent(rows, id);
    forall t
      ensures t in m && !t.notified <==> t in rows && !t.notified && t.id != id
    {
      if t in m && !t.notified {
        var i :| 0 <= i < |m| && m[i] == t;
        assert rows[i] == t;
      }
      if t in rows && !t.notified && t.id != id {
        var i :| 0 <= i < |rows| && rows[i] == t;
        assert m[i] == t;
      }
    }
  }

  /** The entries list every row whatever its flag, so marking a trend sent
      does not change them. */
  lemma AllEntriesIgnoreFlags(rows: seq<TrendRow>, id: nat)
    ensures AllEntries(MarkSent(rows, id)) == AllEntries(rows)
  {
  }

  class SQLiteTrendDB {
    var rows: seq<TrendRow>
    /** The table's AUTOINCREMENT counter: the largest id ever assigned. */
    var lastId: nat

    ghost predicate Valid()
      reads this
    {
      IdsAscend(rows) && forall i :: 0 <= i < |rows| ==> rows[i].id <= lastId
    }

    constructor ()
      ensures Valid() && rows == [] && lastId == 0
    {
      rows, lastId := [], 0;
    }

    /** save_trend: one new unsent row with an id above every id ever given. */
    method SaveTrend(topic: string, summary: string, url: string, source: string)
      requires Valid()
      modifies this
      ensures Valid()
      ensures lastId == old(lastId) + 1
      ensures rows == old(rows) + [TrendRow(lastId, topic, summary, url, source, false)]
      ensures rows[|rows| - 1] in UnsentTrends(rows)
    {
      lastId := lastId + 1;
      SavedIsUnsent(rows, TrendRow(lastId, topic, summary, url, source, false));
      rows := rows + [TrendRow(lastId, topic, summary, url, source, false)];
    }

    /** get_unsent_trends. */
    function GetUnsentTrends(): seq<TrendRow>
      reads this
    {
      UnsentTrends(rows)
    }

    /** get_all_entries. */
    function GetAllEntries(): seq<(string, string)>
      reads this
    {
      AllEntries(rows)
    }

    /** mark_as_sent. */
    method MarkAsSent(id: nat)
      requires Valid()
      modifies this
      ensures Valid()
      ensures rows == MarkSent(old(rows), id) && lastId == old(lastId)
    {
      rows := MarkSent(rows, id);
    }
  }

  /** A saved trend is unsent, and stays so while other ids are marked. */
  lemma SavedIsUnsent(rows: seq<TrendRow>, row: TrendRow)
    requires !row.notified
    ensures row in UnsentTrends(rows + [row])
    ensures forall id :: id != row.id ==> row in UnsentTrends(MarkSent(rows + [row], id))
  {
    forall id | id != row.id
      ensures row in UnsentTrends(MarkSent(rows + [row], id))
    {
      assert MarkSent(rows + [row], id)[|rows|] == row;
    }
  }
}
