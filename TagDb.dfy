/** The raw SQLite tags table: an AUTOINCREMENT id and a UNIQUE name, filled
    by an `INSERT OR IGNORE` get-or-create. What `add_tag` returns depends on
    the connection's last inserted rowid, which an ignored insert leaves
    unchanged; so the connection's value is part of the state here. The
    AUTOINCREMENT counter, by contrast, moves on an ignored insert too: the
    new rowid is drawn before the UNIQUE conflict drops the row. */
module TagDb {
  import opened Wrappers

  datatype TagRow = TagRow(id: nat, name: string)

  /** The table, its AUTOINCREMENT counter, and the connection's last
      inserted rowid (0 before the connection's first insert). */
  datatype TagState = TagState(rows: seq<TagRow>, lastId: nat, lastInsertRowid: nat)

  predicate NameTaken(rows: seq<TagRow>, name: string) {
    exists i :: 0 <= i < |rows| && rows[i].name == name
  }

  predicate WellFormed(t: TagState) {
    && (forall i, j :: 0 <= i < j < |t.rows| ==> t.rows[i].id < t.rows[j].id && t.rows[i].name != t.rows[j].name)
    && (forall i :: 0 <= i < |t.rows| ==> 1 <= t.rows[i].id <= t.lastId)
    && t.lastInsertRowid <= t.lastId
  }

  /** `SELECT id FROM tags WHERE name = ?`: the first row with that name. */
  function IdOf(rows: seq<TagRow>, name: string): (r: Option<nat>)
    ensures r.None? <==> !NameTaken(rows, name)
    ensures r.Some? ==> exists i :: 0 <= i < |rows| && rows[i] == TagRow(r.value, name)
  {
    if |rows| == 0 then None
    else if rows[0].name == name then
      assert rows[0] == TagRow(rows[0].id, name);
      Some(rows[0].id)
    else
      var r := IdOf(rows[1..], name);
      assert forall i :: 1 <= i < |rows| ==> rows[i] == rows[1..][i - 1];
      assert r.Some? ==> exists i :: 0 <= i < |rows| && rows[i] == TagRow(r.value, name) by {
        if r.Some? {
          var i :| 0 <= i < |rows[1..]| && rows[1..][i] == TagRow(r.value, name);
          assert rows[i + 1] == TagRow(r.value, name);
        }
      }
      r
  }

  /** `INSERT OR IGNORE INTO tags (name) VALUES (?)`: a new name gets the next
      AUTOINCREMENT id and becomes the connection's last inserted rowid; a
      name already present leaves the rows and the last inserted rowid as
      they were, but still uses up one AUTOINCREMENT id. */
  function InsertOrIgnore(t: TagState, name: string): TagState {
    if NameTaken(t.rows, name) then t.(lastId := t.lastId + 1)
    else TagState(t.rows + [TagRow(t.lastId + 1, name)], t.lastId + 1, t.lastId + 1)
  }

  /** The rows after the insert: exactly one of them carries the name, a new
      name is appended with a fresh id, and an existing one leaves the
      table and the last inserted rowid as they were while the counter
      moves on by one. */
  lemma InsertOrIgnoreSpec(t: TagState, name: string)
    requires WellFormed(t)
    ensures var u := InsertOrIgnore(t, name);
      && WellFormed(u)
      && (NameTaken(t.rows, name) ==>
            u.rows == t.rows && u.lastInsertRowid == t.lastInsertRowid && u.lastId == t.lastId + 1)
      && (!NameTaken(t.rows, name) ==>
            u.rows == t.rows + [TagRow(t.lastId + 1, name)] && forall i :: 0 <= i < |t.rows| ==> t.rows[i].id < t.lastId + 1)
      && exists i :: 0 <= i < |u.rows| && u.rows[i].name == name && forall j :: 0 <= j < |u.rows| && j != i ==> u.rows[j].name != name
  {
    var u := InsertOrIgnore(t, name);
    if NameTaken(t.rows, name) {
      var i :| 0 <= i < |t.rows| && t.rows[i].name == name;
      assert forall j :: 0 <= j < |u.rows| && j != i ==> u.rows[j].name != name;
    } else {
      var i := |t.rows|;
      assert u.rows[i].name == name;
      assert forall j :: 0 <= j < |u.rows| && j != i ==> u.rows[j].name != name;
    }
  }

  /** Adding the same name twice leaves the table and the last inserted
      rowid as the first call left them; only the counter moves on. */
  lemma InsertOrIgnoreIdempotent(t: TagState, name: string)
    ensures var u := InsertOrIgnore(t, name);
      InsertOrIgnore(u, name) == u.(lastId := u.lastId + 1)
  {
    if !NameTaken(t.rows, name) {
      var u := InsertOrIgnore(t, name);
      assert u.rows[|t.rows|].name == name;
    }
  }

  /** What add_tag returns as written: the cursor's `lastrowid` when it is
      not 0, else the id found by name. After an ignored insert `lastrowid`
      is the connection's previous insert, which may be another tag. */
  function AddTagAsWritten(t: TagState, name: string): (r: (TagState, Option<nat>)) {
    var u := InsertOrIgnore(t, name);
    (u, if u.lastInsertRowid != 0 then Some(u.lastInsertRowid) else IdOf(u.rows, name))
  }

  /** On a fresh connection, add "a", add "b", then add "a" again: the last
      call returns 2, the id of "b", although "a" has id 1. */
  lemma AddTagAsWrittenReturnsOtherId()
    ensures var s0 := TagState([], 0, 0);
      var (s1, r1) := AddTagAsWritten(s0, "a");
      var (s2, r2) := AddTagAsWritten(s1, "b");
      var (s3, r3) := AddTagAsWritten(s2, "a");
      && r1 == Some(1) && r2 == Some(2) && r3 == Some(2)
      && IdOf(s3.rows, "a") == Some(1)
  {
    var s1 := TagState([TagRow(1, "a")], 1, 1);
    var s2 := TagState([TagRow(1, "a"), TagRow(2, "b")], 2, 2);
    assert !NameTaken([], "a");
    assert InsertOrIgnore(TagState([], 0, 0), "a") == s1;
    assert !NameTaken(s1.rows, "b") by {
      assert s1.rows[0].name == "a" != "b";
    }
    assert InsertOrIgnore(s1, "b") == s2;
    assert s2.rows[0].name == "a";
    assert NameTaken(s2.rows, "a");
    assert InsertOrIgnore(s2, "a") == s2.(lastId := 3);
  }

  /** On a fresh connection, add "a" twice and then "b": the ignored second
      insert uses up id 2, so "b" gets id 3 and the ids have a gap. */
  lemma IgnoredInsertSkipsId()
    ensures var s0 := TagState([], 0, 0);
      var s3 := InsertOrIgnore(InsertOrIgnore(InsertOrIgnore(s0, "a"), "a"), "b");
      s3.rows == [TagRow(1, "a"), TagRow(3, "b")] && s3.lastInsertRowid == 3
  {
    var s1 := TagState([TagRow(1, "a")], 1, 1);
    assert !NameTaken([], "a");
    assert InsertOrIgnore(TagState([], 0, 0), "a") == s1;
    assert NameTaken(s1.rows, "a") by {
      assert s1.rows[0].name == "a";
    }
    assert !NameTaken(s1.rows, "b") by {
      assert s1.rows[0].name == "a" != "b";
    }
  }

  class TagDB {
    var rows: seq<TagRow>
    var lastId: nat
    var lastInsertRowid: nat

    function State(): TagState
      reads this
    {
      TagState(rows, lastId, lastInsertRowid)
    }

    ghost predicate Valid()
      reads this
    {
      WellFormed(State())
    }

    /** A new connection to an empty table. */
    constructor ()
      ensures Valid() && State() == TagState([], 0, 0)
    {
      rows, lastId, lastInsertRowid := [], 0, 0;
    }

    /** add_tag, returning the id of the row named `name` whichever way the
        insert went: the new row's id, or the existing row's. */
    method AddTag(name: string) returns (id: nat)
      requires Valid()
      modifies this
      ensures Valid()
      ensures State() == InsertOrIgnore(old(State()), name)
      ensures IdOf(rows, name) == Some(id)
      ensures NameTaken(old(rows), name) ==> Some(id) == IdOf(old(rows), name)
    {
      var before := State();
      InsertOrIgnoreSpec(before, name);
      if !NameTaken(rows, name) {
        lastId := lastId + 1;
        rows := rows + [TagRow(lastId, name)];
        lastInsertRowid := lastId;
        IdOfAppend(before.rows, TagRow(lastId, name));
        return lastId;
      }
      lastId := lastId + 1;
      id := IdOf(rows, name).value;
    }

    /** get_all_tags: every row, as stored. */
    function GetAllTags(): seq<TagRow>
      reads this
    {
      rows
    }
  }

  lemma {:induction false} IdOfAppend(rows: seq<TagRow>, row: TagRow)
    requires !NameTaken(rows, row.name)
    ensures IdOf(rows + [row], row.name) == Some(row.id)
    decreases |rows|
  {
    if |rows| == 0 {
      assert (rows + [row])[0] == row;
    } else {
      assert (rows + [row])[1..] == rows[1..] + [row];
      assert !NameTaken(rows[1..], row.name) by {
        forall i | 0 <= i < |rows[1..]|
          ensures rows[1..][i].name != row.name
        {
          assert rows[1..][i] == rows[i + 1];
        }
      }
      IdOfAppend(rows[1..], row);
    }
  }
}
