/** The `messages` table both bots keep in SQLite: one row per exchange, never
    updated or deleted. The table is modelled as an in-memory sequence of rows
    kept in insertion (rowid) order. */
module HistoryStore {

  /** One row of `messages (id INTEGER PRIMARY KEY AUTOINCREMENT, user_id INTEGER,
      message TEXT, response TEXT)`. */
  datatype Row = Row(id: int, userId: int, message: string, response: string)

  /** One `(message, response)` pair as the history query returns it. */
  datatype Turn = Turn(message: string, response: string)

  function TurnOf(row: Row): Turn {
    Turn(row.message, row.response)
  }

  /** Row ids grow strictly in insertion order. */
  ghost predicate IdsIncreasing(rows: seq<Row>) {
    forall i, j :: 0 <= i < j < |rows| ==> rows[i].id < rows[j].id
  }

  /** `SELECT message, response FROM messages WHERE user_id = ?`, with the rows
      read in insertion order: at most one pair per row. */
  function UserHistory(rows: seq<Row>, userId: int): (h: seq<Turn>)
    ensures |h| <= |rows|
  {
    if rows == [] then []
    else (if rows[0].userId == userId then [TurnOf(rows[0])] else []) + UserHistory(rows[1..], userId)
  }

  /** Every pair in a user's history comes from a row of that user, and every row
      of that user contributes its pair. */
  lemma {:induction false} UserHistoryMembers(rows: seq<Row>, userId: int)
    ensures forall t :: t in UserHistory(rows, userId) ==>
      exists row :: row in rows && row.userId == userId && TurnOf(row) == t
    ensures forall row :: row in rows && row.userId == userId ==> TurnOf(row) in UserHistory(rows, userId)
  {
    if rows != [] {
      UserHistoryMembers(rows[1..], userId);
      assert forall row :: row in rows[1..] ==> row in rows;
      assert forall row :: row in rows ==> row == rows[0] || row in rows[1..];
    }
  }

  /** A user's history is empty exactly when no row belongs to that user, so a
      user never seen before gets the empty history. */
  lemma UserHistoryEmpty(rows: seq<Row>, userId: int)
    ensures UserHistory(rows, userId) == [] <==> forall row :: row in rows ==> row.userId != userId
  {
    UserHistoryMembers(rows, userId);
    if UserHistory(rows, userId) != [] {
      assert UserHistory(rows, userId)[0] in UserHistory(rows, userId);
    }
  }

  /** The query distributes over a table split in two: the older rows' turns come
      first, the newer rows' turns after them. */
  lemma {:induction false} UserHistoryConcat(older: seq<Row>, newer: seq<Row>, userId: int)
    ensures UserHistory(older + newer, userId) == UserHistory(older, userId) + UserHistory(newer, userId)
  {
    if older != [] {
      assert (older + newer)[1..] == older[1..] + newer;
      UserHistoryConcat(older[1..], newer, userId);
    } else {
      assert older + newer == newer;
    }
  }

  /** Appending a row of the user's adds their pair at the end of their history. */
  lemma UserHistoryAppendOwn(rows: seq<Row>, row: Row)
    ensures UserHistory(rows + [row], row.userId) == UserHistory(rows, row.userId) + [TurnOf(row)]
  {
    UserHistoryConcat(rows, [row], row.userId);
  }

  /** Appending a row of one user leaves every other user's history as it was. */
  lemma UserHistoryAppendOther(rows: seq<Row>, row: Row, userId: int)
    requires userId != row.userId
    ensures UserHistory(rows + [row], userId) == UserHistory(rows, userId)
  {
    UserHistoryConcat(rows, [row], userId);
  }

  /** The `messages` table of one database file. */
  class MessageTable {
    /** Whether `CREATE TABLE` has run against this file. */
    var tableExists: bool
    /** The table's rows in insertion order. */
    var rows: seq<Row>
    /** The largest id AUTOINCREMENT has handed out (SQLite's `sqlite_sequence`). */
    var lastId: nat

    ghost predicate Valid()
      reads this
    {
      (!tableExists ==> rows == [] && lastId == 0)
      && IdsIncreasing(rows)
      && (forall i :: 0 <= i < |rows| ==> 1 <= rows[i].id <= lastId)
    }

    /** A database file without the table yet. */
    constructor ()
      ensures Valid() && !tableExists && rows == [] && lastId == 0
    {
      tableExists := false;
      rows := [];
      lastId := 0;
    }

    /** `init_db`: `CREATE TABLE IF NOT EXISTS`. Afterwards the table exists, and
        its rows and id counter are what they were, so running it on an existing
        table, or twice, changes nothing. */
    method InitDb()
      requires Valid()
      modifies this
      ensures Valid() && tableExists
      ensures rows == old(rows) && lastId == old(lastId)
    {
      tableExists := true;
    }

    /** `get_user_history`: the user's `(message, response)` pairs, one per row of
        theirs and in insertion order. Every row of the user contributes its
        pair, and a user without rows gets nothing. */
    function GetUserHistory(userId: int): (h: seq<Turn>)
      reads this
      requires tableExists
      ensures h == UserHistory(rows, userId)
      ensures forall row :: row in rows && row.userId == userId ==> TurnOf(row) in h
      ensures h == [] <==> forall row :: row in rows ==> row.userId != userId
    {
      UserHistoryMembers(rows, userId);
      UserHistoryEmpty(rows, userId);
      UserHistory(rows, userId)
    }

    /** `save_message`: `INSERT` one row. The new row holds the given user,
        message and response under an id above every earlier one; the rows
        before it are untouched; the user's history ends with the new pair and
        every other user's history is unchanged. */
    method SaveMessage(userId: int, message: string, response: string)
      requires Valid() && tableExists
      modifies this
      ensures Valid() && tableExists
      ensures lastId == old(lastId) + 1
      ensures rows == old(rows) + [Row(lastId, userId, message, response)]
      ensures forall i :: 0 <= i < |old(rows)| ==> old(rows)[i].id < lastId
      ensures UserHistory(rows, userId) == UserHistory(old(rows), userId) + [Turn(message, response)]
      ensures forall other :: other != userId ==> UserHistory(rows, other) == UserHistory(old(rows), other)
    {
      var row := Row(lastId + 1, userId, message, response);
      UserHistoryAppendOwn(rows, row);
      forall other | other != userId
        ensures UserHistory(rows + [row], other) == UserHistory(rows, other)
      {
        UserHistoryAppendOther(rows, row, other);
      }
      lastId := lastId + 1;
      rows := rows + [row];
    }
  }
}
