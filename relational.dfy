/**
 * The relational store behind the repositories: one table per entity kind,
 * each a map from primary key `id` to a row of column values, and the one
 * statement the appliers send, MySQL's `INSERT ... ON DUPLICATE KEY UPDATE`.
 */
module Relational {
  import opened Values

  /** A row: column name to value; a column that is absent holds its default. */
  type Row = map<string, Json>

  /** A table keyed by its `id` column. */
  type Table = map<Json, Row>

  /** Every row sits under the key its own `id` column holds. */
  predicate Keyed(t: Table)
  {
    forall k | k in t :: "id" in t[k] && t[k]["id"] == k
  }

  /** `{key: value for key, value in raw.items() if key in columns}`. */
  function Project(raw: Record, columns: set<string>): (r: Row)
    ensures r.Keys == raw.Keys * columns
    ensures forall c | c in r :: r[c] == raw[c]
  {
    map c | c in raw.Keys * columns :: raw[c]
  }

  /** `{key: value for key, value in insert.items() if key != "id"}`. */
  function UpdateSet(insert: Row): (u: Row)
    ensures u.Keys == insert.Keys - {"id"}
    ensures forall c | c in u :: u[c] == insert[c]
  {
    map c | c in insert.Keys - {"id"} :: insert[c]
  }

  /**
   * `INSERT ... ON DUPLICATE KEY UPDATE` keyed by `id`: a new key gets the
   * inserted row; an existing row gets the update columns overwritten and
   * keeps all its other columns. No other row is touched.
   */
  function InsertOrUpdate(t: Table, insert: Row, update: Row): (r: Table)
    requires "id" in insert
    ensures r.Keys == t.Keys + {insert["id"]}
    ensures forall k | k in t && k != insert["id"] :: r[k] == t[k]
    ensures insert["id"] !in t ==> r[insert["id"]] == insert
    ensures insert["id"] in t ==>
              && r[insert["id"]].Keys == t[insert["id"]].Keys + update.Keys
              && (forall c | c in update :: r[insert["id"]][c] == update[c])
              && (forall c | c in t[insert["id"]] && c !in update :: r[insert["id"]][c] == t[insert["id"]][c])
  {
    var id := insert["id"];
    if id in t then t[id := t[id] + update] else t[id := insert]
  }

  /** With the update set taken from the insert set, the statement is idempotent. */
  lemma InsertOrUpdateIdempotent(t: Table, insert: Row)
    requires "id" in insert
    ensures var once := InsertOrUpdate(t, insert, UpdateSet(insert));
            InsertOrUpdate(once, insert, UpdateSet(insert)) == once
  {
    var u := UpdateSet(insert);
    var id := insert["id"];
    var once := InsertOrUpdate(t, insert, u);
    if id in t {
      assert once[id] + u == once[id];
    } else {
      assert insert + u == insert;
    }
    assert once[id := once[id] + u] == once;
  }

  /** The statement keeps every row under its own key, for an update set without `id`. */
  lemma InsertOrUpdateKeepsKeyed(t: Table, insert: Row, update: Row)
    requires Keyed(t) && "id" in insert && "id" !in update
    ensures Keyed(InsertOrUpdate(t, insert, update))
  {
  }

  /**
   * After the statement, every column of the insert set holds the inserted
   * value, whether the row was new or not.
   */
  lemma InsertOrUpdateStoresInsert(t: Table, insert: Row)
    requires Keyed(t) && "id" in insert
    ensures var r := InsertOrUpdate(t, insert, UpdateSet(insert));
            forall c | c in insert :: c in r[insert["id"]] && r[insert["id"]][c] == insert[c]
  {
  }

  /**
   * An applier's `try` block: build the statement and execute it; every error
   * is caught and logged. SQLAlchemy refuses an empty update set with a
   * `ValueError` while building the statement, so such a statement never
   * reaches the database; a failing database leaves the table as it was.
   */
  function AbsorbedUpsert(t: Table, insert: Row, update: Row, available: bool): (r: Table)
    requires "id" in insert
    ensures update == map[] || !available ==> r == t
    ensures update != map[] && available ==> r == InsertOrUpdate(t, insert, update)
  {
    if update == map[] || !available then t else InsertOrUpdate(t, insert, update)
  }

  datatype TableName = Shows | Seasons | Episodes

  /** A database session over the three tables the appliers write. */
  class Session {
    /** Tables on which every statement fails with a database error. */
    const unavailable: set<TableName>
    var shows: Table
    var seasons: Table
    var episodes: Table
    var closed: bool

    predicate Valid()
      reads this
    {
      Keyed(shows) && Keyed(seasons) && Keyed(episodes)
    }

    constructor (unavailable: set<TableName>, shows: Table, seasons: Table, episodes: Table)
      requires Keyed(shows) && Keyed(seasons) && Keyed(episodes)
      ensures this.unavailable == unavailable
      ensures this.shows == shows && this.seasons == seasons && this.episodes == episodes
      ensures !closed && Valid()
    {
      this.unavailable := unavailable;
      this.shows := shows;
      this.seasons := seasons;
      this.episodes := episodes;
      closed := false;
    }

    function Rows(name: TableName): Table
      reads this
    {
      match name
      case Shows => shows
      case Seasons => seasons
      case Episodes => episodes
    }

    /** `db.execute(insert(...).values(insert).on_duplicate_key_update(update))`. */
    method Execute(name: TableName, insert: Row, update: Row) returns (out: Outcome)
      requires "id" in insert && Valid()
      modifies this`shows, this`seasons, this`episodes
      ensures "id" !in update ==> Valid()
      ensures out == (if name in unavailable then Raised(DatabaseError) else Completed)
      ensures Rows(name) == (if out == Completed then InsertOrUpdate(old(Rows(name)), insert, update) else old(Rows(name)))
      ensures name != Shows ==> shows == old(shows)
      ensures name != Seasons ==> seasons == old(seasons)
      ensures name != Episodes ==> episodes == old(episodes)
    {
      if name in unavailable {
        return Raised(DatabaseError);
      }
      if "id" !in update {
        InsertOrUpdateKeepsKeyed(Rows(name), insert, update);
      }
      match name {
        case Shows => shows := InsertOrUpdate(shows, insert, update);
        case Seasons => seasons := InsertOrUpdate(seasons, insert, update);
        case Episodes => episodes := InsertOrUpdate(episodes, insert, update);
      }
      out := Completed;
    }

    /** `db.execute(select(T.id))`: the primary keys of a table, each once. */
    method SelectIds(name: TableName) returns (r: Result<seq<Json>>)
      ensures name in unavailable <==> r.Failed?
      ensures r.Failed? ==> r.error == DatabaseError
      ensures r.Ok? ==> (forall k :: k in Rows(name) <==> k in r.value)
      ensures r.Ok? ==> forall i, j | 0 <= i < j < |r.value| :: r.value[i] != r.value[j]
    {
      if name in unavailable {
        return Failed(DatabaseError);
      }
      var ids := Enumerate(Rows(name).Keys);
      r := Ok(ids);
    }

    method Close()
      modifies this`closed
      ensures closed
    {
      closed := true;
    }
  }

  /** The `try`/`except` around an applier's statement, on the live session. */
  method ExecuteUpsert(db: Session, name: TableName, insert: Row, update: Row)
    requires "id" in insert && db.Valid()
    modifies db`shows, db`seasons, db`episodes
    ensures "id" !in update ==> db.Valid()
    ensures db.Rows(name) == AbsorbedUpsert(old(db.Rows(name)), insert, update, name !in db.unavailable)
    ensures name != Shows ==> db.shows == old(db.shows)
    ensures name != Seasons ==> db.seasons == old(db.seasons)
    ensures name != Episodes ==> db.episodes == old(db.episodes)
  {
    if update == map[] {
      return;  // on_duplicate_key_update raises ValueError, caught by the applier
    }
    var _ := db.Execute(name, insert, update);  // SQLAlchemyError is caught and logged
  }
}
