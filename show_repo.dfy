/**
 * The show applier: one raw show record from the catalog becomes one
 * insert-or-update of the show table, keyed by the record's own `id`.
 */
module ShowRepo {
  import opened Values
  import opened Relational

  /** The insert set of a show: its schema columns, with `id` forced. */
  function ShowInsert(show: Record, columns: set<string>, id: Json): (r: Row)
    ensures "id" in r && r["id"] == id
    ensures r.Keys == show.Keys * columns + {"id"}
    ensures forall c | c in r && c != "id" :: c in columns && r[c] == show[c]
  {
    Project(show, columns)["id" := id]
  }

  /** The write of a show with an id touches its own row only, and only schema columns and `id`. */
  lemma ShowWriteFrame(t: Table, show: Record, columns: set<string>, id: Json, available: bool)
    requires "id" in show && show["id"] == id
    ensures var insert := ShowInsert(show, columns, id);
            var r := AbsorbedUpsert(t, insert, UpdateSet(insert), available);
            && (!available || show.Keys * columns <= {"id"} ==> r == t)
            && (forall k | k in r :: k in t || k == id)
            && (forall k | k in t && k != id :: k in r && r[k] == t[k])
            && (Keyed(t) ==> Keyed(r))
            && (forall k, c | k in r && c in r[k] && !(k in t && c in t[k] && t[k][c] == r[k][c]) :: c in columns || c == "id")
  {
    var insert := ShowInsert(show, columns, id);
    if show.Keys * columns <= {"id"} {
      assert UpdateSet(insert).Keys == {};
    }
  }

  /** The row a show with an id writes: its schema columns, older columns kept. */
  lemma ShowWriteRow(t: Table, show: Record, columns: set<string>, id: Json, available: bool)
    requires "id" in show && show["id"] == id
    ensures var insert := ShowInsert(show, columns, id);
            var r := AbsorbedUpsert(t, insert, UpdateSet(insert), available);
            && (Keyed(t) && available && !(show.Keys * columns <= {"id"}) ==>
                  id in r && forall c | c in show.Keys * columns :: c in r[id] && r[id][c] == show[c])
            && (id in t ==> id in r && forall c | c in t[id] && c !in show :: c in r[id] && r[id][c] == t[id][c])
  {
    var insert := ShowInsert(show, columns, id);
    if !(show.Keys * columns <= {"id"}) {
      var c :| c in show.Keys * columns && c != "id";
      assert c in UpdateSet(insert);
    }
  }

  /** What `upsert_show` leaves in the show table. */
  function ShowEffect(t: Table, show: Record, columns: set<string>, available: bool): (r: Table)
    // a missing or falsy id (None, 0, "") writes nothing
    ensures !Truthy(Get(show, "id")) ==> r == t
    // a failing database writes nothing, and the error does not escape
    ensures !available ==> r == t
    // no schema column besides id: the empty update set is refused, nothing is written
    ensures show.Keys * columns <= {"id"} ==> r == t
    // only the row under the show's id can change
    ensures forall k | k in r :: k in t || k == Get(show, "id")
    ensures forall k | k in t && k != Get(show, "id") :: k in r && r[k] == t[k]
    ensures Keyed(t) ==> Keyed(r)
    // every column written is a schema column or id: unknown upstream keys are dropped
    ensures forall k, c | k in r && c in r[k] && !(k in t && c in t[k] && t[k][c] == r[k][c]) ::
              c in columns || c == "id"
    // once written, the row holds the show's value in every schema column it carries ...
    ensures Keyed(t) && Truthy(Get(show, "id")) && available && !(show.Keys * columns <= {"id"}) ==>
              var id := show["id"];
              id in r && forall c | c in show.Keys * columns :: c in r[id] && r[id][c] == show[c]
    // ... and columns the payload leaves out keep their old values
    ensures Truthy(Get(show, "id")) && show["id"] in t ==>
              show["id"] in r &&
              forall c | c in t[show["id"]] && c !in show :: c in r[show["id"]] && r[show["id"]][c] == t[show["id"]][c]
  {
    var id := Get(show, "id");
    if !Truthy(id) then t
    else
      var insert := ShowInsert(show, columns, id);
      ShowWriteFrame(t, show, columns, id, available);
      ShowWriteRow(t, show, columns, id, available);
      AbsorbedUpsert(t, insert, UpdateSet(insert), available)
  }

  /** Applying the same show twice leaves the table as applying it once. */
  lemma ShowEffectIdempotent(t: Table, show: Record, columns: set<string>, available: bool)
    ensures ShowEffect(ShowEffect(t, show, columns, available), show, columns, available)
            == ShowEffect(t, show, columns, available)
  {
    var id := Get(show, "id");
    if Truthy(id) {
      var insert := ShowInsert(show, columns, id);
      if UpdateSet(insert) != map[] && available {
        InsertOrUpdateIdempotent(t, insert);
      }
    }
  }

  /** `ShowRepository.upsert_show`: never raises. */
  method UpsertShow(show: Record, db: Session, columns: set<string>)
    requires db.Valid()
    modifies db`shows, db`seasons, db`episodes
    ensures db.Valid()
    ensures db.shows == ShowEffect(old(db.shows), show, columns, Shows !in db.unavailable)
    ensures db.seasons == old(db.seasons) && db.episodes == old(db.episodes)
  {
    var id := Get(show, "id");
    if !Truthy(id) {
      return;  // "Show must have a show_id"
    }
    var insert := Project(show, columns);
    insert := insert["id" := id];
    var update := UpdateSet(insert);
    assert insert == ShowInsert(show, columns, id);
    ExecuteUpsert(db, Shows, insert, update);
  }

  /** `ShowRepository.get_all_show_ids`: every show id once, or `None` on any error. */
  method GetAllShowIds(db: Session) returns (ids: Option<seq<Json>>)
    ensures ids.None? <==> Shows in db.unavailable
    ensures ids.Some? ==> forall k :: k in db.shows <==> k in ids.value
    ensures ids.Some? ==> forall i, j | 0 <= i < j < |ids.value| :: ids.value[i] != ids.value[j]
  {
    var result := db.SelectIds(Shows);
    match result {
      case Ok(rows) => ids := Some(rows);
      case Failed(_) => ids := None;
    }
  }
}
