/**
 * The shape the season and the episode appliers share: an envelope
 * `{show_id, <kind>: record}` becomes one insert-or-update of the child table,
 * keyed by the record's own `id`, with `show_id` taken from the envelope.
 */
module ChildRepo {
  import opened Values
  import opened Relational

  /** What an applier leaves in its table, and whether it raised. */
  datatype Applied = Applied(table: Table, outcome: Outcome)

  /** The child record of an envelope, when it is an object (`{}` otherwise). */
  function Child(envelope: Record, kind: string): Record
  {
    var data := Get(envelope, kind);
    if data.JObj? then data.fields else map[]
  }

  /** The insert set of a child: its schema columns, with `id` and `show_id` forced. */
  function ChildInsert(data: Record, columns: set<string>, id: Json, showId: Json): (r: Row)
    ensures "id" in r && r["id"] == id
    ensures "show_id" in r && r["show_id"] == showId
    ensures r.Keys == data.Keys * columns + {"id", "show_id"}
    ensures forall c | c in r && c != "id" && c != "show_id" :: c in columns && r[c] == data[c]
  {
    Project(data, columns)["id" := id]["show_id" := showId]
  }

  /** The envelope and its record carry everything the applier needs to write. */
  predicate Writable(envelope: Record, kind: string)
  {
    Truthy(Get(envelope, "show_id")) && Get(envelope, kind).JObj? && Truthy(Get(envelope, kind))
    && Truthy(Get(Child(envelope, kind), "id"))
  }

  /** The write a truthy-id record makes touches its own row only, and only schema columns, `id` and `show_id`. */
  lemma ChildWriteFrame(t: Table, data: Record, columns: set<string>, id: Json, showId: Json, available: bool)
    requires "id" in data && data["id"] == id
    ensures var insert := ChildInsert(data, columns, id, showId);
            var r := AbsorbedUpsert(t, insert, UpdateSet(insert), available);
            && (!available ==> r == t)
            && (forall k | k in r :: k in t || k == id)
            && (forall k | k in t && k != id :: k in r && r[k] == t[k])
            && (Keyed(t) ==> Keyed(r))
            && (forall k, c | k in r && c in r[k] && !(k in t && c in t[k] && t[k][c] == r[k][c]) ::
                  c in columns || c == "id" || c == "show_id")
  {
    var insert := ChildInsert(data, columns, id, showId);
    assert "show_id" in UpdateSet(insert);
  }

  /** The row a truthy-id record writes: `id` and `show_id` forced, its schema columns, older columns kept. */
  lemma ChildWriteRow(t: Table, data: Record, columns: set<string>, id: Json, showId: Json, available: bool)
    requires "id" in data && data["id"] == id
    ensures var insert := ChildInsert(data, columns, id, showId);
            var r := AbsorbedUpsert(t, insert, UpdateSet(insert), available);
            && (Keyed(t) && available ==>
                  && id in r
                  && "id" in r[id] && r[id]["id"] == id
                  && "show_id" in r[id] && r[id]["show_id"] == showId
                  && forall c | c in data.Keys * columns && c != "show_id" :: c in r[id] && r[id][c] == data[c])
            && (id in t ==> id in r && forall c | c in t[id] && c !in data && c != "show_id" :: c in r[id] && r[id][c] == t[id][c])
  {
    var insert := ChildInsert(data, columns, id, showId);
    assert "show_id" in UpdateSet(insert);
  }

  /** What `upsert_season` (kind "season") or `upsert_episode` (kind "episode") does to its table. */
  function ChildEffect(t: Table, envelope: Record, kind: string, columns: set<string>, available: bool): (r: Applied)
    requires kind != "show_id"
    // a falsy show_id or a falsy record writes nothing
    ensures !Truthy(Get(envelope, "show_id")) || !Truthy(Get(envelope, kind)) ==> r == Applied(t, Completed)
    // a truthy record that is not an object has no `.get`: AttributeError escapes, nothing is written
    ensures r.outcome != Completed <==>
              Truthy(Get(envelope, "show_id")) && Truthy(Get(envelope, kind)) && !Get(envelope, kind).JObj?
    ensures r.outcome != Completed ==> r == Applied(t, Raised(AttributeError))
    // a record without a truthy id, or a failing database, writes nothing
    ensures !Writable(envelope, kind) || !available ==> r.table == t
    // only the row under the record's id can change
    ensures forall k | k in r.table :: k in t || k == Get(Child(envelope, kind), "id")
    ensures forall k | k in t && k != Get(Child(envelope, kind), "id") :: k in r.table && r.table[k] == t[k]
    ensures Keyed(t) ==> Keyed(r.table)
    // every column written is a schema column, id or show_id
    ensures forall k, c | k in r.table && c in r.table[k] && !(k in t && c in t[k] && t[k][c] == r.table[k][c]) ::
              c in columns || c == "id" || c == "show_id"
    // once written, the row belongs to the envelope's show, whatever show_id the record itself carries ...
    ensures Keyed(t) && Writable(envelope, kind) && available ==>
              var id := Child(envelope, kind)["id"];
              && id in r.table
              && "id" in r.table[id] && r.table[id]["id"] == id
              && "show_id" in r.table[id] && r.table[id]["show_id"] == envelope["show_id"]
              && forall c | c in Child(envelope, kind).Keys * columns && c != "show_id" ::
                   c in r.table[id] && r.table[id][c] == Child(envelope, kind)[c]
    // ... and columns the record leaves out keep their old values
    ensures Writable(envelope, kind) && Child(envelope, kind)["id"] in t ==>
              var id := Child(envelope, kind)["id"];
              id in r.table &&
              forall c | c in t[id] && c !in Child(envelope, kind) && c != "show_id" :: c in r.table[id] && r.table[id][c] == t[id][c]
  {
    var showId := Get(envelope, "show_id");
    var data := Get(envelope, kind);
    if !Truthy(showId) || !Truthy(data) then Applied(t, Completed)
    else if !data.JObj? then Applied(t, Raised(AttributeError))
    else
      var id := Get(data.fields, "id");
      if !Truthy(id) then Applied(t, Completed)
      else
        var insert := ChildInsert(data.fields, columns, id, showId);
        ChildWriteFrame(t, data.fields, columns, id, showId, available);
        ChildWriteRow(t, data.fields, columns, id, showId, available);
        Applied(AbsorbedUpsert(t, insert, UpdateSet(insert), available), Completed)
  }

  /** Applying the same envelope twice leaves the table as applying it once. */
  lemma ChildEffectIdempotent(t: Table, envelope: Record, kind: string, columns: set<string>, available: bool)
    requires kind != "show_id"
    ensures var once := ChildEffect(t, envelope, kind, columns, available);
            ChildEffect(once.table, envelope, kind, columns, available) == once
  {
    if Writable(envelope, kind) && available {
      var insert := ChildInsert(Child(envelope, kind), columns, Child(envelope, kind)["id"], envelope["show_id"]);
      InsertOrUpdateIdempotent(t, insert);
    }
  }

  /** The applier's method, shared by both kinds, on the live session. */
  method UpsertChild(envelope: Record, kind: string, db: Session, name: TableName, columns: set<string>)
      returns (out: Outcome)
    requires kind != "show_id"
    requires db.Valid()
    modifies db`shows, db`seasons, db`episodes
    ensures db.Valid()
    ensures Applied(db.Rows(name), out) == ChildEffect(old(db.Rows(name)), envelope, kind, columns, name !in db.unavailable)
    ensures name != Shows ==> db.shows == old(db.shows)
    ensures name != Seasons ==> db.seasons == old(db.seasons)
    ensures name != Episodes ==> db.episodes == old(db.episodes)
  {
    var showId := Get(envelope, "show_id");
    var data := Get(envelope, kind);
    if !Truthy(showId) || !Truthy(data) {
      return Completed;  // "must have a show_id and <kind>"
    }
    if !data.JObj? {
      return Raised(AttributeError);  // `.get` on a value that is not a dict
    }
    var id := Get(data.fields, "id");
    if !Truthy(id) {
      return Completed;  // "must have an id"
    }
    var insert := Project(data.fields, columns);
    insert := insert["id" := id];
    insert := insert["show_id" := showId];
    assert insert == ChildInsert(data.fields, columns, id, showId);
    var update := UpdateSet(insert);
    ExecuteUpsert(db, name, insert, update);
    out := Completed;
  }
}
