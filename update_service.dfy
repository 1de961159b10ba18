/**
 * The update path: stage the catalog's list of recently changed shows,
 * queue each changed show for re-fetching while recording it in the
 * update-tracking table, re-fetch one show for upsert, and drain the
 * tracking table into the season-and-episode queue.
 */
module UpdateService {
  import opened Values
  import opened Storage
  import opened Staging
  import opened Upstream
  import Config

  // ---------------------------------------------------------------------
  // The list of updated shows

  /** `f"updates_{since}.json"`. */
  function UpdatesBlobName(since: string): string
  {
    "updates_" + since + ".json"
  }

  /** Each period has its own blob: staging one period never overwrites another's list. */
  lemma UpdatesBlobNameInjective(a: string, b: string)
    ensures UpdatesBlobName(a) == UpdatesBlobName(b) ==> a == b
  {
    if UpdatesBlobName(a) == UpdatesBlobName(b) {
      var n, p := UpdatesBlobName(a), "updates_";
      assert |a| == |b|;
      assert n[|p|..|p| + |a|] == a;
      assert UpdatesBlobName(b)[|p|..|p| + |b|] == b;
    }
  }

  /**
   * `UpdateService.get_updates`: a failing catalog call is caught and logged
   * (nothing is staged and nothing is raised); a non-empty answer is staged
   * whole, and a failing upload raises.
   */
  function StageUpdateList(blobs: map<BlobKey, Stored>, rejected: set<BlobKey>, api: TvMaze, since: string): (r: BlobRun)
    ensures api.updates(since).ClientError? ==> r == BlobRun(blobs, Completed)
    ensures api.updates(since).Got? && !Truthy(api.updates(since).value) ==> r == BlobRun(blobs, Completed)
    ensures api.updates(since).Got? && Truthy(api.updates(since).value) ==>
              && (r.outcome == Completed <==> (Config.UpdatesContainer, UpdatesBlobName(since)) !in rejected)
              && (r.outcome == Completed ==>
                    r.blobs == blobs[(Config.UpdatesContainer, UpdatesBlobName(since)) := BlobPayload(api.updates(since).value)])
    ensures r.outcome != Completed ==> r.blobs == blobs
  {
    match api.updates(since)
    case ClientError => BlobRun(blobs, Completed)
    case Got(updates) =>
      if Truthy(updates) then PutBlob(blobs, rejected, Config.UpdatesContainer, UpdatesBlobName(since), updates, true)
      else BlobRun(blobs, Completed)
  }

  method GetUpdates(since: string, api: TvMaze, storage: StorageService) returns (out: Outcome)
    modifies storage`blobs
    ensures BlobRun(storage.blobs, out) == StageUpdateList(old(storage.blobs), storage.faults.blobs, api, since)
  {
    var fetched := api.updates(since);
    if fetched.ClientError? {
      return Completed;  // "Error getting updates from TV Maze"
    }
    out := Completed;
    if Truthy(fetched.value) {
      out := storage.UploadBlobData(Config.UpdatesContainer, UpdatesBlobName(since), fetched.value);
    }
  }

  // ---------------------------------------------------------------------
  // Queueing show ids

  /** The messages `{'show_id': int(k)}` for the keys `int()` accepts, in order. */
  function ShowIdMessages(keys: seq<Json>): seq<Stored>
    decreases |keys|
  {
    if keys == [] then []
    else
      (match PyInt(keys[0]) case Ok(n) => [JsonText(ShowIdMessage(JInt(n)))] case Failed(_) => [])
      + ShowIdMessages(keys[1..])
  }

  predicate AllInts(keys: seq<Json>)
  {
    forall i | 0 <= i < |keys| :: PyInt(keys[i]).Ok?
  }

  /** The conversions and messages of a list of keys: the first key's, then the rest's. */
  lemma AllIntsCons(keys: seq<Json>)
    requires keys != []
    ensures AllInts(keys) <==> PyInt(keys[0]).Ok? && AllInts(keys[1..])
    ensures PyInt(keys[0]).Ok? ==>
              ShowIdMessages(keys) == [JsonText(ShowIdMessage(JInt(PyInt(keys[0]).value)))] + ShowIdMessages(keys[1..])
  {
    if PyInt(keys[0]).Ok? && AllInts(keys[1..]) {
      forall i | 1 <= i < |keys| ensures PyInt(keys[i]).Ok? {
        assert keys[1..][i - 1] == keys[i];
      }
    }
  }

  /** When every key converts, there is one message per key, carrying that key's number. */
  lemma {:induction false} ShowIdMessagesOnePerKey(keys: seq<Json>)
    requires AllInts(keys)
    ensures |ShowIdMessages(keys)| == |keys|
    ensures forall i | 0 <= i < |keys| :: ShowIdMessages(keys)[i] == JsonText(ShowIdMessage(JInt(PyInt(keys[i]).value)))
    decreases |keys|
  {
    if keys != [] {
      ShowIdMessagesOnePerKey(keys[1..]);
      var head := [JsonText(ShowIdMessage(JInt(PyInt(keys[0]).value)))];
      assert ShowIdMessages(keys) == head + ShowIdMessages(keys[1..]);
      forall i | 1 <= i < |keys| ensures ShowIdMessages(keys)[i] == JsonText(ShowIdMessage(JInt(PyInt(keys[i]).value))) {
        assert keys[1..][i - 1] == keys[i];
      }
    }
  }

  // ---------------------------------------------------------------------
  // Recording updates

  /** The tracking entity `{PartitionKey: "show", RowKey: str(show_id), LastUpdated: last_updated}`. */
  function UpdateEntity(showId: string, lastUpdated: Json): (e: Entity)
    ensures HasKeys(e) && KeyOf(e) == (JStr("show"), JStr(showId))
    ensures "LastUpdated" in e && e["LastUpdated"] == lastUpdated
  {
    map["PartitionKey" := JStr("show"), "RowKey" := JStr(showId), "LastUpdated" := lastUpdated]
  }

  function Keys(updates: seq<(string, Json)>): (ks: seq<Json>)
    ensures |ks| == |updates|
    ensures forall i | 0 <= i < |updates| :: ks[i] == JStr(updates[i].0)
  {
    seq(|updates|, i requires 0 <= i < |updates| => JStr(updates[i].0))
  }

  datatype TrackRun = TrackRun(queues: Queues, tables: Tables, outcome: Outcome)

  /**
   * One show of `stage_updates_for_upsert`: `int(show_id)`, the send of its
   * re-fetch message, then the upsert of its tracking entity; the first
   * failure ends the step, after what came before it took effect.
   */
  function TrackOne(queues: Queues, tables: Tables, faults: Faults, showId: string, lastUpdated: Json): (r: TrackRun)
    ensures TablesWellKeyed(tables) ==> TablesWellKeyed(r.tables)
    ensures forall q | q != Config.ShowsUpdateQueue :: Messages(r.queues, q) == Messages(queues, q)
    ensures forall name | name in tables && name != Config.SeasonsEpisodesUpdateTable ::
              name in r.tables && r.tables[name] == tables[name]
    ensures r.outcome == Completed ==>
              && PyInt(JStr(showId)).Ok?
              && Messages(r.queues, Config.ShowsUpdateQueue)
                 == Messages(queues, Config.ShowsUpdateQueue) + [JsonText(ShowIdMessage(JInt(PyInt(JStr(showId)).value)))]
              && TableOf(r.tables, Config.SeasonsEpisodesUpdateTable)
                 == TableOf(tables, Config.SeasonsEpisodesUpdateTable)[(JStr("show"), JStr(showId)) := UpdateEntity(showId, lastUpdated)]
  {
    match PyInt(JStr(showId))
    case Failed(e) => TrackRun(queues, tables, Raised(e))
    case Ok(n) =>
      var sent := SendMessage(queues, faults.messages, Config.ShowsUpdateQueue, ShowIdMessage(JInt(n)));
      if sent.outcome != Completed then TrackRun(queues, tables, sent.outcome)
      else
        var put := UpsertEntityRun(tables, faults, Config.SeasonsEpisodesUpdateTable, UpdateEntity(showId, lastUpdated));
        if put.outcome != Completed then TrackRun(sent.queues, tables, put.outcome)
        else TrackRun(sent.queues, put.tables, Completed)
  }

  /** The keys of a batch split as the batch does: the first show's, then the rest's. */
  lemma KeysCons(updates: seq<(string, Json)>)
    requires updates != []
    ensures var head, tail := JStr(updates[0].0), Keys(updates[1..]);
            && Keys(updates) == [head] + tail
            && (AllInts(Keys(updates)) <==> PyInt(head).Ok? && AllInts(tail))
            && (PyInt(head).Ok? ==> ShowIdMessages(Keys(updates)) == [JsonText(ShowIdMessage(JInt(PyInt(head).value)))] + ShowIdMessages(tail))
  {
    var ks := Keys(updates);
    assert ks == [JStr(updates[0].0)] + Keys(updates[1..]);
    assert ks[1..] == Keys(updates[1..]);
    AllIntsCons(ks);
  }

  /**
   * `UpdateService.stage_updates_for_upsert`, over the items of the updates
   * dict in order, one `TrackOne` step per show. Nothing is caught: the
   * first failure ends the run and is raised, after the earlier shows were
   * queued and recorded.
   */
  function TrackUpdates(queues: Queues, tables: Tables, faults: Faults, updates: seq<(string, Json)>): (r: TrackRun)
    ensures forall q | q != Config.ShowsUpdateQueue :: Messages(r.queues, q) == Messages(queues, q)
    ensures forall name | name in tables && name != Config.SeasonsEpisodesUpdateTable ::
              name in r.tables && r.tables[name] == tables[name]
    ensures r.outcome == Completed ==>
              AllInts(Keys(updates))
              && Messages(r.queues, Config.ShowsUpdateQueue) == Messages(queues, Config.ShowsUpdateQueue) + ShowIdMessages(Keys(updates))
    decreases |updates|
  {
    if updates == [] then TrackRun(queues, tables, Completed)
    else
      var one := TrackOne(queues, tables, faults, updates[0].0, updates[0].1);
      if one.outcome != Completed then one
      else
        var rest := TrackUpdates(one.queues, one.tables, faults, updates[1..]);
        KeysCons(updates);
        rest
  }

  /** Tracking updates keeps every stored entity under its own key. */
  lemma {:induction false} TrackUpdatesKeepsWellKeyed(queues: Queues, tables: Tables, faults: Faults, updates: seq<(string, Json)>)
    requires TablesWellKeyed(tables)
    ensures TablesWellKeyed(TrackUpdates(queues, tables, faults, updates).tables)
    decreases |updates|
  {
    if updates != [] {
      var one := TrackOne(queues, tables, faults, updates[0].0, updates[0].1);
      if one.outcome == Completed {
        TrackUpdatesKeepsWellKeyed(one.queues, one.tables, faults, updates[1..]);
      }
    }
  }

  /** The services accept every send to the update queue and every write of these shows' tracking entities. */
  ghost predicate Accepts(faults: Faults, updates: seq<(string, Json)>)
  {
    && Config.SeasonsEpisodesUpdateTable !in faults.tables
    && (forall m :: (Config.ShowsUpdateQueue, m) !in faults.messages)
    && (forall i | 0 <= i < |updates| :: (JStr("show"), JStr(updates[i].0)) !in faults.entities)
  }

  predicate DistinctShows(updates: seq<(string, Json)>)
  {
    forall i, j | 0 <= i < j < |updates| :: updates[i].0 != updates[j].0
  }

  /** The tracking-table keys of the shows in a batch of updates. */
  function ShowKeys(updates: seq<(string, Json)>): (ks: set<EntityKey>)
    ensures forall i | 0 <= i < |updates| :: (JStr("show"), JStr(updates[i].0)) in ks
  {
    set i | 0 <= i < |updates| :: (JStr("show"), JStr(updates[i].0))
  }

  /** The tracking keys of a batch: the first show's and those of the rest. */
  lemma ShowKeysCons(updates: seq<(string, Json)>)
    requires updates != []
    ensures ShowKeys(updates) == {(JStr("show"), JStr(updates[0].0))} + ShowKeys(updates[1..])
  {
    var tail := updates[1..];
    forall k | k in ShowKeys(updates) ensures k in {(JStr("show"), JStr(updates[0].0))} + ShowKeys(tail) {
      var i :| 0 <= i < |updates| && k == (JStr("show"), JStr(updates[i].0));
      if i > 0 { assert tail[i - 1] == updates[i]; }
    }
    forall k | k in ShowKeys(tail) ensures k in ShowKeys(updates) {
      var i :| 0 <= i < |tail| && k == (JStr("show"), JStr(tail[i].0));
      assert tail[i] == updates[i + 1];
    }
  }

  /** What holds of a batch the services accept holds of its tail. */
  lemma AcceptsTail(faults: Faults, updates: seq<(string, Json)>)
    requires updates != [] && AllInts(Keys(updates)) && Accepts(faults, updates)
    ensures AllInts(Keys(updates[1..])) && Accepts(faults, updates[1..])
  {
    var tail := updates[1..];
    forall i | 0 <= i < |tail| ensures PyInt(Keys(tail)[i]).Ok? && (JStr("show"), JStr(tail[i].0)) !in faults.entities {
      assert tail[i] == updates[i + 1];
      assert Keys(updates)[i + 1] == Keys(tail)[i];
    }
  }

  /** The first show of a batch the services accept: queued, recorded, and the run goes on with the rest. */
  lemma TrackFirst(queues: Queues, tables: Tables, faults: Faults, updates: seq<(string, Json)>)
    returns (qs: Queues, ts: Tables)
    requires updates != [] && AllInts(Keys(updates)) && Accepts(faults, updates)
    ensures TrackUpdates(queues, tables, faults, updates) == TrackUpdates(qs, ts, faults, updates[1..])
    ensures TableOf(ts, Config.SeasonsEpisodesUpdateTable)
            == TableOf(tables, Config.SeasonsEpisodesUpdateTable)[(JStr("show"), JStr(updates[0].0)) := UpdateEntity(updates[0].0, updates[0].1)]
    ensures AllInts(Keys(updates[1..])) && Accepts(faults, updates[1..])
    ensures ShowKeys(updates) == {(JStr("show"), JStr(updates[0].0))} + ShowKeys(updates[1..])
  {
    assert Keys(updates)[0] == JStr(updates[0].0);
    var one := TrackOne(queues, tables, faults, updates[0].0, updates[0].1);
    qs, ts := one.queues, one.tables;
    AcceptsTail(faults, updates);
    ShowKeysCons(updates);
  }

  /** When every show id is a number and the services accept everything, the run completes. */
  lemma {:induction false} TrackUpdatesCompletes(queues: Queues, tables: Tables, faults: Faults, updates: seq<(string, Json)>)
    requires AllInts(Keys(updates)) && Accepts(faults, updates)
    ensures var r := TrackUpdates(queues, tables, faults, updates);
            && r.outcome == Completed
            && Messages(r.queues, Config.ShowsUpdateQueue) == Messages(queues, Config.ShowsUpdateQueue) + ShowIdMessages(Keys(updates))
    decreases |updates|
  {
    if updates != [] {
      var qs, ts := TrackFirst(queues, tables, faults, updates);
      TrackUpdatesCompletes(qs, ts, faults, updates[1..]);
    }
  }

  /**
   * When the services accept everything, every show's tracking entity holds
   * its latest update time, replacing whatever was tracked before, and the
   * entities of other shows stay as they were.
   */
  lemma {:induction false} TrackUpdatesRecordsEach(queues: Queues, tables: Tables, faults: Faults, updates: seq<(string, Json)>)
    requires AllInts(Keys(updates)) && DistinctShows(updates) && Accepts(faults, updates)
    ensures var t := TableOf(TrackUpdates(queues, tables, faults, updates).tables, Config.SeasonsEpisodesUpdateTable);
            && (forall i | 0 <= i < |updates| ::
                  (JStr("show"), JStr(updates[i].0)) in t && t[(JStr("show"), JStr(updates[i].0))] == UpdateEntity(updates[i].0, updates[i].1))
            && (forall k | k in TableOf(tables, Config.SeasonsEpisodesUpdateTable) && k !in ShowKeys(updates) ::
                  k in t && t[k] == TableOf(tables, Config.SeasonsEpisodesUpdateTable)[k])
    decreases |updates|
  {
    if updates != [] {
      var T := Config.SeasonsEpisodesUpdateTable;
      var qs, ts := TrackFirst(queues, tables, faults, updates);
      var tail := updates[1..];
      assert DistinctShows(tail) by {
        forall i, j | 0 <= i < j < |tail| ensures tail[i].0 != tail[j].0 {
          assert tail[i] == updates[i + 1] && tail[j] == updates[j + 1];
        }
      }
      TrackUpdatesRecordsEach(qs, ts, faults, tail);
      var key0 := (JStr("show"), JStr(updates[0].0));
      assert key0 !in ShowKeys(tail) by {
        forall j | 0 <= j < |tail| ensures key0 != (JStr("show"), JStr(tail[j].0)) {
          assert tail[j] == updates[j + 1];
        }
      }
      forall i | 1 <= i < |updates| ensures updates[i] == tail[i - 1] { }
    }
  }

  /** `stage_updates_for_upsert` on the live storage service. */
  method StageUpdatesForUpsert(updates: seq<(string, Json)>, storage: StorageService) returns (out: Outcome)
    requires storage.Valid()
    modifies storage`queues, storage`tables
    ensures storage.Valid()
    ensures TrackRun(storage.queues, storage.tables, out) == TrackUpdates(old(storage.queues), old(storage.tables), storage.faults, updates)
  {
    var i := 0;
    while i < |updates|
      invariant 0 <= i <= |updates|
      invariant TrackUpdates(storage.queues, storage.tables, storage.faults, updates[i..])
                == TrackUpdates(old(storage.queues), old(storage.tables), storage.faults, updates)
      invariant storage.Valid()
    {
      assert updates[i..][1..] == updates[i + 1..];
      var (showId, lastUpdated) := updates[i];
      var n := PyInt(JStr(showId));
      if n.Failed? {
        return Raised(n.error);
      }
      out := storage.UploadQueueMessage(Config.ShowsUpdateQueue, ShowIdMessage(JInt(n.value)));
      if out != Completed {
        return;
      }
      out := storage.UpsertEntity(Config.SeasonsEpisodesUpdateTable, UpdateEntity(showId, lastUpdated));
      if out != Completed {
        return;
      }
      i := i + 1;
    }
    out := Completed;
  }

  // ---------------------------------------------------------------------
  // Re-fetching one show

  /** `UpdateService.get_show_update_details`: the show, without embeds, staged for upsert as `tv_show_{show_id}.json`. */
  method GetShowUpdateDetails(showId: Json, api: TvMaze, storage: StorageService) returns (out: Outcome)
    modifies storage`blobs
    ensures BlobRun(storage.blobs, out) == StageShowDetails(old(storage.blobs), storage.faults.blobs, api, showId, false, Config.ShowUpsertContainer)
  {
    out := FetchAndStage(api, storage, showId, false, Config.ShowUpsertContainer);
  }

  // ---------------------------------------------------------------------
  // Draining the tracking table

  /** `[entity['RowKey'] for entity in staged_shows]`, for entities that all have a row key. */
  function RowKeys(es: seq<Entity>): (ks: seq<Json>)
    requires forall i | 0 <= i < |es| :: "RowKey" in es[i]
    ensures |ks| == |es|
    ensures forall i | 0 <= i < |es| :: ks[i] == es[i]["RowKey"]
  {
    seq(|es|, i requires 0 <= i < |es| => es[i]["RowKey"])
  }

  /** One pass of the send loop: `int(show_id)` then the send. */
  function SendOneId(queues: Queues, rejected: set<(string, Stored)>, queueName: string, key: Json): (r: QueueRun)
    ensures forall q | q != queueName :: Messages(r.queues, q) == Messages(queues, q)
    ensures r.outcome == Completed ==>
              PyInt(key).Ok?
              && Messages(r.queues, queueName) == Messages(queues, queueName) + [JsonText(ShowIdMessage(JInt(PyInt(key).value)))]
  {
    match PyInt(key)
    case Failed(e) => QueueRun(queues, Raised(e))
    case Ok(n) => SendMessage(queues, rejected, queueName, ShowIdMessage(JInt(n)))
  }

  /** The first pass of the send loop, and the loop going on from there when it went through. */
  lemma SendShowIdsUnfold(queues: Queues, rejected: set<(string, Stored)>, queueName: string, keys: seq<Json>)
    requires keys != []
    ensures var sent := SendOneId(queues, rejected, queueName, keys[0]);
            && (PyInt(keys[0]).Failed? ==> sent == QueueRun(queues, Raised(PyInt(keys[0]).error)))
            && (PyInt(keys[0]).Ok? ==> sent == SendMessage(queues, rejected, queueName, ShowIdMessage(JInt(PyInt(keys[0]).value))))
            && SendShowIds(queues, rejected, queueName, keys)
               == if sent.outcome != Completed then sent else SendShowIds(sent.queues, rejected, queueName, keys[1..])
  {
  }

  /** The send loop, one `SendOneId` per key; the first failure ends it and is raised. */
  function SendShowIds(queues: Queues, rejected: set<(string, Stored)>, queueName: string, keys: seq<Json>): (r: QueueRun)
    ensures forall q | q != queueName :: Messages(r.queues, q) == Messages(queues, q)
    ensures r.outcome == Completed ==>
              AllInts(keys) && Messages(r.queues, queueName) == Messages(queues, queueName) + ShowIdMessages(keys)
    decreases |keys|
  {
    if keys == [] then QueueRun(queues, Completed)
    else
      var sent := SendOneId(queues, rejected, queueName, keys[0]);
      if sent.outcome != Completed then sent
      else
        var rest := SendShowIds(sent.queues, rejected, queueName, keys[1..]);
        AllIntsCons(keys);
        rest
  }

  /**
   * `UpdateService.update_seasons_episodes`, given the listing of the
   * tracking table: nothing staged ends quietly; otherwise every staged show
   * is queued for season-and-episode retrieval, and only when all sends went
   * through are the staged entities deleted in batches.
   */
  function Drain(queues: Queues, tables: Tables, faults: Faults, staged: seq<Entity>): (r: TrackRun)
    ensures staged == [] ==> r == TrackRun(queues, tables, Completed)
    ensures forall q | q != Config.SeasonsEpisodesQueue :: Messages(r.queues, q) == Messages(queues, q)
    // the table changes only after every staged show was queued
    ensures r.tables != tables ==>
              && (forall i | 0 <= i < |staged| :: "RowKey" in staged[i])
              && AllInts(RowKeys(staged))
              && Messages(r.queues, Config.SeasonsEpisodesQueue)
                 == Messages(queues, Config.SeasonsEpisodesQueue) + ShowIdMessages(RowKeys(staged))
  {
    if staged == [] then TrackRun(queues, tables, Completed)
    else if exists i | 0 <= i < |staged| :: "RowKey" !in staged[i] then TrackRun(queues, tables, Raised(KeyError))
    else
      var sent := SendShowIds(queues, faults.messages, Config.SeasonsEpisodesQueue, RowKeys(staged));
      if sent.outcome != Completed then TrackRun(sent.queues, tables, sent.outcome)
      else
        var deleted := DeleteBatches(tables, faults, Config.SeasonsEpisodesUpdateTable, staged);
        TrackRun(sent.queues, deleted.tables, deleted.outcome)
  }

  /** A listing of a well-keyed table names exactly the table's keys. */
  lemma ListingKeys(es: seq<Entity>, t: EntityTable)
    requires Lists(es, t) && WellKeyed(t)
    ensures AllKeyed(es) && KeySet(es) == t.Keys && DistinctKeys(es)
  {
    forall k | k in t ensures k in KeySet(es) {
      var i :| 0 <= i < |es| && es[i] == t[k];
      assert KeyOf(es[i]) == k;
    }
  }

  /**
   * When the services accept everything and every row key is a number,
   * draining queues one message per staged show, in listing order, and
   * leaves the tracking table empty.
   */
  lemma DrainEmptiesTable(queues: Queues, tables: Tables, faults: Faults, staged: seq<Entity>)
    requires TablesWellKeyed(tables) && Config.SeasonsEpisodesUpdateTable in tables
    requires Lists(staged, tables[Config.SeasonsEpisodesUpdateTable])
    requires Config.SeasonsEpisodesUpdateTable !in faults.tables
    requires forall m :: (Config.SeasonsEpisodesQueue, m) !in faults.messages
    requires forall i | 0 <= i < |staged| :: HasKeys(staged[i]) ==> KeyOf(staged[i]) !in faults.entities
    requires forall i | 0 <= i < |staged| :: "RowKey" in staged[i] ==> PyInt(staged[i]["RowKey"]).Ok?
    ensures var r := Drain(queues, tables, faults, staged);
            && r.outcome == Completed
            && |Messages(r.queues, Config.SeasonsEpisodesQueue)| == |Messages(queues, Config.SeasonsEpisodesQueue)| + |staged|
            && (forall i | 0 <= i < |staged| ::
                  Messages(r.queues, Config.SeasonsEpisodesQueue)[|Messages(queues, Config.SeasonsEpisodesQueue)| + i]
                  == JsonText(ShowIdMessage(JInt(PyInt(staged[i]["RowKey"]).value))))
            && r.tables == tables[Config.SeasonsEpisodesUpdateTable := map[]]
  {
    var T, Q := Config.SeasonsEpisodesUpdateTable, Config.SeasonsEpisodesQueue;
    ListingKeys(staged, tables[T]);
    if staged == [] {
      assert tables[T] == map[];
      assert tables[T := map[]] == tables;
    } else {
      var keys := DrainSendsAll(queues, tables, faults, staged);
      ShowIdMessagesOnePerKey(keys);
      assert Deletable(tables, faults, T, staged);
      DeleteBatchesDeletesAll(tables, faults, T, staged);
      assert tables[T] - KeySet(staged) == map[];
    }
  }

  /** When every row key converts and no send is rejected, all sends go through before the deletes. */
  lemma DrainSendsAll(queues: Queues, tables: Tables, faults: Faults, staged: seq<Entity>) returns (keys: seq<Json>)
    requires staged != [] && AllKeyed(staged)
    requires forall m :: (Config.SeasonsEpisodesQueue, m) !in faults.messages
    requires forall i | 0 <= i < |staged| :: "RowKey" in staged[i] ==> PyInt(staged[i]["RowKey"]).Ok?
    ensures |keys| == |staged| && keys == RowKeys(staged) && AllInts(keys)
    ensures var sent := SendShowIds(queues, faults.messages, Config.SeasonsEpisodesQueue, keys);
            var deleted := DeleteBatches(tables, faults, Config.SeasonsEpisodesUpdateTable, staged);
            && sent.outcome == Completed
            && Messages(sent.queues, Config.SeasonsEpisodesQueue)
               == Messages(queues, Config.SeasonsEpisodesQueue) + ShowIdMessages(keys)
            && Drain(queues, tables, faults, staged) == TrackRun(sent.queues, deleted.tables, deleted.outcome)
  {
    keys := RowKeys(staged);
    assert AllInts(keys);
    SendShowIdsAccepted(queues, faults.messages, Config.SeasonsEpisodesQueue, keys);
  }

  /** With every key a number and no send rejected, the send loop completes. */
  lemma {:induction false} SendShowIdsAccepted(queues: Queues, rejected: set<(string, Stored)>, queueName: string, keys: seq<Json>)
    requires queueName != "" && AllInts(keys) && forall m :: (queueName, m) !in rejected
    ensures SendShowIds(queues, rejected, queueName, keys).outcome == Completed
    decreases |keys|
  {
    if keys != [] {
      var sent := SendOneId(queues, rejected, queueName, keys[0]);
      assert sent.outcome == Completed;
      AllIntsCons(keys);
      SendShowIdsAccepted(sent.queues, rejected, queueName, keys[1..]);
    }
  }

  /** The send loop of `update_seasons_episodes` on the live storage service. */
  method QueueShowIds(keys: seq<Json>, storage: StorageService) returns (out: Outcome)
    modifies storage`queues
    ensures QueueRun(storage.queues, out)
            == SendShowIds(old(storage.queues), storage.faults.messages, Config.SeasonsEpisodesQueue, keys)
  {
    ghost var sent := SendShowIds(storage.queues, storage.faults.messages, Config.SeasonsEpisodesQueue, keys);
    var i := 0;
    while i < |keys|
      invariant 0 <= i <= |keys|
      invariant SendShowIds(storage.queues, storage.faults.messages, Config.SeasonsEpisodesQueue, keys[i..]) == sent
    {
      SendShowIdsUnfold(storage.queues, storage.faults.messages, Config.SeasonsEpisodesQueue, keys[i..]);
      assert keys[i..][0] == keys[i] && keys[i..][1..] == keys[i + 1..];
      var n := PyInt(keys[i]);
      if n.Failed? {
        return Raised(n.error);
      }
      out := storage.UploadQueueMessage(Config.SeasonsEpisodesQueue, ShowIdMessage(JInt(n.value)));
      if out != Completed {
        return;
      }
      i := i + 1;
    }
    assert keys[i..] == [];
    out := Completed;
  }

  /**
   * `UpdateService.update_seasons_episodes` on the live storage service: the
   * table is listed (a failed listing raises), then drained.
   */
  method UpdateSeasonsEpisodes(storage: StorageService) returns (out: Outcome)
    requires storage.Valid()
    modifies storage`queues, storage`tables
    ensures storage.Valid()
    ensures Config.SeasonsEpisodesUpdateTable in storage.faults.tables ==>
              out == Raised(ServiceError) && storage.queues == old(storage.queues) && storage.tables == old(storage.tables)
    ensures Config.SeasonsEpisodesUpdateTable !in storage.faults.tables ==>
              exists staged | Lists(staged, TableOf(old(storage.tables), Config.SeasonsEpisodesUpdateTable)) ::
                TrackRun(storage.queues, storage.tables, out) == Drain(old(storage.queues), old(storage.tables), storage.faults, staged)
  {
    var listed := storage.GetEntities(Config.SeasonsEpisodesUpdateTable);
    if listed.Failed? {
      return Raised(listed.error);
    }
    var staged := listed.value;
    assert Lists(staged, TableOf(storage.tables, Config.SeasonsEpisodesUpdateTable));
    if staged == [] {
      return Completed;  // "No shows staged for season/episode updates."
    }
    if exists i | 0 <= i < |staged| :: "RowKey" !in staged[i] {
      return Raised(KeyError);
    }
    out := QueueShowIds(RowKeys(staged), storage);
    if out != Completed {
      return;
    }
    out := storage.DeleteEntitiesBatch(Config.SeasonsEpisodesUpdateTable, staged);
  }
}
