/**
 * The season-and-episode fan-out: list every known show id into one blob,
 * queue one retrieval per id, fetch each show with its embedded seasons and
 * episodes, and split that document into the season and episode stagers.
 */
module SeasonsEpisodesService {
  import opened Values
  import opened Storage
  import opened Relational
  import opened Staging
  import opened Upstream
  import opened Http
  import ShowService
  import Config

  // ---------------------------------------------------------------------
  // Starting the fan-out

  const NoShowIds := "No show IDs found to process."
  const StartFailed := "Failed to start season/episode retrieval process."
  const ShowIdsBlob := "all_show_ids.json"

  function StartedBody(count: int): string
  {
    "Successfully started processing for " + IntToString(count) + " shows."
  }

  /**
   * `SeasonsEpisodesService.start_get_seasons_episodes`: no ids (the query
   * failed or the table is empty) answers 200 and stages nothing; otherwise
   * the id list is staged as one blob and the answer is 202, or 500 when the
   * upload raises. The session is closed on every path.
   */
  method StartGetSeasonsEpisodes(db: Session, storage: StorageService) returns (resp: Response)
    modifies db`closed, storage`blobs
    ensures db.closed
    ensures Shows in db.unavailable || db.shows == map[] ==>
              resp == Response(200, NoShowIds) && storage.blobs == old(storage.blobs)
    ensures !(Shows in db.unavailable || db.shows == map[]) ==>
              (resp.status == 202 <==> (Config.ShowIdsContainer, ShowIdsBlob) !in storage.faults.blobs)
    ensures resp.status == 202 ==>
              var key := (Config.ShowIdsContainer, ShowIdsBlob);
              && resp.body == StartedBody(|db.shows|)
              && key in storage.blobs
              && storage.blobs == old(storage.blobs)[key := storage.blobs[key]]
              && storage.blobs[key].JsonText? && storage.blobs[key].doc.JList?
              && (forall k :: k in db.shows <==> k in storage.blobs[key].doc.items)
              && (forall i, j | 0 <= i < j < |storage.blobs[key].doc.items| ::
                    storage.blobs[key].doc.items[i] != storage.blobs[key].doc.items[j])
    ensures resp.status != 202 ==> storage.blobs == old(storage.blobs)
    ensures resp.status != 202 ==> resp == Response(200, NoShowIds) || resp == Response(500, StartFailed)
  {
    var ids := ShowService.GetAllShowIds(db);
    if ids.None? || ids.value == [] {
      assert ids.Some? ==> forall k :: k !in db.shows;
      db.Close();
      return Response(200, NoShowIds);
    }
    assert ids.value[0] in db.shows;
    var out := storage.UploadBlobData(Config.ShowIdsContainer, ShowIdsBlob, JList(ids.value));
    if out != Completed {
      resp := Response(500, StartFailed);
    } else {
      DistinctListingSize(ids.value, db.shows.Keys);
      resp := Response(202, StartedBody(|ids.value|));
    }
    db.Close();
  }

  // ---------------------------------------------------------------------
  // Queueing one retrieval per show

  /**
   * The loop of `stage_show_ids_for_retrieval`: one send per id, in order;
   * each send's failure is caught and logged, so the loop always goes on.
   */
  function QueueEach(queues: Queues, rejected: set<(string, Stored)>, queueName: string, ids: seq<Json>): Queues
    decreases |ids|
  {
    if ids == [] then queues
    else QueueEach(SendMessage(queues, rejected, queueName, ShowIdMessage(ids[0])).queues, rejected, queueName, ids[1..])
  }

  /** The messages the queue service accepts, in the order of the ids. */
  function Accepted(rejected: set<(string, Stored)>, queueName: string, ids: seq<Json>): seq<Stored>
    decreases |ids|
  {
    if ids == [] then []
    else
      var m := JsonText(ShowIdMessage(ids[0]));
      (if (queueName, m) in rejected then [] else [m]) + Accepted(rejected, queueName, ids[1..])
  }

  /** One pass of the loop: the named queue gains exactly the accepted messages, other queues are untouched. */
  lemma {:induction false} QueueEachQueuesAccepted(queues: Queues, rejected: set<(string, Stored)>, queueName: string, ids: seq<Json>)
    requires queueName != ""
    ensures Messages(QueueEach(queues, rejected, queueName, ids), queueName)
            == Messages(queues, queueName) + Accepted(rejected, queueName, ids)
    decreases |ids|
  {
    if ids == [] {
      assert Messages(queues, queueName) + [] == Messages(queues, queueName);
    } else {
      var m := ShowIdMessage(ids[0]);
      var next := SendMessage(queues, rejected, queueName, m).queues;
      QueueEachQueuesAccepted(next, rejected, queueName, ids[1..]);
      var head := SendShowIdStep(queues, rejected, queueName, ids[0]);
      assert Accepted(rejected, queueName, ids) == head + Accepted(rejected, queueName, ids[1..]);
      assert (Messages(queues, queueName) + head) + Accepted(rejected, queueName, ids[1..])
             == Messages(queues, queueName) + Accepted(rejected, queueName, ids);
    }
  }

  /** The loop sends to one queue only. */
  lemma {:induction false} QueueEachOtherQueues(queues: Queues, rejected: set<(string, Stored)>, queueName: string, ids: seq<Json>, q: string)
    requires queueName != "" && q != queueName
    ensures Messages(QueueEach(queues, rejected, queueName, ids), q) == Messages(queues, q)
    decreases |ids|
  {
    if ids != [] {
      var next := SendMessage(queues, rejected, queueName, ShowIdMessage(ids[0])).queues;
      SendShowIdElsewhere(queues, rejected, queueName, ids[0]);
      QueueEachOtherQueues(next, rejected, queueName, ids[1..], q);
    }
  }

  /** One send of the loop: the message is queued unless the service rejects it. */
  lemma SendShowIdStep(queues: Queues, rejected: set<(string, Stored)>, queueName: string, id: Json)
    returns (head: seq<Stored>)
    requires queueName != ""
    ensures head == if (queueName, JsonText(ShowIdMessage(id))) in rejected then [] else [JsonText(ShowIdMessage(id))]
    ensures Messages(SendMessage(queues, rejected, queueName, ShowIdMessage(id)).queues, queueName)
            == Messages(queues, queueName) + head
  {
    var m := ShowIdMessage(id);
    head := if (queueName, JsonText(m)) in rejected then [] else [JsonText(m)];
    if (queueName, JsonText(m)) in rejected {
      assert Messages(queues, queueName) + head == Messages(queues, queueName);
    }
  }

  /** One send of the loop leaves the other queues alone. */
  lemma SendShowIdElsewhere(queues: Queues, rejected: set<(string, Stored)>, queueName: string, id: Json)
    requires queueName != ""
    ensures forall q | q != queueName ::
              Messages(SendMessage(queues, rejected, queueName, ShowIdMessage(id)).queues, q) == Messages(queues, q)
  {
  }

  /** A failed send does not stop the others: every id whose message the service accepts is queued. */
  lemma {:induction false} AcceptedKeepsEveryAcceptedId(rejected: set<(string, Stored)>, queueName: string, ids: seq<Json>, i: nat)
    requires i < |ids| && (queueName, JsonText(ShowIdMessage(ids[i]))) !in rejected
    ensures JsonText(ShowIdMessage(ids[i])) in Accepted(rejected, queueName, ids)
    decreases i
  {
    if i > 0 {
      AcceptedKeepsEveryAcceptedId(rejected, queueName, ids[1..], i - 1);
    }
  }

  /** With no rejections, exactly one message per id is queued, in the order of the ids. */
  lemma {:induction false} AcceptedAll(queueName: string, ids: seq<Json>)
    ensures Accepted({}, queueName, ids) == seq(|ids|, i requires 0 <= i < |ids| => JsonText(ShowIdMessage(ids[i])))
    decreases |ids|
  {
    if ids != [] {
      AcceptedAll(queueName, ids[1..]);
    }
  }

  /** `SeasonsEpisodesService.stage_show_ids_for_retrieval`. */
  method StageShowIdsForRetrieval(ids: seq<Json>, storage: StorageService)
    modifies storage`queues
    ensures storage.queues == QueueEach(old(storage.queues), storage.faults.messages, Config.SeasonsEpisodesQueue, ids)
  {
    var i := 0;
    while i < |ids|
      invariant 0 <= i <= |ids|
      invariant QueueEach(storage.queues, storage.faults.messages, Config.SeasonsEpisodesQueue, ids[i..])
                == QueueEach(old(storage.queues), storage.faults.messages, Config.SeasonsEpisodesQueue, ids)
    {
      assert ids[i..][1..] == ids[i + 1..];
      var _ := storage.UploadQueueMessage(Config.SeasonsEpisodesQueue, ShowIdMessage(ids[i]));  // failures are logged
      i := i + 1;
    }
  }

  // ---------------------------------------------------------------------
  // Fetching one show, and splitting it

  /**
   * `SeasonsEpisodesService.get_show_seasons_episodes`: a message without a
   * truthy show id does nothing; otherwise the show, with its seasons and
   * episodes embedded, is staged whole as `tv_show_{show_id}.json`.
   */
  method GetShowSeasonsEpisodes(msg: Record, api: TvMaze, storage: StorageService) returns (out: Outcome)
    modifies storage`blobs
    ensures !Truthy(Get(msg, "show_id")) ==> out == Completed && storage.blobs == old(storage.blobs)
    ensures Truthy(Get(msg, "show_id")) ==>
              BlobRun(storage.blobs, out)
              == StageShowDetails(old(storage.blobs), storage.faults.blobs, api, msg["show_id"], true, Config.SeasonsEpisodesContainer)
  {
    var showId := Get(msg, "show_id");
    if !Truthy(showId) {
      return Completed;  // "Message is missing 'show_id'."
    }
    out := FetchAndStage(api, storage, showId, true, Config.SeasonsEpisodesContainer);
  }

  /** `show_data.get('_embedded', {}).get(key, [])`, for an `_embedded` that is a dict. */
  function EmbeddedList(showData: Record, key: string): Json
  {
    var embedded := GetOr(showData, "_embedded", JObj(map[]));
    if embedded.JObj? then GetOr(embedded.fields, key, JList([])) else JNull
  }

  /** Blobs of container `c` are the same in both maps. */
  ghost predicate SameContainer(a: map<BlobKey, Stored>, b: map<BlobKey, Stored>, c: string)
  {
    forall k: BlobKey | k.0 == c :: (k in a <==> k in b) && (k in a ==> a[k] == b[k])
  }

  /**
   * `SeasonsEpisodesService.stage_show_seasons_episodes`: seasons are staged
   * only when the embedded list is truthy, then episodes likewise, each
   * tagged with the show's own id.
   */
  function SplitShow(blobs: map<BlobKey, Stored>, rejected: set<BlobKey>, showData: Record): (r: BlobRun)
    ensures !Truthy(Get(showData, "id")) ==> r == BlobRun(blobs, Completed)
    // `.get` on an `_embedded` that is not a dict raises before anything is staged
    ensures Truthy(Get(showData, "id")) && !GetOr(showData, "_embedded", JObj(map[])).JObj? ==>
              r == BlobRun(blobs, Raised(AttributeError))
    // nothing outside the season and episode containers changes, and nothing is removed
    ensures forall k | k in r.blobs && k.0 != Config.SeasonUpsertContainer && k.0 != Config.EpisodeUpsertContainer ::
              k in blobs && r.blobs[k] == blobs[k]
    ensures forall k | k in blobs :: k in r.blobs
    // no seasons, no season blobs; no episodes, no episode blobs
    ensures !Truthy(EmbeddedList(showData, "seasons")) ==> SameContainer(r.blobs, blobs, Config.SeasonUpsertContainer)
    ensures !Truthy(EmbeddedList(showData, "episodes")) ==> SameContainer(r.blobs, blobs, Config.EpisodeUpsertContainer)
  {
    var showId := Get(showData, "id");
    if !Truthy(showId) then BlobRun(blobs, Completed)
    else
      var embedded := GetOr(showData, "_embedded", JObj(map[]));
      if !embedded.JObj? then BlobRun(blobs, Raised(AttributeError))
      else
        var seasons := GetOr(embedded.fields, "seasons", JList([]));
        var afterSeasons :=
          if Truthy(seasons) then
            StageChildren(blobs, rejected, map["show_id" := showId, "seasons" := seasons], "season", "seasons", Config.SeasonUpsertContainer)
          else BlobRun(blobs, Completed);
        if afterSeasons.outcome != Completed then afterSeasons
        else
          var episodes := GetOr(embedded.fields, "episodes", JList([]));
          if Truthy(episodes) then
            StageChildren(afterSeasons.blobs, rejected, map["show_id" := showId, "episodes" := episodes], "episode", "episodes", Config.EpisodeUpsertContainer)
          else afterSeasons
  }

  /**
   * Splitting a show with integer id `n`, whose seasons and episodes carry
   * distinct integer ids, stages each season and each episode in its
   * envelope `{show_id: n, ...}`, when the service accepts every upload.
   */
  lemma SplitTagsWithShowId(blobs: map<BlobKey, Stored>, rejected: set<BlobKey>, showData: Record, n: int,
                            seasons: seq<Json>, episodes: seq<Json>)
    requires Get(showData, "id") == JInt(n) && n != 0
    requires EmbeddedList(showData, "seasons") == JList(seasons) && seasons != [] && DistinctIntIds(seasons)
    requires EmbeddedList(showData, "episodes") == JList(episodes) && episodes != [] && DistinctIntIds(episodes)
    requires Clean(rejected, Config.SeasonUpsertContainer, ChildPlan(JInt(n), "season", seasons))
    requires Clean(rejected, Config.EpisodeUpsertContainer, ChildPlan(JInt(n), "episode", episodes))
    ensures var r := SplitShow(blobs, rejected, showData);
            && r.outcome == Completed
            && (forall i | 0 <= i < |seasons| ::
                  var key := (Config.SeasonUpsertContainer, ChildBlobName(JInt(n), "season", Get(seasons[i].fields, "id")));
                  key in r.blobs && r.blobs[key] == JsonText(ChildEnvelope(JInt(n), "season", seasons[i])))
            && (forall i | 0 <= i < |episodes| ::
                  var key := (Config.EpisodeUpsertContainer, ChildBlobName(JInt(n), "episode", Get(episodes[i].fields, "id")));
                  key in r.blobs && r.blobs[key] == JsonText(ChildEnvelope(JInt(n), "episode", episodes[i])))
  {
    var embedded := GetOr(showData, "_embedded", JObj(map[]));
    var sp: Record := map["show_id" := JInt(n), "seasons" := JList(seasons)];
    var ep: Record := map["show_id" := JInt(n), "episodes" := JList(episodes)];
    assert GetOr(sp, "seasons", JList([])) == JList(seasons);
    assert GetOr(ep, "episodes", JList([])) == JList(episodes);
    StageChildrenOnePerChild(blobs, rejected, n, seasons, "season", Config.SeasonUpsertContainer);
    var afterSeasons := StageChildren(blobs, rejected, sp, "season", "seasons", Config.SeasonUpsertContainer);
    StageChildrenOnePerChild(afterSeasons.blobs, rejected, n, episodes, "episode", Config.EpisodeUpsertContainer);
    var r := StageChildren(afterSeasons.blobs, rejected, ep, "episode", "episodes", Config.EpisodeUpsertContainer);
    assert r == SplitShow(blobs, rejected, showData);
  }

  /** `SeasonsEpisodesService.stage_show_seasons_episodes` on the live storage service. */
  method StageShowSeasonsEpisodes(showData: Record, storage: StorageService) returns (out: Outcome)
    modifies storage`blobs
    ensures BlobRun(storage.blobs, out) == SplitShow(old(storage.blobs), storage.faults.blobs, showData)
  {
    var showId := Get(showData, "id");
    if !Truthy(showId) {
      return Completed;  // "Raw show data from blob is missing 'id'."
    }
    var embedded := GetOr(showData, "_embedded", JObj(map[]));
    if !embedded.JObj? {
      return Raised(AttributeError);
    }
    var seasons := GetOr(embedded.fields, "seasons", JList([]));
    out := Completed;
    if Truthy(seasons) {
      out := StageChildBlobs(storage, map["show_id" := showId, "seasons" := seasons], "season", "seasons", Config.SeasonUpsertContainer);
      if out != Completed {
        return;
      }
    }
    var episodes := GetOr(embedded.fields, "episodes", JList([]));
    if Truthy(episodes) {
      out := StageChildBlobs(storage, map["show_id" := showId, "episodes" := episodes], "episode", "episodes", Config.EpisodeUpsertContainer);
    }
  }
}
