/**
 * The show stage of the pipeline: queueing the first catalog page, walking
 * the catalog one page per queue message, staging each show of a page as its
 * own blob, and the delegations to the show applier.
 */
module ShowService {
  import opened Values
  import opened Storage
  import opened Relational
  import opened Staging
  import opened Upstream
  import ShowRepo
  import Config

  /** `{"page": page}`. */
  function PageMessage(page: int): Json
  {
    JObj(map["page" := JInt(page)])
  }

  /** `ShowService.start_get_shows`: one message naming the first page to fetch. */
  method StartGetShows(page: int, storage: StorageService) returns (out: Outcome)
    modifies storage`queues
    ensures QueueRun(storage.queues, out)
            == SendMessage(old(storage.queues), storage.faults.messages, Config.TvMazeShowsQueue, PageMessage(page))
  {
    out := storage.UploadQueueMessage(Config.TvMazeShowsQueue, PageMessage(page));
  }

  /** Starting a walk queues exactly `{"page": p}` on the shows queue and touches no other queue. */
  lemma StartGetShowsQueuesOne(queues: Queues, rejected: set<(string, Stored)>, page: int)
    requires (Config.TvMazeShowsQueue, JsonText(PageMessage(page))) !in rejected
    ensures var r := SendMessage(queues, rejected, Config.TvMazeShowsQueue, PageMessage(page));
            && r.outcome == Completed
            && Messages(r.queues, Config.TvMazeShowsQueue) == Messages(queues, Config.TvMazeShowsQueue) + [JsonText(PageMessage(page))]
            && forall q | q != Config.TvMazeShowsQueue :: Messages(r.queues, q) == Messages(queues, q)
  {
    assert "page" in PageMessage(page).fields;
  }

  // ---------------------------------------------------------------------
  // The pagination walker

  /** `f"shows_page_{page_number}.json"`. */
  function PageBlobName(page: Json): string
  {
    "shows_page_" + Str(page) + ".json"
  }

  /** The blobs, the queues and the outcome after one step of the walker. */
  datatype PageRun = PageRun(blobs: map<BlobKey, Stored>, queues: Queues, outcome: Outcome)

  /** The page number a message names, `message.get("page")`. */
  function Page(message: Record): Json
  {
    Get(message, "page")
  }

  /** The catalog returned a non-empty page for the message's page number. */
  predicate Fetched(message: Record, api: TvMaze)
  {
    Page(message) != JNull && api.shows(Page(message)).Got? && Truthy(api.shows(Page(message)).value)
  }

  /**
   * `ShowService.get_show_page`: fetch the message's page; an empty page ends
   * the walk; a non-empty page is staged as one blob, and only then is the
   * message, with its page number incremented, queued again.
   */
  function ShowPageStep(blobs: map<BlobKey, Stored>, queues: Queues, faults: Faults, message: Record, api: TvMaze): (r: PageRun)
    // a message without a page number does nothing (page 0 is a page: the test is `is None`)
    ensures Page(message) == JNull ==> r == PageRun(blobs, queues, Completed)
    // a failing catalog call stages and queues nothing, and the error reaches the trigger
    ensures Page(message) != JNull && api.shows(Page(message)).ClientError? ==>
              r == PageRun(blobs, queues, Raised(UpstreamError))
    // an empty page stages nothing and queues no successor: the walk ends here
    ensures !Fetched(message, api) ==> r.blobs == blobs && r.queues == queues
    // the page blob is the only blob that can change, and it holds the page
    ensures r.blobs == blobs
            || (Fetched(message, api)
                && r.blobs == blobs[(Config.ShowStageContainer, PageBlobName(Page(message))) := BlobPayload(api.shows(Page(message)).value)])
    // a successor is queued only after the page blob is written, and it is the message with the next page number
    ensures r.queues != queues ==>
              && Fetched(message, api)
              && r.blobs == blobs[(Config.ShowStageContainer, PageBlobName(Page(message))) := BlobPayload(api.shows(Page(message)).value)]
              && PlusOne(Page(message)).Ok?
              && r.queues == queues[Config.TvMazeShowsQueue := Messages(queues, Config.TvMazeShowsQueue)
                                      + [JsonText(JObj(message["page" := PlusOne(Page(message)).value]))]]
    // a failed upload queues no successor
    ensures Fetched(message, api)
            && (Config.ShowStageContainer, PageBlobName(Page(message))) in faults.blobs ==>
              r == PageRun(blobs, queues, Raised(ServiceError))
    // the happy path for an integer page n: blob written, exactly one `{..., "page": n + 1}` queued
    ensures Fetched(message, api) && Page(message).JInt?
            && (Config.ShowStageContainer, PageBlobName(Page(message))) !in faults.blobs
            && (Config.TvMazeShowsQueue, JsonText(JObj(message["page" := JInt(Page(message).n + 1)]))) !in faults.messages ==>
              && r.outcome == Completed
              && Messages(r.queues, Config.TvMazeShowsQueue)
                 == Messages(queues, Config.TvMazeShowsQueue) + [JsonText(JObj(message["page" := JInt(Page(message).n + 1)]))]
  {
    var page := Page(message);
    if page == JNull then PageRun(blobs, queues, Completed)
    else
      match api.shows(page)
      case ClientError => PageRun(blobs, queues, Raised(UpstreamError))
      case Got(shows) =>
        if !Truthy(shows) then PageRun(blobs, queues, Completed)
        else
          var staged := PutBlob(blobs, faults.blobs, Config.ShowStageContainer, PageBlobName(page), shows, true);
          if staged.outcome != Completed then PageRun(blobs, queues, staged.outcome)
          else
            match PlusOne(page)
            case Failed(e) => PageRun(staged.blobs, queues, Raised(e))  // `message["page"] += 1` on a non-number
            case Ok(next) =>
              assert "page" in message["page" := next];
              var sent := SendMessage(queues, faults.messages, Config.TvMazeShowsQueue, JObj(message["page" := next]));
              PageRun(staged.blobs, sent.queues, sent.outcome)
  }

  /** `ShowService.get_show_page` on the live storage service. */
  method GetShowPage(message: Record, api: TvMaze, storage: StorageService) returns (out: Outcome)
    modifies storage`blobs, storage`queues
    ensures PageRun(storage.blobs, storage.queues, out)
            == ShowPageStep(old(storage.blobs), old(storage.queues), storage.faults, message, api)
  {
    var page := Get(message, "page");
    if page == JNull {
      return Completed;  // "Queue message is missing 'page' number."
    }
    var fetched := api.shows(page);
    if fetched.ClientError? {
      return Raised(UpstreamError);
    }
    var shows := fetched.value;
    if !Truthy(shows) {
      return Completed;
    }
    out := storage.UploadBlobData(Config.ShowStageContainer, PageBlobName(page), shows);
    if out != Completed {
      return;
    }
    var next := PlusOne(page);
    if next.Failed? {
      return Raised(next.error);
    }
    var successor := message["page" := next.value];
    out := storage.UploadQueueMessage(Config.TvMazeShowsQueue, JObj(successor));
  }

  /** The pages `from`, `from + 1`, ... with contents `pages`, each staged under its name in the show stage container. */
  function PagesStaged(from: int, pages: seq<Json>): map<BlobKey, Stored>
    decreases |pages|
  {
    if pages == [] then map[]
    else
      map[(Config.ShowStageContainer, PageBlobName(JInt(from))) := BlobPayload(pages[0])]
      + PagesStaged(from + 1, pages[1..])
  }

  /** The `count` successor messages `{"page": from + 1}`, `{"page": from + 2}`, ..., in order. */
  function Successors(from: int, count: nat): (s: seq<Stored>)
    ensures |s| == count
    ensures forall i | 0 <= i < |s| :: s[i] == JsonText(PageMessage(from + 1 + i))
    decreases count
  {
    if count == 0 then [] else [JsonText(PageMessage(from + 1))] + Successors(from + 1, count - 1)
  }

  /**
   * The walk as the queue drives it: process `{"page": page}`, and while the
   * step queued a successor, process that successor next (at most `fuel` pages).
   */
  function Walk(run: PageRun, faults: Faults, api: TvMaze, page: int, fuel: nat): PageRun
    decreases fuel
  {
    if fuel == 0 then run
    else
      var step := ShowPageStep(run.blobs, run.queues, faults, map["page" := JInt(page)], api);
      if step.outcome == Completed && step.queues != run.queues then Walk(step, faults, api, page + 1, fuel - 1)
      else step
  }

  /** One step of a walk over a non-empty integer page, when the service accepts everything. */
  lemma WalkStep(blobs: map<BlobKey, Stored>, queues: Queues, faults: Faults, api: TvMaze, page: int)
    requires faults.blobs == {} && faults.messages == {}
    requires api.shows(JInt(page)).Got? && Truthy(api.shows(JInt(page)).value)
    ensures ShowPageStep(blobs, queues, faults, map["page" := JInt(page)], api)
            == PageRun(blobs + map[(Config.ShowStageContainer, PageBlobName(JInt(page))) := BlobPayload(api.shows(JInt(page)).value)],
                       queues[Config.TvMazeShowsQueue := Messages(queues, Config.TvMazeShowsQueue) + [JsonText(PageMessage(page + 1))]],
                       Completed)
  {
    var message := map["page" := JInt(page)];
    assert message["page" := JInt(page + 1)] == map["page" := JInt(page + 1)];
    var key := (Config.ShowStageContainer, PageBlobName(JInt(page)));
    var v := BlobPayload(api.shows(JInt(page)).value);
    assert blobs[key := v] == blobs + map[key := v];
  }

  /** A non-empty page hands the walk on to the next page, with its blob staged and its successor queued. */
  lemma WalkContinues(blobs: map<BlobKey, Stored>, queues: Queues, faults: Faults, api: TvMaze, page: int, fuel: nat)
    requires faults.blobs == {} && faults.messages == {} && fuel > 0
    requires api.shows(JInt(page)).Got? && Truthy(api.shows(JInt(page)).value)
    ensures Walk(PageRun(blobs, queues, Completed), faults, api, page, fuel)
            == Walk(PageRun(blobs + map[(Config.ShowStageContainer, PageBlobName(JInt(page))) := BlobPayload(api.shows(JInt(page)).value)],
                            queues[Config.TvMazeShowsQueue := Messages(queues, Config.TvMazeShowsQueue) + [JsonText(PageMessage(page + 1))]],
                            Completed),
                    faults, api, page + 1, fuel - 1)
  {
    var q := Config.TvMazeShowsQueue;
    var queues' := queues[q := Messages(queues, q) + [JsonText(PageMessage(page + 1))]];
    WalkStep(blobs, queues, faults, api, page);
    assert |Messages(queues', q)| == |Messages(queues, q)| + 1;
  }

  /** An empty page ends the walk with nothing staged or queued. */
  lemma WalkStops(blobs: map<BlobKey, Stored>, queues: Queues, faults: Faults, api: TvMaze, page: int, fuel: nat)
    requires api.shows(JInt(page)).Got? && !Truthy(api.shows(JInt(page)).value)
    ensures Walk(PageRun(blobs, queues, Completed), faults, api, page, fuel) == PageRun(blobs, queues, Completed)
  {
    assert ShowPageStep(blobs, queues, faults, map["page" := JInt(page)], api) == PageRun(blobs, queues, Completed);
  }

  /** The catalog's pages `from`, `from + 1`, ... hold `pages`, all non-empty. */
  predicate Catalog(api: TvMaze, from: int, pages: seq<Json>)
  {
    forall i | 0 <= i < |pages| :: api.shows(JInt(from + i)) == Got(pages[i]) && Truthy(pages[i])
  }

  lemma CatalogTail(api: TvMaze, from: int, pages: seq<Json>)
    requires pages != [] && Catalog(api, from, pages)
    ensures api.shows(JInt(from)) == Got(pages[0]) && Truthy(pages[0])
    ensures Catalog(api, from + 1, pages[1..])
  {
    assert from + 0 == from;
    var rest := pages[1..];
    forall i | 0 <= i < |rest| ensures api.shows(JInt(from + 1 + i)) == Got(rest[i]) && Truthy(rest[i]) {
      assert from + 1 + i == from + (i + 1);
    }
  }

  /**
   * Pagination terminates: walking from page `from` over a catalog whose pages
   * `from`, `from + 1`, ... hold the non-empty `pages` and whose next page is
   * empty stages exactly those pages, queues exactly the successors
   * `{"page": from + 1}` to `{"page": from + |pages|}` (and nothing after
   * them), and completes, however much fuel the queue has left.
   */
  lemma {:induction false} WalkStagesPages(blobs: map<BlobKey, Stored>, queues: Queues, faults: Faults, api: TvMaze,
                                           from: int, pages: seq<Json>, fuel: nat)
    requires faults.blobs == {} && faults.messages == {}
    requires fuel > |pages|
    requires Catalog(api, from, pages)
    requires api.shows(JInt(from + |pages|)).Got? && !Truthy(api.shows(JInt(from + |pages|)).value)
    ensures (var r := Walk(PageRun(blobs, queues, Completed), faults, api, from, fuel);
             && r.outcome == Completed
             && r.blobs == blobs + PagesStaged(from, pages)
             && Messages(r.queues, Config.TvMazeShowsQueue)
                == Messages(queues, Config.TvMazeShowsQueue) + Successors(from, |pages|)
             && (forall q | q != Config.TvMazeShowsQueue :: Messages(r.queues, q) == Messages(queues, q)))
    decreases |pages|
  {
    var q := Config.TvMazeShowsQueue;
    if pages == [] {
      WalkStops(blobs, queues, faults, api, from, fuel);
      assert blobs + map[] == blobs;
      assert Messages(queues, q) + [] == Messages(queues, q);
    } else {
      var single := map[(Config.ShowStageContainer, PageBlobName(JInt(from))) := BlobPayload(pages[0])];
      var queues' := queues[q := Messages(queues, q) + [JsonText(PageMessage(from + 1))]];
      CatalogTail(api, from, pages);
      WalkContinues(blobs, queues, faults, api, from, fuel);
      var rest := pages[1..];
      assert from + 1 + |rest| == from + |pages|;
      WalkStagesPages(blobs + single, queues', faults, api, from + 1, rest, fuel - 1);
      var r := Walk(PageRun(blobs, queues, Completed), faults, api, from, fuel);
      assert r == Walk(PageRun(blobs + single, queues', Completed), faults, api, from + 1, fuel - 1);
      WalkCompose(blobs, queues, from, pages, r);
    }
  }

  /** The first page's blob and successor, followed by what the rest of the walk stages and queues. */
  lemma WalkCompose(blobs: map<BlobKey, Stored>, queues: Queues, from: int, pages: seq<Json>, r: PageRun)
    requires pages != []
    requires var q := Config.TvMazeShowsQueue;
             var queues' := queues[q := Messages(queues, q) + [JsonText(PageMessage(from + 1))]];
             && r.blobs == (blobs + map[(Config.ShowStageContainer, PageBlobName(JInt(from))) := BlobPayload(pages[0])])
                           + PagesStaged(from + 1, pages[1..])
             && Messages(r.queues, q) == Messages(queues', q) + Successors(from + 1, |pages| - 1)
             && forall q' | q' != q :: Messages(r.queues, q') == Messages(queues', q')
    ensures r.blobs == blobs + PagesStaged(from, pages)
    ensures Messages(r.queues, Config.TvMazeShowsQueue)
            == Messages(queues, Config.TvMazeShowsQueue) + Successors(from, |pages|)
    ensures forall q' | q' != Config.TvMazeShowsQueue :: Messages(r.queues, q') == Messages(queues, q')
  {
    var q := Config.TvMazeShowsQueue;
    PagesStagedCons(blobs, from, pages);
    SuccessorsCons(Messages(queues, q), from, |pages| - 1);
    MessagesElsewhere(queues, q, Messages(queues, q) + [JsonText(PageMessage(from + 1))]);
  }

  lemma PagesStagedCons(blobs: map<BlobKey, Stored>, from: int, pages: seq<Json>)
    requires pages != []
    ensures (blobs + map[(Config.ShowStageContainer, PageBlobName(JInt(from))) := BlobPayload(pages[0])])
            + PagesStaged(from + 1, pages[1..])
            == blobs + PagesStaged(from, pages)
  {
  }

  lemma SuccessorsCons(prefix: seq<Stored>, from: int, count: nat)
    ensures (prefix + [JsonText(PageMessage(from + 1))]) + Successors(from + 1, count) == prefix + Successors(from, count + 1)
  {
  }

  lemma MessagesElsewhere(queues: Queues, q: string, v: seq<Stored>)
    ensures Messages(queues[q := v], q) == v
    ensures forall q' | q' != q :: Messages(queues[q := v], q') == Messages(queues, q')
  {
  }

  // ---------------------------------------------------------------------
  // Staging the shows of one page

  /** The loop body for each show: the raw show, no envelope, named by its own id. */
  function ShowPlan(shows: seq<Json>): seq<Entry>
  {
    seq(|shows|, i requires 0 <= i < |shows| =>
      if shows[i].JObj? then Stage(ShowBlobName(Get(shows[i].fields, "id")), shows[i])
      else Fault(AttributeError))
  }

  /** `ShowService.stage_shows_for_upsert`: one blob per show in the show upsert container, in list order. */
  method StageShowsForUpsert(shows: seq<Json>, storage: StorageService) returns (out: Outcome)
    modifies storage`blobs
    ensures BlobRun(storage.blobs, out)
            == UploadEach(old(storage.blobs), storage.faults.blobs, Config.ShowUpsertContainer, ShowPlan(shows))
  {
    ghost var plan := ShowPlan(shows);
    var i := 0;
    while i < |shows|
      invariant 0 <= i <= |shows|
      invariant UploadEach(storage.blobs, storage.faults.blobs, Config.ShowUpsertContainer, plan[i..])
                == UploadEach(old(storage.blobs), storage.faults.blobs, Config.ShowUpsertContainer, plan)
    {
      assert plan[i..][1..] == plan[i + 1..];
      var show := shows[i];
      if !show.JObj? {
        return Raised(AttributeError);  // `show.get("id")` on a value that is not a dict
      }
      out := storage.UploadBlobData(Config.ShowUpsertContainer, ShowBlobName(Get(show.fields, "id")), show);
      if out != Completed {
        return;
      }
      i := i + 1;
    }
    out := Completed;
  }

  /** Shows with distinct integer ids get distinct blob names. */
  lemma ShowPlanNamesDistinct(shows: seq<Json>)
    requires DistinctIntIds(shows)
    ensures var plan := ShowPlan(shows);
            forall a, b | 0 <= a < b < |plan| && plan[a].Stage? && plan[b].Stage? :: plan[a].name != plan[b].name
  {
    var plan := ShowPlan(shows);
    forall a, b | 0 <= a < b < |plan| && plan[a].Stage? && plan[b].Stage? ensures plan[a].name != plan[b].name {
      var ia, ib := Get(shows[a].fields, "id"), Get(shows[b].fields, "id");
      assert plan[a].name == ShowBlobName(JInt(ia.n));
      assert plan[b].name == ShowBlobName(JInt(ib.n));
      ShowBlobNameInjective(ia.n, ib.n);
    }
  }

  /**
   * One blob per show: for shows with distinct integer ids and a service that
   * accepts every upload, staging completes and each show's blob holds the
   * raw show itself.
   */
  lemma StageShowsOnePerShow(blobs: map<BlobKey, Stored>, rejected: set<BlobKey>, shows: seq<Json>)
    requires DistinctIntIds(shows)
    requires Clean(rejected, Config.ShowUpsertContainer, ShowPlan(shows))
    ensures var r := UploadEach(blobs, rejected, Config.ShowUpsertContainer, ShowPlan(shows));
            && r.outcome == Completed
            && forall i | 0 <= i < |shows| ::
                 var key := (Config.ShowUpsertContainer, ShowBlobName(Get(shows[i].fields, "id")));
                 key in r.blobs && r.blobs[key] == JsonText(shows[i])
  {
    var plan := ShowPlan(shows);
    ShowPlanNamesDistinct(shows);
    UploadEachStagesAll(blobs, rejected, Config.ShowUpsertContainer, plan);
    forall i | 0 <= i < |shows|
      ensures (Config.ShowUpsertContainer, plan[i].name) in Staged(Config.ShowUpsertContainer, plan)
      ensures Staged(Config.ShowUpsertContainer, plan)[(Config.ShowUpsertContainer, plan[i].name)] == BlobPayload(plan[i].data)
    {
      StagedDistinct(Config.ShowUpsertContainer, plan, i);
    }
    var r := UploadEach(blobs, rejected, Config.ShowUpsertContainer, plan);
    forall i | 0 <= i < |shows|
      ensures var key := (Config.ShowUpsertContainer, ShowBlobName(Get(shows[i].fields, "id")));
              key in r.blobs && r.blobs[key] == JsonText(shows[i])
    {
      assert plan[i] == Stage(ShowBlobName(Get(shows[i].fields, "id")), shows[i]);
    }
  }

  // ---------------------------------------------------------------------
  // Delegations to the show applier

  /** `ShowService.get_all_show_ids`. */
  method GetAllShowIds(db: Session) returns (ids: Option<seq<Json>>)
    ensures ids.None? <==> Shows in db.unavailable
    ensures ids.Some? ==> forall k :: k in db.shows <==> k in ids.value
    ensures ids.Some? ==> forall i, j | 0 <= i < j < |ids.value| :: ids.value[i] != ids.value[j]
  {
    ids := ShowRepo.GetAllShowIds(db);
  }

  /** `ShowService.upsert_show`: the show is passed to the applier unchanged. */
  method UpsertShow(show: Record, db: Session, columns: set<string>)
    requires db.Valid()
    modifies db`shows, db`seasons, db`episodes
    ensures db.Valid()
    ensures db.shows == ShowRepo.ShowEffect(old(db.shows), show, columns, Shows !in db.unavailable)
    ensures db.seasons == old(db.seasons) && db.episodes == old(db.episodes)
  {
    ShowRepo.UpsertShow(show, db, columns);
  }
}
