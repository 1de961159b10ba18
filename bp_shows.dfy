/**
 * The show entry points: the HTTP trigger that starts the catalog walk
 * (with its `page` query parameter), the queue trigger that processes one
 * page, and the blob trigger that applies one staged show.
 */
module BpShows {
  import opened Values
  import opened Storage
  import opened Relational
  import opened Upstream
  import opened Http
  import ShowService
  import ShowRepo
  import Config

  const NotAnInteger := "Query parameter 'page' must be an integer."
  const Negative := "Query parameter 'page' must be a non-negative integer."

  /** The decision taken on the `page` query parameter. */
  datatype PageChoice = StartAt(page: nat) | Reject(response: Response)

  /**
   * `start_get_shows`' parameter handling: an absent or empty parameter
   * means page 0; otherwise `int()` must accept it and the number must not
   * be negative, else the request is answered 400.
   */
  function ParsePage(param: Option<string>): (r: PageChoice)
    ensures param.None? || param == Some("") ==> r == StartAt(0)
    ensures r.StartAt? <==> param.None? || param.value == "" || (ParseInt(param.value).Some? && ParseInt(param.value).value >= 0)
    ensures r.StartAt? && param.Some? && param.value != "" ==> ParseInt(param.value) == Some(r.page)
    ensures r.Reject? ==> r.response.status == 400
    ensures r.Reject? ==>
              (r.response.body == NotAnInteger <==> ParseInt(param.value).None?)
              && (r.response.body == Negative <==> ParseInt(param.value).Some?)
  {
    match param
    case None => StartAt(0)
    case Some(s) =>
      if s == "" then StartAt(0)
      else
        match ParseInt(s)
        case None => Reject(Response(400, NotAnInteger))
        case Some(n) => if n < 0 then Reject(Response(400, Negative)) else StartAt(n)
  }

  /** A page number written out in decimal is accepted as that page; a negative one is refused. */
  lemma ParsePagePrinted(p: int)
    ensures p >= 0 ==> ParsePage(Some(IntToString(p))) == StartAt(p)
    ensures p < 0 ==> ParsePage(Some(IntToString(p))) == Reject(Response(400, Negative))
  {
    ParseIntOfIntToString(p);
    assert IntToString(p) != "" by { NatToStringDigits(if p < 0 then -p else p); }
  }

  function StartedBody(page: int): string
  {
    "Getting all shows from TV Maze, starting from page " + IntToString(page)
  }

  /**
   * The `start_get_shows` HTTP trigger: a refused parameter is answered at
   * once and nothing is queued; otherwise the first page is queued and the
   * answer is 202. A failing send is not caught, so it escapes the trigger.
   */
  method StartGetShowsHandler(param: Option<string>, storage: StorageService) returns (r: Result<Response>)
    modifies storage`queues
    ensures ParsePage(param).Reject? ==> r == Ok(ParsePage(param).response) && storage.queues == old(storage.queues)
    ensures ParsePage(param).StartAt? ==>
              var sent := SendMessage(old(storage.queues), storage.faults.messages, Config.TvMazeShowsQueue,
                                      ShowService.PageMessage(ParsePage(param).page));
              && storage.queues == sent.queues
              && r == (if sent.outcome == Completed then Ok(Response(202, StartedBody(ParsePage(param).page)))
                       else Failed(sent.outcome.error))
  {
    var choice := ParsePage(param);
    if choice.Reject? {
      return Ok(choice.response);
    }
    var out := ShowService.StartGetShows(choice.page, storage);
    if out.Raised? {
      return Failed(out.error);
    }
    r := Ok(Response(202, StartedBody(choice.page)));
  }

  /** A valid page parameter leads to exactly one `{"page": p}` message on the shows queue, when the send is accepted. */
  lemma StartAtQueuesOne(queues: Queues, rejected: set<(string, Stored)>, param: Option<string>)
    requires ParsePage(param).StartAt?
    requires (Config.TvMazeShowsQueue, JsonText(ShowService.PageMessage(ParsePage(param).page))) !in rejected
    ensures var sent := SendMessage(queues, rejected, Config.TvMazeShowsQueue, ShowService.PageMessage(ParsePage(param).page));
            && sent.outcome == Completed
            && Messages(sent.queues, Config.TvMazeShowsQueue)
               == Messages(queues, Config.TvMazeShowsQueue) + [JsonText(ShowService.PageMessage(ParsePage(param).page))]
  {
    ShowService.StartGetShowsQueuesOne(queues, rejected, ParsePage(param).page);
  }

  /**
   * The `get_show_page` queue trigger: the decoded message is handed to the
   * walker step; anything raised, including `AttributeError` for a message
   * that is not an object, is logged and raised again.
   */
  method GetShowPageHandler(message: Json, api: TvMaze, storage: StorageService) returns (out: Outcome)
    modifies storage`blobs, storage`queues
    ensures !message.JObj? ==>
              out == Raised(AttributeError) && storage.blobs == old(storage.blobs) && storage.queues == old(storage.queues)
    ensures message.JObj? ==>
              ShowService.PageRun(storage.blobs, storage.queues, out)
              == ShowService.ShowPageStep(old(storage.blobs), old(storage.queues), storage.faults, message.fields, api)
  {
    if !message.JObj? {
      return Raised(AttributeError);
    }
    out := ShowService.GetShowPage(message.fields, api, storage);
  }

  /**
   * The `upsert_show` blob trigger: the decoded show is applied; every error
   * is caught and logged, so the trigger always completes. A document that
   * is not an object fails on its first `.get` and writes nothing.
   */
  method UpsertShowHandler(doc: Json, db: Session, columns: set<string>)
    requires db.Valid()
    modifies db`shows, db`seasons, db`episodes
    ensures db.Valid()
    ensures doc.JObj? ==> db.shows == ShowRepo.ShowEffect(old(db.shows), doc.fields, columns, Shows !in db.unavailable)
    ensures !doc.JObj? ==> db.shows == old(db.shows)
    ensures db.seasons == old(db.seasons) && db.episodes == old(db.episodes)
  {
    if !doc.JObj? {
      return;  // AttributeError, caught and logged
    }
    ShowService.UpsertShow(doc.fields, db, columns);
  }
}
