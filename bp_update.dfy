/**
 * The update entry points: the HTTP trigger that stages the catalog's
 * update list for a period (with its `since` query parameter), and the
 * queue trigger that re-fetches one changed show.
 */
module BpUpdate {
  import opened Values
  import opened Storage
  import opened Staging
  import opened Upstream
  import opened Http
  import UpdateService
  import Config

  const BadPeriod := "Query parameter 'since' must be 'day', 'week', or 'month'."

  /** The periods the catalog's update list can cover. */
  predicate IsPeriod(s: string)
  {
    s == "day" || s == "week" || s == "month"
  }

  /** The decision taken on the `since` query parameter. */
  datatype SinceChoice = Period(since: string) | Reject(response: Response)

  /**
   * `get_updates_manually`' parameter handling: an absent parameter means
   * `day`; a present one must be a period, else the request is answered 400.
   * An empty parameter is present, so it is refused.
   */
  function ParseSince(param: Option<string>): (r: SinceChoice)
    ensures param.None? ==> r == Period("day")
    ensures r.Period? ==> IsPeriod(r.since)
    ensures param.Some? ==> (r.Period? <==> IsPeriod(param.value))
    ensures param.Some? && r.Period? ==> r.since == param.value
    ensures r.Reject? ==> r.response == Response(400, BadPeriod)
  {
    var since := match param case None => "day" case Some(s) => s;
    if IsPeriod(since) then Period(since) else Reject(Response(400, BadPeriod))
  }

  function StartedBody(since: string): string
  {
    "Getting all updates from TV Maze for the last " + since
  }

  /**
   * The `get_updates_manually` HTTP trigger: a refused parameter is
   * answered at once and nothing is fetched or staged; otherwise the
   * period's update list is staged and the answer is 202. A failing upload
   * is not caught, so it escapes the trigger.
   */
  method GetUpdatesManually(param: Option<string>, api: TvMaze, storage: StorageService) returns (r: Result<Response>)
    modifies storage`blobs
    ensures ParseSince(param).Reject? ==> r == Ok(ParseSince(param).response) && storage.blobs == old(storage.blobs)
    ensures ParseSince(param).Period? ==>
              var staged := UpdateService.StageUpdateList(old(storage.blobs), storage.faults.blobs, api, ParseSince(param).since);
              && storage.blobs == staged.blobs
              && r == (if staged.outcome == Completed then Ok(Response(202, StartedBody(ParseSince(param).since)))
                       else Failed(staged.outcome.error))
  {
    var choice := ParseSince(param);
    if choice.Reject? {
      return Ok(choice.response);
    }
    var out := UpdateService.GetUpdates(choice.since, api, storage);
    if out.Raised? {
      return Failed(out.error);
    }
    r := Ok(Response(202, StartedBody(choice.since)));
  }

  /** Staging the update lists of two different periods writes two different blobs. */
  lemma PeriodsStageSeparately(a: string, b: string)
    requires ParseSince(Some(a)).Period? && ParseSince(Some(b)).Period? && a != b
    ensures (Config.UpdatesContainer, UpdateService.UpdatesBlobName(ParseSince(Some(a)).since))
            != (Config.UpdatesContainer, UpdateService.UpdatesBlobName(ParseSince(Some(b)).since))
  {
    UpdateService.UpdatesBlobNameInjective(a, b);
  }

  /**
   * The `get_show_update_details` queue trigger: a message without a truthy
   * show id is logged and dropped without fetching; otherwise the show is
   * re-fetched and staged for upsert. Anything raised, including
   * `AttributeError` for a message that is not an object, is raised again.
   */
  method GetShowUpdateDetailsHandler(message: Json, api: TvMaze, storage: StorageService) returns (out: Outcome)
    modifies storage`blobs
    ensures !message.JObj? ==> out == Raised(AttributeError) && storage.blobs == old(storage.blobs)
    ensures message.JObj? && !Truthy(Get(message.fields, "show_id")) ==>
              out == Completed && storage.blobs == old(storage.blobs)
    ensures message.JObj? && Truthy(Get(message.fields, "show_id")) ==>
              BlobRun(storage.blobs, out)
              == StageShowDetails(old(storage.blobs), storage.faults.blobs, api, message.fields["show_id"], false, Config.ShowUpsertContainer)
  {
    if !message.JObj? {
      return Raised(AttributeError);
    }
    var showId := Get(message.fields, "show_id");
    if !Truthy(showId) {
      return Completed;  // "Received show update message without a 'show_id'. Aborting."
    }
    out := UpdateService.GetShowUpdateDetails(showId, api, storage);
  }
}
