/**
 * The TV catalog's HTTP client, which the pipeline only calls: each call
 * either returns a decoded document (possibly `None` or empty) or raises.
 */
module Upstream {
  import opened Values

  datatype Fetch = Got(value: Json) | ClientError

  /** What the catalog answers, as functions of the arguments of each call. */
  datatype TvMaze = TvMaze(
    shows: Json -> Fetch,             // get_shows(page)
    details: (Json, bool) -> Fetch,   // get_show_details(show_id, embed seasons and episodes?)
    updates: string -> Fetch)         // get_show_updates(period)
}
