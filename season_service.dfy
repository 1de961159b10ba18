/** The season stage of the pipeline: staging a show's seasons as blobs, and applying one staged season. */
module SeasonService {
  import opened Values
  import opened Storage
  import opened Relational
  import opened Staging
  import opened ChildRepo
  import SeasonRepo
  import Config

  /**
   * `SeasonService.stage_seasons`: a payload `{show_id, seasons}` becomes one blob per
   * season in the season upsert container, named `tv_show_{show_id}_season_{id}.json`.
   */
  method StageSeasons(payload: Record, storage: StorageService) returns (out: Outcome)
    modifies storage`blobs
    ensures BlobRun(storage.blobs, out)
            == StageChildren(old(storage.blobs), storage.faults.blobs, payload, "season", "seasons", Config.SeasonUpsertContainer)
  {
    out := StageChildBlobs(storage, payload, "season", "seasons", Config.SeasonUpsertContainer);
  }

  /**
   * `SeasonService.upsert_season`: reading `season.get('season', {}).get('id')` for the
   * log raises when the envelope holds a season that is not a dict; otherwise
   * the applier runs.
   */
  method UpsertSeason(envelope: Record, db: Session, columns: set<string>) returns (out: Outcome)
    requires db.Valid()
    modifies db`shows, db`seasons, db`episodes
    ensures db.Valid()
    ensures "season" in envelope && !envelope["season"].JObj? ==>
              out == Raised(AttributeError) && db.seasons == old(db.seasons)
    ensures !("season" in envelope && !envelope["season"].JObj?) ==>
              Applied(db.seasons, out) == ChildEffect(old(db.seasons), envelope, "season", columns, Seasons !in db.unavailable)
    ensures db.shows == old(db.shows) && db.episodes == old(db.episodes)
  {
    var record := GetOr(envelope, "season", JObj(map[]));
    if !record.JObj? {
      return Raised(AttributeError);
    }
    out := SeasonRepo.UpsertSeason(envelope, db, columns);
  }
}
