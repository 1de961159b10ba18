/** The episode stage of the pipeline: staging a show's episodes as blobs, and applying one staged episode. */
module EpisodeService {
  import opened Values
  import opened Storage
  import opened Relational
  import opened Staging
  import opened ChildRepo
  import EpisodeRepo
  import Config

  /**
   * `EpisodeService.stage_episodes`: a payload `{show_id, episodes}` becomes one blob per
   * episode in the episode upsert container, named `tv_show_{show_id}_episode_{id}.json`.
   */
  method StageEpisodes(payload: Record, storage: StorageService) returns (out: Outcome)
    modifies storage`blobs
    ensures BlobRun(storage.blobs, out)
            == StageChildren(old(storage.blobs), storage.faults.blobs, payload, "episode", "episodes", Config.EpisodeUpsertContainer)
  {
    out := StageChildBlobs(storage, payload, "episode", "episodes", Config.EpisodeUpsertContainer);
  }

  /**
   * `EpisodeService.upsert_episode`: reading `episode.get('episode', {}).get('id')` for the
   * log raises when the envelope holds a episode that is not a dict; otherwise
   * the applier runs.
   */
  method UpsertEpisode(envelope: Record, db: Session, columns: set<string>) returns (out: Outcome)
    requires db.Valid()
    modifies db`shows, db`seasons, db`episodes
    ensures db.Valid()
    ensures "episode" in envelope && !envelope["episode"].JObj? ==>
              out == Raised(AttributeError) && db.episodes == old(db.episodes)
    ensures !("episode" in envelope && !envelope["episode"].JObj?) ==>
              Applied(db.episodes, out) == ChildEffect(old(db.episodes), envelope, "episode", columns, Episodes !in db.unavailable)
    ensures db.shows == old(db.shows) && db.seasons == old(db.seasons)
  {
    var record := GetOr(envelope, "episode", JObj(map[]));
    if !record.JObj? {
      return Raised(AttributeError);
    }
    out := EpisodeRepo.UpsertEpisode(envelope, db, columns);
  }
}
