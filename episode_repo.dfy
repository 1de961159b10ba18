/** The episode applier: an envelope `{show_id, episode}` becomes one row of the episode table. */
module EpisodeRepo {
  import opened Values
  import opened Relational
  import opened ChildRepo

  /** `EpisodeRepository.upsert_episode`. */
  method UpsertEpisode(envelope: Record, db: Session, columns: set<string>) returns (out: Outcome)
    requires db.Valid()
    modifies db`shows, db`seasons, db`episodes
    ensures db.Valid()
    ensures Applied(db.episodes, out) == ChildEffect(old(db.episodes), envelope, "episode", columns, Episodes !in db.unavailable)
    ensures db.shows == old(db.shows) && db.seasons == old(db.seasons)
  {
    out := UpsertChild(envelope, "episode", db, Episodes, columns);
  }
}
