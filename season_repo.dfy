/** The season applier: an envelope `{show_id, season}` becomes one row of the season table. */
module SeasonRepo {
  import opened Values
  import opened Relational
  import opened ChildRepo

  /** `SeasonRepository.upsert_season`. */
  method UpsertSeason(envelope: Record, db: Session, columns: set<string>) returns (out: Outcome)
    requires db.Valid()
    modifies db`shows, db`seasons, db`episodes
    ensures db.Valid()
    ensures Applied(db.seasons, out) == ChildEffect(old(db.seasons), envelope, "season", columns, Seasons !in db.unavailable)
    ensures db.shows == old(db.shows) && db.episodes == old(db.episodes)
  {
    out := UpsertChild(envelope, "season", db, Seasons, columns);
  }
}
