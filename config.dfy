/** The names of the containers, queues and table the pipeline stages its work in (their default settings). */
module Config {
  const TvMazeShowsQueue := "tvshowsqueue"
  const ShowStageContainer := "showstagecontainer"
  const ShowUpsertContainer := "showupsertcontainer"
  const ShowIdsContainer := "tvshowidscontainer"
  const SeasonsEpisodesContainer := "tvseasonsepisodescontainer"
  const SeasonsEpisodesQueue := "tvseasonsepisodesqueue"
  const SeasonUpsertContainer := "seasonupsertcontainer"
  const EpisodeUpsertContainer := "episodeupsertcontainer"
  const UpdatesContainer := "tvupdates"
  const ShowsUpdateQueue := "tvshowsupdatequeue"
  const SeasonsEpisodesUpdateTable := "tvseasonsepisodesupdatetable"
}
