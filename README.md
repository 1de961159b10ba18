# tvbingefriend-show-sync, modelled in Dafny

tvbingefriend-show-sync copies the TV catalog of TVMaze into a MySQL
database. It is a set of Azure Functions that hand work to each other
through blobs, queues and one table of a storage account:

- a walk over the catalog's show pages, one page per queue message;
- stagers that split a page, or a show with its embedded seasons and
  episodes, into one blob per entity;
- appliers that turn each staged entity into one `INSERT ... ON DUPLICATE
  KEY UPDATE` of its table;
- an update path. It stages the catalog's list of changed shows, queues
  each one for re-fetching, records it in an update-tracking table, and
  later drains that table into the season-and-episode queue.

The model keeps the pipeline's state as values:

- the blob store is a map from (container, blob name) to the stored text;
- each queue is a sequence of messages;
- each storage table is a map from (PartitionKey, RowKey) to an entity;
- each relational table (shows, seasons, episodes) is a map from `id` to a
  row of column values.

The storage account and the database session are classes whose methods
change those maps. Each method is proved equal to a pure function of the
old state, and the pipeline's properties are proved about those functions:

- the appliers: falsy-id rejection, unknown-column dropping, `show_id`
  forcing, idempotence, "other rows unchanged";
- the stagers: deterministic, injective blob names, one blob per entity;
- the page walk: termination on an empty page, and the page-then-successor
  order;
- the id fan-out, in which a failed send does not stop the others;
- update tracking, where the newest timestamp wins, and the drain, which
  queues everything before it deletes anything;
- the storage rules: argument checks, JSON serialisation of dicts and lists,
  "not found is not an error", and 100-entity delete batches.

Python values are the `Json` datatype. `Values` also models Python
truthiness, `dict.get`, f-string interpolation of ints and strings, and
`int()` on strings. A storage-service failure is not computed. It is fixed
up front in `Storage.Faults`, which lists the rejected blob keys, queue
messages, tables and entity keys. A database failure is the `unavailable`
set of a `Relational.Session`. The TVMaze client is the `Upstream.TvMaze`
oracle: each call returns a document or raises. The schema column sets that
the appliers read from the SQLAlchemy mappers are passed in as parameters.

## Model

| member | source | states |
|---|---|---|
| Values.PyInt | tvbingefriend_show_sync/services/update_service.py:59 | Python's `int()` on a document value: an int is kept, a string converts exactly when it is integer text, and to the number it spells; `None`, lists and dicts raise `TypeError` |
| Values.ParseIntOfIntToString | tvbingefriend_show_sync/blueprints/bp_shows.py:37 | `int(str(n)) == n` for every integer: the decimal text of a number reads back as that number, which is what lets `int(page_str)` accept every printed page number |
| Relational.Project | tvbingefriend_show_sync/repositories/show_repo.py:55-57 | the projected record keeps exactly the raw keys that are schema columns, with their values |
| Relational.UpdateSet | tvbingefriend_show_sync/repositories/show_repo.py:60-62 | the update set is the insert set without `id`, with the same values |
| Relational.InsertOrUpdate | tvbingefriend_show_sync/repositories/show_repo.py:66-70 | a new id gets the inserted row; an existing row has the update columns overwritten and keeps every other column; no other row changes |
| Relational.InsertOrUpdateIdempotent | tvbingefriend_show_sync/repositories/show_repo.py:55-70 | when the update set comes from the insert set, running the statement twice leaves the table as running it once |
| Relational.InsertOrUpdateKeepsKeyed | tvbingefriend_show_sync/repositories/show_repo.py:58-70 | every row stays stored under the key its own `id` column holds |
| Relational.InsertOrUpdateStoresInsert | tvbingefriend_show_sync/repositories/season_repo.py:51-66 | after the statement, every inserted column holds the inserted value, whether the row was new or not |
| Relational.AbsorbedUpsert | tvbingefriend_show_sync/repositories/show_repo.py:64-75 | an empty update set, which SQLAlchemy refuses, or a failing database leaves the table unchanged and raises nothing; otherwise the statement applies |
| Relational.Session.Execute | tvbingefriend_show_sync/repositories/show_repo.py:66-70 | a statement on an unavailable table raises a database error and changes nothing; otherwise it applies to the named table only. With an update set without `id`, every row stays under its own id |
| Relational.Session.SelectIds | tvbingefriend_show_sync/repositories/show_repo.py:19-27 | the ids listed are exactly the keys of the table, each once; an unavailable table fails |
| Relational.ExecuteUpsert | tvbingefriend_show_sync/repositories/show_repo.py:64-75 | the applier's `try` block on the live session: the table becomes the absorbed upsert of the old table, and the other tables are untouched. With an update set without `id`, every row stays under its own id |
| ShowRepo.ShowInsert | tvbingefriend_show_sync/repositories/show_repo.py:55-58 | the insert set is the show's schema columns plus `id`, forced to the show's id |
| ShowRepo.ShowEffect | tvbingefriend_show_sync/repositories/show_repo.py:36-75 | a falsy id (None, 0, "") or a failing database writes nothing. Only the row under the show's id changes. Every written column is a schema column or `id`. A written row holds the show's value in every schema column it carries, and columns the payload omits keep their old values |
| ShowRepo.ShowEffectIdempotent | tvbingefriend_show_sync/repositories/show_repo.py:55-70 | applying the same show twice gives the same table as applying it once |
| ShowRepo.UpsertShow | tvbingefriend_show_sync/repositories/show_repo.py:36-75 | the live applier leaves the show table as `ShowEffect` says, touches no other table, never raises, and keeps every row under its own id |
| ShowRepo.GetAllShowIds | tvbingefriend_show_sync/repositories/show_repo.py:17-34 | returns every show id exactly once, or `None` exactly when the query fails |
| ChildRepo.ChildInsert | tvbingefriend_show_sync/repositories/season_repo.py:51-55 | the insert set is the record's schema columns, plus `id` from the record and `show_id` from the envelope |
| ChildRepo.ChildEffect | tvbingefriend_show_sync/repositories/season_repo.py:16-75 | a falsy `show_id` or record writes nothing. A truthy record that is not a dict raises `AttributeError`. A falsy record id or a failing database writes nothing. Only the row under the record's id changes, and its columns are schema columns, `id` or `show_id`. The stored `show_id` is the envelope's, whatever the record carries, and omitted columns keep their old values |
| ChildRepo.ChildEffectIdempotent | tvbingefriend_show_sync/repositories/season_repo.py:57-66 | applying the same envelope twice gives the same table as applying it once |
| ChildRepo.UpsertChild | tvbingefriend_show_sync/repositories/episode_repo.py:16-84 | the shared applier on the live session equals `ChildEffect` on its table, leaves the other tables untouched, and keeps every row under its own id |
| SeasonRepo.UpsertSeason | tvbingefriend_show_sync/repositories/season_repo.py:16-75 | `upsert_season` is `ChildEffect` of kind "season" on the season table |
| EpisodeRepo.UpsertEpisode | tvbingefriend_show_sync/repositories/episode_repo.py:16-84 | `upsert_episode` is `ChildEffect` of kind "episode" on the episode table |
| Storage.ConnectionStringFor | tvbingefriend_show_sync/services/storage_service.py:21-29 | `UseDevelopmentStorage=true` is replaced by the fixed emulator string; any other string is kept |
| Storage.BlobPayload | tvbingefriend_show_sync/services/storage_service.py:161-164 | dicts and lists are stored as JSON text; other data is stored as is |
| Storage.MessagePayload | tvbingefriend_show_sync/services/storage_service.py:84-86 | only dict messages are JSON-encoded |
| Storage.PutBlob | tvbingefriend_show_sync/services/storage_service.py:139-193 | an empty container or blob name raises `ValueError` and writes nothing. The upload succeeds exactly when the service accepts it and overwrite is allowed or the blob is new, and then only that blob changes. A failure changes nothing. With overwrite, an existing blob never raises `ResourceExistsError` |
| Storage.SendMessage | tvbingefriend_show_sync/services/storage_service.py:63-99 | an empty queue name or a falsy message raises `ValueError` and queues nothing; an accepted send appends exactly one message to that queue only |
| Storage.UpsertEntityRun | tvbingefriend_show_sync/services/storage_service.py:315-338 | an empty table name, or an entity without `PartitionKey` and `RowKey`, raises `ValueError`. Otherwise the entity replaces whatever was under its key, creating the table, and nothing else changes. Tables stay well keyed |
| Storage.DeleteEntityRun | tvbingefriend_show_sync/services/storage_service.py:273-299 | empty arguments raise `ValueError`; an absent entity or table is not an error and changes nothing; otherwise exactly that key is removed |
| Storage.PutBlobIdempotent | tvbingefriend_show_sync/services/storage_service.py:122-170 | with overwrite, the default, a second identical upload succeeds and changes nothing |
| Storage.SendMessageTwiceQueuesTwo | tvbingefriend_show_sync/services/storage_service.py:84-93 | sending the same message twice queues two copies, in order |
| Storage.UpsertEntityLastWins | tvbingefriend_show_sync/services/storage_service.py:327 | REPLACE mode: of two upserts under one key, the later one decides the result |
| Storage.SubmitDeletes | tvbingefriend_show_sync/services/storage_service.py:395-401 | one transaction removes every key of its batch or none. It commits exactly when the table exists and every key is healthy, stored in the table and listed once. A missing table is reported as not found only when nothing is faulty; every other failure rejects the whole batch |
| Storage.DeleteBatches | tvbingefriend_show_sync/services/storage_service.py:382-411 | the batch run keeps every stored entity under its own key |
| Storage.DeleteBatchesDeletesAll | tvbingefriend_show_sync/services/storage_service.py:389-401 | when nothing fails, every listed entity is deleted, nothing else is, and ⌈n/100⌉ transactions are used |
| Storage.DeleteBatchesSkipsCommitted | tvbingefriend_show_sync/services/storage_service.py:393-401 | after `k` whole batches that go through, the run continues exactly as a fresh run over the rest of the list, with `k` more transactions |
| Storage.DeleteBatchesRejectedAt | tvbingefriend_show_sync/services/storage_service.py:394-411 | when batch `k` is rejected after the `k` before it went through, those stay deleted, the rest is untouched, and the run raises after `k + 1` transactions |
| Storage.DeleteBatchesUnkeyedAt | tvbingefriend_show_sync/services/storage_service.py:394-399 | an entity without its keys in batch `k` raises `KeyError` while the batch is built; the `k` batches before it stay deleted and no further transaction is sent |
| Storage.DeleteBatchesTableMissing | tvbingefriend_show_sync/services/storage_service.py:400-408 | a table that does not exist ends the run quietly after its first transaction and changes nothing |
| Storage.DeletedPrefixStep | tvbingefriend_show_sync/services/storage_service.py:393-401 | a first batch that goes through adds its entities, and one transaction, to what the rest of the run deletes |
| Storage.DeleteBatchesDeletesPrefix | tvbingefriend_show_sync/services/storage_service.py:393-411 | whatever happens, the run deletes exactly a prefix of whole batches. It completes only when that prefix is the whole list or the table does not exist; it raises only with entities left; and every transaction sent except the last went through |
| Storage.StorageService.constructor | tvbingefriend_show_sync/services/storage_service.py:15-29 | the service connects with the substituted connection string over the given state |
| Storage.StorageService.UploadQueueMessage | tvbingefriend_show_sync/services/storage_service.py:53-99 | the queue state and the outcome are those of `SendMessage` |
| Storage.StorageService.UploadBlobData | tvbingefriend_show_sync/services/storage_service.py:122-193 | the blob state and the outcome are those of `PutBlob` |
| Storage.StorageService.GetEntities | tvbingefriend_show_sync/services/storage_service.py:206-257 | an empty name raises `ValueError`, a missing table gives `[]`, a failing table raises, and otherwise every entity is listed exactly once |
| Storage.StorageService.UpsertEntity | tvbingefriend_show_sync/services/storage_service.py:301-338 | the table state and the outcome are those of `UpsertEntityRun`; every entity stays under its own key |
| Storage.StorageService.DeleteEntity | tvbingefriend_show_sync/services/storage_service.py:259-299 | the table state and the outcome are those of `DeleteEntityRun`; every entity stays under its own key |
| Storage.StorageService.DeleteEntitiesBatch | tvbingefriend_show_sync/services/storage_service.py:382-411 | the loop over chunks of 100 leaves the tables and the outcome of `DeleteBatches`: everything deleted when nothing fails, and otherwise the whole batches before the failure, as the `DeleteBatches` lemmas state. An empty list changes nothing, and every entity stays under its own key |
| Staging.ShowBlobNameInjective | tvbingefriend_show_sync/services/show_service.py:89-93 | distinct integer show ids give distinct `tv_show_{id}.json` names |
| Staging.ChildBlobNameInjective | tvbingefriend_show_sync/services/season_service.py:55-60 | distinct (show id, season id) pairs of integers give distinct `tv_show_{show_id}_season_{season_id}.json` names, and likewise for episodes |
| Staging.UploadEachFrame | tvbingefriend_show_sync/services/season_service.py:50-73 | the upload loop removes no blob, changes no other container, and changes only blobs named by the loop |
| Staging.StagedKeys | tvbingefriend_show_sync/services/season_service.py:50-73 | the reference map of staged blobs holds exactly the loop's names in its container |
| Staging.UploadEachStagesAll | tvbingefriend_show_sync/services/season_service.py:50-73 | when every upload is accepted, the loop's result is the old blobs overlaid with the reference map of staged blobs |
| Staging.UploadEachIdempotent | tvbingefriend_show_sync/services/season_service.py:69-73 | re-staging the same list overwrites instead of failing, so the blobs stay the same |
| Staging.StagedDistinct | tvbingefriend_show_sync/services/episode_service.py:47-73 | with distinct names, every entry's blob holds that entry's own data |
| Staging.StageChildren | tvbingefriend_show_sync/services/season_service.py:19-80 | a falsy `show_id` or list stages nothing. A list is staged by the upload loop, one envelope per child. Anything else raises before any upload. No other container changes |
| Staging.ChildPlanNamesDistinct | tvbingefriend_show_sync/services/season_service.py:55-60 | children with distinct integer ids get distinct blob names |
| Staging.StageChildrenOnePerChild | tvbingefriend_show_sync/services/season_service.py:50-73 | each child with a distinct integer id ends up in its own blob as `{show_id, season}` (or `{show_id, episode}`) |
| Staging.StageChildBlobs | tvbingefriend_show_sync/services/episode_service.py:20-76 | the `for` loop over the live storage service leaves the blobs and the outcome that `StageChildren` gives |
| Staging.StageShowDetails | tvbingefriend_show_sync/services/seasons_episodes_service.py:83-92 | a raising catalog call raises; an empty answer stages nothing; otherwise the answer is uploaded as `tv_show_{show_id}.json`, and only that blob can change |
| Staging.FetchAndStage | tvbingefriend_show_sync/services/update_service.py:85-97 | the fetch and upload on the live service equal `StageShowDetails` |
| SeasonService.StageSeasons | tvbingefriend_show_sync/services/season_service.py:19-80 | `stage_seasons` is `StageChildren` of kind "season" into the season-upsert container |
| SeasonService.UpsertSeason | tvbingefriend_show_sync/services/season_service.py:82-98 | a present `season` that is not a dict raises `AttributeError` before the applier runs; otherwise the envelope goes unchanged to the season applier |
| EpisodeService.StageEpisodes | tvbingefriend_show_sync/services/episode_service.py:20-76 | `stage_episodes` is `StageChildren` of kind "episode" into the episode-upsert container |
| EpisodeService.UpsertEpisode | tvbingefriend_show_sync/services/episode_service.py:78-93 | a present `episode` that is not a dict raises `AttributeError`; otherwise the envelope goes unchanged to the episode applier |
| ShowService.StartGetShows | tvbingefriend_show_sync/services/show_service.py:23-40 | `{"page": p}` is sent to the shows queue |
| ShowService.StartGetShowsQueuesOne | tvbingefriend_show_sync/services/show_service.py:31-39 | an accepted start appends exactly one `{"page": p}` message to the shows queue and touches no other queue |
| ShowService.ShowPageStep | tvbingefriend_show_sync/services/show_service.py:42-77 | a missing page does nothing, while page 0 is processed. An empty page stages nothing and queues nothing. A blob upload comes before any successor, so a failed upload queues nothing. Only the page blob can change. A non-empty page `n` is staged and exactly one `{"page": n+1}` is queued |
| ShowService.GetShowPage | tvbingefriend_show_sync/services/show_service.py:42-77 | the live step leaves the blobs, the queues and the outcome that `ShowPageStep` gives |
| ShowService.Successors | tvbingefriend_show_sync/services/show_service.py:71-76 | the successor messages of a walk from page `p` are `{"page": p+1}`, `{"page": p+2}`, ... in order |
| ShowService.WalkStep | tvbingefriend_show_sync/services/show_service.py:56-76 | with no faults, a non-empty page is staged and its successor queued |
| ShowService.WalkContinues | tvbingefriend_show_sync/services/show_service.py:56-76 | after a non-empty page the walk goes on from the next page |
| ShowService.WalkStops | tvbingefriend_show_sync/services/show_service.py:56-58 | an empty page ends the walk with nothing staged and nothing queued |
| ShowService.WalkStagesPages | tvbingefriend_show_sync/services/show_service.py:42-77 | for k non-empty pages followed by an empty one, the walk stages exactly those k page blobs, queues exactly the k successor messages, and stops |
| ShowService.StageShowsForUpsert | tvbingefriend_show_sync/services/show_service.py:79-101 | the loop leaves the blobs and the outcome of the upload loop over the shows, each named by its own id and staged without an envelope |
| ShowService.ShowPlanNamesDistinct | tvbingefriend_show_sync/services/show_service.py:89-93 | shows with distinct integer ids get distinct blob names |
| ShowService.StageShowsOnePerShow | tvbingefriend_show_sync/services/show_service.py:88-100 | when the uploads are accepted, each show ends up in its own blob `tv_show_{id}.json` holding the raw show |
| ShowService.GetAllShowIds | tvbingefriend_show_sync/services/show_service.py:103-107 | the repository's answer is passed through |
| ShowService.UpsertShow | tvbingefriend_show_sync/services/show_service.py:109-117 | the show goes unchanged to the applier |
| SeasonsEpisodesService.StartGetSeasonsEpisodes | tvbingefriend_show_sync/services/seasons_episodes_service.py:31-55 | no ids (query failed or empty table) answers 200 and stages nothing. Otherwise the answer is 202 exactly when the upload of `all_show_ids.json` succeeds. That blob then lists every show id once, and the body counts them. A failure answers 500 and stages nothing. The session is closed on every path |
| SeasonsEpisodesService.QueueEachQueuesAccepted | tvbingefriend_show_sync/services/seasons_episodes_service.py:57-73 | the queue gains exactly the accepted `{'show_id': id}` messages, in the order of the ids |
| SeasonsEpisodesService.QueueEachOtherQueues | tvbingefriend_show_sync/services/seasons_episodes_service.py:60-67 | the loop sends to the season-and-episode queue only |
| SeasonsEpisodesService.AcceptedKeepsEveryAcceptedId | tvbingefriend_show_sync/services/seasons_episodes_service.py:60-72 | a failed send does not stop the others: every id whose message the service accepts is queued |
| SeasonsEpisodesService.AcceptedAll | tvbingefriend_show_sync/services/seasons_episodes_service.py:60-72 | with no rejections, exactly one message per id is queued, in order |
| SeasonsEpisodesService.StageShowIdsForRetrieval | tvbingefriend_show_sync/services/seasons_episodes_service.py:57-73 | the loop with its per-id `try` leaves the queues of the absorbing send loop |
| SeasonsEpisodesService.GetShowSeasonsEpisodes | tvbingefriend_show_sync/services/seasons_episodes_service.py:75-93 | a falsy `show_id` does nothing; otherwise the show is fetched with seasons and episodes embedded and staged as `tv_show_{show_id}.json` |
| SeasonsEpisodesService.SplitShow | tvbingefriend_show_sync/services/seasons_episodes_service.py:95-115 | a falsy show id stages nothing, and an `_embedded` that is not a dict raises. Otherwise seasons are staged only when the list is non-empty, then episodes likewise. Nothing outside the season and episode containers changes and nothing is removed |
| SeasonsEpisodesService.SplitTagsWithShowId | tvbingefriend_show_sync/services/seasons_episodes_service.py:103-115 | every season and every episode is staged in its own blob, in an envelope carrying the show's own id |
| SeasonsEpisodesService.StageShowSeasonsEpisodes | tvbingefriend_show_sync/services/seasons_episodes_service.py:95-115 | the live split leaves the blobs and the outcome of `SplitShow` |
| UpdateService.UpdatesBlobNameInjective | tvbingefriend_show_sync/services/update_service.py:33-34 | different periods get different `updates_{since}.json` blobs |
| UpdateService.StageUpdateList | tvbingefriend_show_sync/services/update_service.py:22-45 | a raising catalog call is absorbed, with nothing staged or raised. An empty answer stages nothing. A non-empty one is stored whole as `updates_{since}.json`, succeeding exactly when the upload is accepted |
| UpdateService.GetUpdates | tvbingefriend_show_sync/services/update_service.py:22-45 | the live step leaves the blobs and the outcome of `StageUpdateList` |
| UpdateService.ShowIdMessagesOnePerKey | tvbingefriend_show_sync/services/update_service.py:110-113 | when every key converts with `int()`, there is one `{"show_id": int(key)}` message per key, in order |
| UpdateService.UpdateEntity | tvbingefriend_show_sync/services/update_service.py:67-71 | the tracking entity is keyed `("show", show_id)` and carries `LastUpdated` |
| UpdateService.TrackOne | tvbingefriend_show_sync/services/update_service.py:55-75 | one show: only the shows-update queue and the tracking table change; a completed step converted the id, queued one `{"show_id": int(id)}` and stored the show's entity under its key; entities stay under their own keys |
| UpdateService.TrackUpdates | tvbingefriend_show_sync/services/update_service.py:47-75 | only the shows-update queue and the tracking table change. A completed run converted every key and queued one `{"show_id": int(id)}` per entry, in order |
| UpdateService.TrackUpdatesKeepsWellKeyed | tvbingefriend_show_sync/services/update_service.py:47-75 | tracking updates keeps every stored entity under its own key |
| UpdateService.TrackUpdatesCompletes | tvbingefriend_show_sync/services/update_service.py:55-75 | with numeric ids and accepting services, the run completes and queues exactly those messages |
| UpdateService.TrackUpdatesRecordsEach | tvbingefriend_show_sync/services/update_service.py:67-75 | each show's tracking entity then holds that entry's `LastUpdated`, replacing what was tracked before, and other shows' entities stay |
| UpdateService.StageUpdatesForUpsert | tvbingefriend_show_sync/services/update_service.py:47-75 | the live loop leaves the queues, the tables and the outcome of `TrackUpdates`, and keeps the storage valid, so the drain can follow it |
| UpdateService.GetShowUpdateDetails | tvbingefriend_show_sync/services/update_service.py:77-97 | the show, fetched without embeds, is staged as `tv_show_{show_id}.json` in the show-upsert container only when the catalog returns data |
| UpdateService.SendShowIds | tvbingefriend_show_sync/services/update_service.py:110-118 | the drain's send loop touches one queue; when it completes, every row key converted and one message per key was queued, in order |
| UpdateService.SendOneId | tvbingefriend_show_sync/services/update_service.py:110-118 | one pass of the drain's send loop: other queues unchanged; when it completes, the key converted and exactly its message was appended |
| UpdateService.QueueShowIds | tvbingefriend_show_sync/services/update_service.py:110-118 | the live send loop leaves the queues and the outcome of `SendShowIds` |
| UpdateService.Drain | tvbingefriend_show_sync/services/update_service.py:99-127 | an empty table does nothing; the table changes only after every staged show was queued |
| UpdateService.DrainEmptiesTable | tvbingefriend_show_sync/services/update_service.py:103-127 | with numeric row keys and accepting services, one message per staged entity is queued, in listing order, and then the tracking table is empty |
| UpdateService.UpdateSeasonsEpisodes | tvbingefriend_show_sync/services/update_service.py:99-127 | a failing table listing raises and changes nothing; otherwise the queues, the tables and the outcome are those of `Drain` for some listing of the table. The storage stays valid |
| BpShows.ParsePage | tvbingefriend_show_sync/blueprints/bp_shows.py:34-50 | an absent or empty `page` means page 0. A page is accepted exactly when `int()` reads it as a non-negative number, and then it is that number. A non-integer and a negative number each get 400 with their own message |
| BpShows.ParsePagePrinted | tvbingefriend_show_sync/blueprints/bp_shows.py:34-44 | a page number written in decimal is accepted as that page when non-negative, and refused with 400 when negative |
| BpShows.StartGetShowsHandler | tvbingefriend_show_sync/blueprints/bp_shows.py:23-55 | a refused parameter is answered at once with nothing queued; a valid page `p` sends `{"page": p}` and answers 202; a failing send escapes |
| BpShows.StartAtQueuesOne | tvbingefriend_show_sync/blueprints/bp_shows.py:51-52 | a valid page parameter leads to exactly one `{"page": p}` message, when the send is accepted |
| BpShows.GetShowPageHandler | tvbingefriend_show_sync/blueprints/bp_shows.py:64-84 | the walker step's error is re-raised, as is `AttributeError` for a message that is not an object |
| BpShows.UpsertShowHandler | tvbingefriend_show_sync/blueprints/bp_shows.py:111-127 | show-upsert errors are swallowed: an object is applied, and anything else writes nothing |
| BpUpdate.ParseSince | tvbingefriend_show_sync/blueprints/bp_update.py:33-40 | a missing `since` means `day`. A present one is accepted exactly when it is `day`, `week` or `month`, so an empty one is refused. A refusal answers 400 |
| BpUpdate.GetUpdatesManually | tvbingefriend_show_sync/blueprints/bp_update.py:21-47 | a refused period stages nothing; a valid one stages that period's update list and answers 202; a failing upload escapes |
| BpUpdate.PeriodsStageSeparately | tvbingefriend_show_sync/blueprints/bp_update.py:35-43 | two different accepted periods stage into two different blobs |
| BpUpdate.GetShowUpdateDetailsHandler | tvbingefriend_show_sync/blueprints/bp_update.py:82-109 | a message with a falsy `show_id` is dropped without fetching. Otherwise the show is re-fetched and staged. Errors are re-raised, including `AttributeError` for a message that is not an object |

## Left out

- Floating-point values in documents are not modelled; `Json` has no float case.
- `Str` prints ints, strings, booleans and `None` as Python does, but a list or dict as a fixed marker instead of its `repr`.
- `json.dumps` is not modelled as text: a stored blob or message is the decoded document tagged as JSON text (`Storage.Stored`).
- `int()` accepts ASCII digits, signs, whitespace and single underscores. Other Unicode digits and whitespace are not modelled.
- Environment configuration is not modelled. The container, queue and table names are their default settings (`Config`), and a changed setting is not modelled.
- The Azure SDK clients, connection handling, queue and container creation, `create_table_if_not_exists` and `delete_table` are foreign calls. Their effects are folded into the map updates, and their failures into `Faults`.
- The order in which Azure lists a table is not modelled: `GetEntities` returns some order listing each entity once.
- A batch transaction is atomic. It is refused whole when a key is absent from the table or listed twice in one batch, following Azure's change-set rules. The model takes that refusal to be an error other than `ResourceNotFoundError`, so the code re-raises it; only a missing table counts as not found. Azure's rule that a batch shares one partition is not modelled.
- `get_entities`' optional `filter_query` (`query_entities` instead of `list_entities`) is not modelled; `GetEntities` is the unfiltered listing, the only one the drain uses.
- MySQL's type casts and unique keys other than `id` are not modelled.
- The schema column sets come from SQLAlchemy mapper introspection and are parameters of the model.
- `db_session_manager`'s commit and rollback are not modelled. An applier's writes stand as they are, and the relational store has no transactions.
- Logging, retries and dequeue counts, the NCRON timer schedules and concurrent or redelivered invocations are runtime policy and are not modelled.
- `get_updates_timer` and the `update_seasons_episodes` timer are plain calls to `get_updates("day")` and `update_seasons_episodes`. They are not modelled separately.
- The blob and queue triggers take their payload already decoded: `json.loads`, `get_json` and reading the input stream are I/O and are not modelled. For the same reason the season, episode and season-episode blueprints are not modelled. They dispatch decoded payloads to the services modelled here.
- ShowService.StageShowsForUpsert: takes the decoded list of shows. Iterating over a decoded object or string, which the code would also attempt, is not modelled.
- UpdateService.StageUpdatesForUpsert: takes the items of the decoded updates dict as a sequence, in insertion order.
- ShowService.GetShowPage: the code increments `message["page"]` in the caller's own dict. The model sends the incremented copy and does not model the caller seeing its dict change.
- ShowService.Walk: the queue-driven chain of page steps is modelled as a function with a fuel bound. A chain longer than the fuel is not modelled, and the lemmas ask for more fuel than pages.
- UpdateService.TrackUpdates: recording an update is not best-effort per item. There is no `try` in the loop, so the first failing conversion, send or upsert ends the run and is raised. The model follows the code.

## Findings

None: no contract showed the code to be wrong.
