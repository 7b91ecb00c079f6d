# Premier League ETL — a Dafny model

This project models the ETL core of a desktop tool that loads English Premier League
match data into a MySQL warehouse.

**Loading.** A football-data CSV file is read and its column names are normalised:
`>` becomes `_2_5O`, `<` becomes `_2_5U`, `.` becomes `_`, and surrounding blanks are
stripped. Columns the staging table `stg_premier_league_raw` does not have are dropped,
and the rest is appended to staging.

**The job.** `trigger_etl_job` moves staging into the warehouse. It opens a `Running`
row in `ETLLog` and then seeds Teams, Seasons, Referees and Divisions. Next it builds
Matches in date/time order and copies MatchStatistics. It marks the log row
`Completed`, then seeds Markets and Bookmakers and expands the wide odds columns into
BettingOdds rows, one per outcome. A stage that raises rolls back what was not yet
committed and marks the log row `Failed`.

**Maintenance.** Five operations stand beside the job:
- folding duplicate bookmaker names into one row;
- truncating every data table;
- clearing the job log;
- listing the job log and the dead letters, newest first;
- a points-per-matchday report with its points rule.

Layout:

| file | module | what it holds |
|---|---|---|
| `wrappers.dfy` | `Wrappers` | `Option` and `Result` |
| `schema.dfy` | `Schema` | dates, cells, staging records, the row types, the job-log and error types |
| `tables.dfy` | `Tables` | a table with an auto-increment counter and a natural key; `INSERT IGNORE` |
| `sorting.dfy` | `Sorting` | a stable sort by an integer key (`ORDER BY`) |
| `column_names.dfy` | `ColumnNames` | the CSV header rename and the column filter of the upload view |
| `derive.dfy` | `Derive` | short names, season names, the odds validity rule, odds expansion, the points rule |
| `stages.dfy` | `Stages` | each step of the job as a function of the tables it reads; the loops as methods proved equal to them |
| `run.dfy` | `Pipeline` | one run as a function of the committed database: commit points, rollback, job log |
| `maintenance.dfy` | `Maintenance` | bookmaker deduplication, truncation, the two listings, the points report |
| `store.dfy` | `Store` | the CSV loader, and the database as a class whose methods change its committed state |

A run is the function `Pipeline.EtlRun(db, clock, seeding)`. `Store.Database.TriggerEtlJob`
performs the same run step by step on the fields of a `Database` object. It is proved
to leave exactly the state and reply that `EtlRun` gives. Every `conn.commit()` of the
source is an assignment to those fields. A stage that raises returns before that
assignment, so its uncommitted work is discarded.

The `seeding` parameter chooses between two readings of step 9. `AsWritten` is the
code as it stands, which raises there (see "## Findings"). `PerName` is the evidently
intended per-name seeding.

## Model

| member | source | states |
|---|---|---|
| Schema.DayNumberOrdersDates | pl_gui/models/etl_model.py:79-80 | the day number orders dates exactly as the calendar does (year, then month, then day), both ways, so MIN/MAX and ORDER BY on dates can be read through it |
| ColumnNames.ReplaceChar | pl_gui/views/etl_control_view.py:82-84 | after `str.replace(c, rep)` no `c` is left when `rep` has none, every character comes from the name or from `rep`, and a name without `c` is returned unchanged |
| ColumnNames.TrimStart | pl_gui/views/etl_control_view.py:85 | the result is a suffix of the name that starts with a non-blank character (or is empty) |
| ColumnNames.TrimEnd | pl_gui/views/etl_control_view.py:85 | the result is a prefix of the name that ends with a non-blank character (or is empty) |
| ColumnNames.NormalizeAll | pl_gui/views/etl_control_view.py:80-86 | one normalised name per header name, position by position |
| ColumnNames.ChainIsSinglePass | pl_gui/views/etl_control_view.py:82-84 | the three chained replacements equal a single left-to-right pass that rewrites `>` to `_2_5O`, `<` to `_2_5U` and `.` to `_` and keeps every other character, so no replacement sees another's output |
| ColumnNames.ReplacementsClean | pl_gui/views/etl_control_view.py:82-84 | after the replacements no `>`, `<` or `.` remains |
| ColumnNames.NormalizedShape | pl_gui/views/etl_control_view.py:80-86 | a normalised name holds no `>`, `<` or `.` and neither starts nor ends with a blank |
| ColumnNames.StripIdle | pl_gui/views/etl_control_view.py:85 | stripping a name with no outer blank leaves it unchanged |
| ColumnNames.NormalizeIdempotent | pl_gui/views/etl_control_view.py:80-86 | normalising an already normalised header changes nothing |
| ColumnNames.KeptPositions | pl_gui/views/etl_control_view.py:89-91 | the kept positions are increasing; each names a staging column, and every staging column's position is among them |
| ColumnNames.Select | pl_gui/views/etl_control_view.py:91 | the selection has one element per position: the element at that position |
| ColumnNames.KeptAreExactlyValid | pl_gui/views/etl_control_view.py:89-91 | a name survives the filter exactly when it is in the header and is a staging column |
| Store.Upload | pl_gui/views/etl_control_view.py:80-91 | the frame's columns are the normalised header filtered to staging columns; one frame row per CSV row, one cell per kept column |
| Store.UploadIsAccepted | pl_gui/views/etl_control_view.py:89-98 | the frame the upload builds is never refused by the loader, which appends one staging row per CSV row |
| Store.RecordOf | pl_gui/models/etl_model.py:32-40 | the staging record of a CSV row holds exactly the frame's columns, each bound to its own cell |
| Store.LoadBatch | pl_gui/models/etl_model.py:24-41 | a batch is refused exactly when it has a column staging lacks, and the error names exactly those columns; otherwise the old staging rows stay first and one record per CSV row follows in file order |
| Store.Database.LoadCsvToStaging | pl_gui/models/etl_model.py:14-44 | staging becomes what `LoadBatch` gives; on refusal nothing changes and the unknown columns are reported; the job log is untouched |
| Tables.Find | pl_gui/models/etl_model.py:132-146 | a lookup by natural key finds a row exactly when the key is stored, and the row it finds carries that key |
| Tables.FindIn | pl_gui/models/etl_model.py:132-146 | finds a row exactly when some row carries the key, and that row is one of them |
| Tables.IdOf | pl_gui/models/etl_model.py:132-146 | an id is found exactly when the key is stored; it is the id of a row with that key, and in a valid table the id of every row with that key |
| Tables.Empty | pl_gui/models/etl_model.py:528-529 | a truncated table has no rows and its counter is back at 1 |
| Tables.InsertIgnore | pl_gui/models/etl_model.py:70-75 | `INSERT IGNORE` of a stored key changes nothing; a new key is appended under the next id and the counter moves on |
| Tables.KeysOfInsert | pl_gui/models/etl_model.py:70-75 | after one insert the stored keys are the old ones plus the inserted key |
| Tables.InsertIgnoreAllKeys | pl_gui/models/etl_model.py:156-171 | after a bulk `INSERT IGNORE` the stored keys are the old keys plus the batch's keys |
| Tables.InsertIgnoreAllKeepsRows | pl_gui/models/etl_model.py:156-171 | rows already stored stay first and unchanged, and the counter never decreases |
| Tables.InsertIgnoreAllNewRows | pl_gui/models/etl_model.py:156-171 | each added row is a pair of the batch whose key was not stored before, with an id at or above the old counter |
| Tables.InsertIgnoreAllRowsFrom | pl_gui/models/etl_model.py:156-171 | every row afterwards was stored before or is a pair of the batch |
| Tables.InsertIgnoreAllPresent | pl_gui/models/etl_model.py:156-171 | a batch whose keys are all stored changes nothing |
| Tables.InsertIgnoreAllTwice | pl_gui/models/etl_model.py:156-171 | inserting the same batch twice is the same as once |
| Tables.InsertIgnoreValid | pl_gui/models/etl_model.py:70-75 | one insert keeps ids positive, below the counter and distinct, and natural keys distinct |
| Tables.InsertIgnoreAllValid | pl_gui/models/etl_model.py:156-171 | a bulk insert keeps the same table invariant |
| Sorting.InsertByKey | pl_gui/models/etl_model.py:124 | inserting into a sorted sequence keeps it sorted and adds exactly one occurrence of the element |
| Sorting.SortBy | pl_gui/models/etl_model.py:124 | the result is sorted by the key and is a permutation of the input |
| Derive.ShortName | pl_gui/models/etl_model.py:74 | the short name is the first 12 characters of the team name, or all of it when shorter |
| Derive.TwoDigits | pl_gui/models/etl_model.py:82 | two decimal digits whose value is the number (`{:02d}`) |
| Derive.SeasonName | pl_gui/models/etl_model.py:80-82 | five characters with `-` in the middle |
| Derive.SeasonNameDecodes | pl_gui/models/etl_model.py:80-82 | the digits before and after `-` read back as the first and last years modulo 100 |
| Derive.SeasonNameInjective | pl_gui/models/etl_model.py:80-82 | two date ranges share a season name exactly when their years agree modulo 100 |
| Derive.BookmakerNames | pl_gui/models/etl_model.py:248-253 | one name per entry of the bookmaker map, each the name of that entry, in map order |
| Derive.BookmakerNamesAre | pl_gui/models/etl_model.py:248-253 | the names are Bet365, Bet&Win, Interwetten and Pinnacle Sports, in that order |
| Derive.BookmakerOdds | pl_gui/models/etl_model.py:302-311 | at most one row per outcome column, each above 1.0 and carrying the match and the bookmaker |
| Derive.BookmakerOddsExact | pl_gui/models/etl_model.py:302-311 | an outcome gets a row exactly when its column holds odds above 1.0, and the row carries those odds |
| Derive.OutcomeComesFromColumns | pl_gui/models/etl_model.py:302-311 | every outcome code in the rows is one of the bookmaker's columns |
| Derive.RowOdds | pl_gui/models/etl_model.py:298-311 | per joined row: at most one row per column of the map, each above 1.0, for this match and market, under the id of a bookmaker of the map |
| Derive.RowOddsBounds | pl_gui/models/etl_model.py:248-253 | the full-time result map has 12 odds columns and the Over/Under map 4 |
| Derive.Points | pl_gui/models/etl_model.py:652-658 | points are 0, 1 or 3; 1 exactly for a draw the team played in; 3 exactly for a home win at home or an away win away |
| Derive.PointsPerMatch | pl_gui/models/etl_model.py:652-658 | a decided match between two teams hands out 3 points in all for a win and 2 for a draw |
| Stages.Distinct | pl_gui/models/etl_model.py:65-69 | `DISTINCT`: the same values, each once |
| Stages.ColumnValues | pl_gui/models/etl_model.py:65-69 | one value per staging row, the value of that column, NULL where it is missing |
| Stages.NonEmptyTexts | pl_gui/models/etl_model.py:91-95 | exactly the non-NULL, non-empty values the column mentions |
| Stages.TeamCandidates | pl_gui/models/etl_model.py:65-69 | exactly the values, NULL included, of the home and away team columns |
| Stages.TeamRows | pl_gui/models/etl_model.py:64-76 | step 1 raises exactly when a team name is NULL (`team[:12]` on None) |
| Stages.TeamRowsSpec | pl_gui/models/etl_model.py:64-76 | otherwise the team rows name every home or away team once each, each with its short name |
| Stages.StagingDates | pl_gui/models/etl_model.py:79 | exactly the non-NULL dates of staging |
| Stages.Earliest | pl_gui/models/etl_model.py:79 | `MIN(Date)`: a date of the list no later than any other |
| Stages.Latest | pl_gui/models/etl_model.py:79 | `MAX(Date)`: a date of the list no earlier than any other |
| Stages.SeasonRow | pl_gui/models/etl_model.py:79-87 | step 2 raises exactly when staging has no date; otherwise the season spans the earliest to the latest staging date and is named from their years |
| Stages.PairWith | pl_gui/models/etl_model.py:100 | each name paired with the same default details, the names as keys |
| Stages.RefereeRows | pl_gui/models/etl_model.py:90-102 | exactly the non-empty referee names of staging, with unknown experience and nationality |
| Stages.DivisionRows | pl_gui/models/etl_model.py:105-117 | exactly the non-empty division codes of staging, each as the English Premier League, tier 1 |
| Stages.SeedReferences | pl_gui/models/etl_model.py:64-117 | steps 1 to 4 report four lines: teams, season, referees, divisions |
| Stages.InDateTimeOrder | pl_gui/models/etl_model.py:120-125 | `ORDER BY Date, Time`: a permutation of staging sorted by date, then time |
| Stages.LatestSeason | pl_gui/models/etl_model.py:132-133 | the season with the latest start date; none exactly when Seasons is empty |
| Stages.TeamId | pl_gui/models/etl_model.py:138-142 | a team id is found exactly for a non-NULL name stored in Teams, and it is the TeamID of a Teams row with that name |
| Stages.MatchTupleSpec | pl_gui/models/etl_model.py:129-154 | a resolved match carries the latest season, the row's date, time and teams, its score, and a referee exactly when the name is known; the only errors are a missing season, division or team |
| Stages.MapAllOneEach | pl_gui/models/etl_model.py:129-154 | the loop succeeds exactly when every row resolves, and then yields one tuple per row in order |
| Stages.MapAllErrorPersists | pl_gui/models/etl_model.py:129-154 | once a prefix of the rows raises, the whole loop raises the same error |
| Stages.MapAllError | pl_gui/models/etl_model.py:129-154 | the error the loop raises is the error of one of the rows |
| Stages.MatchDataOneEach | pl_gui/models/etl_model.py:129-154 | `match_data` exists exactly when every staging row resolves, with one tuple per row |
| Stages.MatchDataErrors | pl_gui/models/etl_model.py:129-154 | building matches raises only a missing season, division or team |
| Stages.BuildMatchData | pl_gui/models/etl_model.py:127-154 | the loop returns exactly the match data, or the first row's error |
| Stages.MatchStageCount | pl_gui/models/etl_model.py:156-173 | the reported match count is the number of staging rows |
| Stages.JoinMatchId | pl_gui/models/etl_model.py:187-198 | a match id is found exactly when the row has a date and a time, both team names resolve, and a stored match has the key (date, time, home id, away id); the id is that of a Matches row with exactly that key |
| Stages.StatLine | pl_gui/models/etl_model.py:176-186 | one value per statistics column, each the row's whole number in that column (NULL when absent) |
| Stages.FilterMap | pl_gui/models/etl_model.py:185-201 | keeping only the rows a lookup finds gives at most one element per row |
| Stages.FilterMapSpec | pl_gui/models/etl_model.py:185-201 | an element is kept exactly when some row's lookup produced it |
| Stages.FilterMapSource | pl_gui/models/etl_model.py:185-201 | names the row a kept element came from |
| Stages.StatData | pl_gui/models/etl_model.py:185-201 | at most one statistics row per staging row |
| Stages.StatDataSpec | pl_gui/models/etl_model.py:185-201 | a statistics row exists exactly for a staging row whose match is found, and holds that match's id and that row's twelve counts; unmatched rows are skipped |
| Stages.BuildStatData | pl_gui/models/etl_model.py:185-201 | the loop returns exactly the statistics data |
| Stages.StatisticsStage | pl_gui/models/etl_model.py:176-220 | the statistics count is at most the number of staging rows |
| Stages.MarketId | pl_gui/models/etl_model.py:276-284 | the market lookup raises exactly when the market is not stored |
| Stages.MarketsFoundAfterSeeding | pl_gui/models/etl_model.py:235-245 | after step 8 both the full-time result market and the Over/Under 2.5 market are found |
| Stages.BookmakerIdOf | pl_gui/models/etl_model.py:270-273 | an id is found exactly when a row has the name, and it is the id of such a row |
| Stages.SeedBookmaker | pl_gui/models/etl_model.py:257-263 | after seeding a name, a row with that name exists; the Bookmakers primary key and the auto-increment counter stay valid |
| Stages.SeedBookmakersValid | pl_gui/models/etl_model.py:257-267 | seeding a list of names keeps bookmaker ids positive, distinct and below the counter |
| Stages.SeedBookmakersSnoc | pl_gui/models/etl_model.py:265-266 | seeding a list and then one more name is seeding the longer list |
| Stages.SeedBookmakersKeeps | pl_gui/models/etl_model.py:257-267 | seeding only appends rows, and a name that had an id keeps it |
| Stages.SeedBookmakersFinds | pl_gui/models/etl_model.py:257-273 | after seeding every name of the map has a row |
| Stages.SeedBookmakersIdle | pl_gui/models/etl_model.py:257-267 | seeding names that are all present changes nothing |
| Stages.BookmakerIds | pl_gui/models/etl_model.py:269-273 | the id map exists exactly when every name is found, has exactly the map's names as keys, and holds each name's first id |
| Stages.JoinRows | pl_gui/models/etl_model.py:287-295 | the join pairs a staging row with a match id exactly when the match of its date, time and teams is found; at most one pair per row |
| Stages.OddsData | pl_gui/models/etl_model.py:298-311 | every odds row is above 1.0 and carries the market |
| Stages.OddsDataBound | pl_gui/models/etl_model.py:298-311 | at most as many odds rows as joined rows times the map's columns |
| Stages.BuildOddsData | pl_gui/models/etl_model.py:297-311 | the outer loop returns exactly the odds data |
| Stages.BuildRowOdds | pl_gui/models/etl_model.py:302-311 | the inner loop over the bookmaker map returns exactly the row's odds |
| Stages.OverUnderNamesCovered | pl_gui/models/etl_model.py:334-337 | every bookmaker of either map has an id once the four names are found |
| Stages.SeedReferencesFixpoint | pl_gui/models/etl_model.py:64-117 | steps 1 to 4 on tables that hold what they wrote change nothing and report the same lines |
| Stages.MatchStageFixpoint | pl_gui/models/etl_model.py:120-173 | step 5 on the matches it wrote changes nothing and reports the same count |
| Stages.StatisticsStageFixpoint | pl_gui/models/etl_model.py:176-220 | step 6 on the statistics it wrote changes nothing and reports the same count |
| Stages.MarketStageFixpoint | pl_gui/models/etl_model.py:235-245 | step 8 on the markets it wrote changes nothing |
| Pipeline.UpdateLog | pl_gui/models/etl_model.py:224-231 | `UPDATE ... WHERE LogID`: only rows with that id change, the counter and the dead letters do not |
| Pipeline.UpdateOpenedLog | pl_gui/models/etl_model.py:54-59 | opening a log row and updating it by its id leaves every earlier row as it was and changes only the new row |
| Pipeline.OddsPhaseAudit | pl_gui/models/etl_model.py:381-395 | steps 9 to 12 touch the log only through the failure handler |
| Pipeline.RunAudit | pl_gui/models/etl_model.py:54-59 | the log after a run: opened and marked Completed on success; on failure marked Failed, on top of the open row or of the Completed one |
| Pipeline.RunLog | pl_gui/models/etl_model.py:222-232 | a run appends one log row with a fresh id; it ends Completed with the staging row count exactly when the run succeeds, and otherwise ends Failed with 0 processed, 1 failed and the error; no other row and no dead letter changes |
| Pipeline.MatchesLoadedCount | pl_gui/models/etl_model.py:156-173 | when steps 1 to 5 succeed, RecordsProcessed is the number of staging rows and staging is unchanged |
| Pipeline.MatchesLoadedLines | pl_gui/models/etl_model.py:64-117 | steps 1 to 4 contribute one summary line each, in order |
| Pipeline.EarlyFailureRollsBack | pl_gui/models/etl_model.py:381-395 | a failure in steps 1 to 5 leaves the warehouse as it was, and the run reports that error |
| Pipeline.OddsPhaseSucceeds | pl_gui/models/etl_model.py:269-284 | the bookmaker and market lookups cannot fail once both markets are stored |
| Pipeline.PerNameRunFailsOnlyEarly | pl_gui/models/etl_model.py:46-399 | with per-name seeding a run fails exactly when steps 1 to 5 do |
| Pipeline.AsWrittenRunAlwaysFails | pl_gui/models/etl_model.py:257-267 | as written every run fails and writes no bookmaker and no odds; when steps 1 to 5 succeed, it fails with the unbound name after committing teams through markets, and its log row goes from Completed to Failed |
| Pipeline.MatchesLoadedErrors | pl_gui/models/etl_model.py:64-173 | steps 1 to 5 never raise the unbound bookmaker name |
| Pipeline.InsertPayable | pl_gui/models/etl_model.py:313-319 | inserting odds above 1.0 into a table whose odds are above 1.0 keeps them all above 1.0 |
| Pipeline.RunKeepsOddsPayable | pl_gui/models/etl_model.py:306-311 | every stored OddsValue stays above 1.0 across any run |
| Pipeline.OddsPhaseSummary | pl_gui/models/etl_model.py:320 | steps 11 and 12 add two summary lines, with at most 12 and 4 odds rows per staging row |
| Pipeline.RunSummary | pl_gui/models/etl_model.py:76-379 | a successful run reports nine lines in step order: one match per staging row, at most one statistics row per staging row, two markets, at most 12 full-time result odds and 4 Over/Under odds per staging row |
| Pipeline.OddsPhaseFrame | pl_gui/models/etl_model.py:257-377 | steps 9 to 12 write only Bookmakers and BettingOdds, and whatever they commit, Bookmakers is the per-name seeding of the map's names |
| Pipeline.MatchesLoadedKeepsBookmakers | pl_gui/models/etl_model.py:62-172 | steps 1 to 5 leave Bookmakers and its counter as they were |
| Pipeline.RunBookmakers | pl_gui/models/etl_model.py:46-399 | after a run Bookmakers is the per-name seeding of the map's names when steps 1 to 5 succeed with the intended seeding, and untouched otherwise |
| Pipeline.RunKeepsBookmakersValid | pl_gui/models/etl_model.py:46-399 | a run keeps bookmaker ids positive, distinct and below the counter |
| Pipeline.OddsPhaseFixpoint | pl_gui/models/etl_model.py:257-377 | steps 9 to 12 on the tables they produced change nothing and report the same counts |
| Pipeline.MatchesLoadedFixpoint | pl_gui/models/etl_model.py:64-173 | steps 1 to 5 on tables that hold what they wrote change nothing |
| Pipeline.RerunChangesOnlyAudit | pl_gui/models/etl_model.py:46-399 | running the job again right after a success leaves every data table as it is and reports the same summary |
| Store.Database.TriggerEtlJob | pl_gui/models/etl_model.py:46-399 | the step-by-step run leaves exactly the committed state and reply of `EtlRun`, and keeps the Bookmakers invariant `Valid` |
| Store.Database.SeedBookmakerRows | pl_gui/models/etl_model.py:257-267 | the bookmakers become the per-name seeding of the map's names; nothing else changes |
| Store.Database.SeedAll | pl_gui/models/etl_model.py:265-266 | the loop over the names computes the seeding of the whole list |
| Store.Database.OddsSteps | pl_gui/models/etl_model.py:248-377 | steps 9 to 12 leave exactly the state and reply of `OddsPhase` |
| Maintenance.NameCount | pl_gui/models/etl_model.py:792-797 | `COUNT(*)` per name is the number of rows a filter on that name keeps, and at most the number of rows |
| Maintenance.DuplicateNamesSpec | pl_gui/models/etl_model.py:792-797 | `HAVING COUNT(*) > 1`: a name is reported exactly when two rows carry it |
| Maintenance.MinId | pl_gui/models/etl_model.py:806-810 | `MIN(BookmakerID)` per name: a row of that name with an id no larger than any other of that name |
| Maintenance.RowWithId | pl_gui/models/etl_model.py:803-813 | the row with an id, found exactly when there is one |
| Maintenance.Repoint | pl_gui/models/etl_model.py:803-816 | the UPDATE keeps every odds row in place, and each row's bookmaker becomes the minimum id of its bookmaker's name |
| Maintenance.OddsKeysUnique | pl_gui/models/etl_model.py:803-816 | true exactly when no two odds rows share the unique key |
| Maintenance.Filter | pl_gui/models/etl_model.py:819-828 | `DELETE ... WHERE NOT ...`: exactly the rows the condition keeps |
| Maintenance.KeepMinimum | pl_gui/models/etl_model.py:819-828 | exactly the rows whose id is the minimum of their name |
| Maintenance.FilterIdsDistinct | pl_gui/models/etl_model.py:819-828 | deleting rows keeps bookmaker ids distinct |
| Maintenance.DeduplicateIdle | pl_gui/models/etl_model.py:797-799 | with no duplicated name the operation changes nothing and says so |
| Maintenance.SingleRowIsMinimum | pl_gui/models/etl_model.py:797-799 | with no duplicated name every row holds its name's minimum id |
| Maintenance.KeptRowsShape | pl_gui/models/etl_model.py:819-828 | the minimum-id rows hold every name exactly once |
| Maintenance.DeduplicateKeepsMinimum | pl_gui/models/etl_model.py:787-841 | after a successful repair exactly the minimum-id row of each name remains, no name is duplicated, and the reply counts the duplicated names (or says there were none exactly when there were none) |
| Maintenance.RepointToSurvivor | pl_gui/models/etl_model.py:803-816 | an odds row that pointed at a bookmaker now points at the surviving row of that bookmaker's name |
| Maintenance.DeduplicateRepoints | pl_gui/models/etl_model.py:803-816 | a successful repair adds and deletes no odds row, changes only the bookmaker of each, points it at the survivor of its name, and keeps the odds unique key |
| Maintenance.DeduplicateTwice | pl_gui/models/etl_model.py:787-841 | a second repair right after a successful one finds nothing to do |
| Maintenance.DeduplicateKeepsBookmakersValid | pl_gui/models/etl_model.py:819-828 | the repair only deletes Bookmakers rows, so ids stay positive, distinct and below the counter |
| Store.Database.DeduplicateBookmakers | pl_gui/models/etl_model.py:787-848 | on success Bookmakers and BettingOdds become what `Deduplicate` gives; on an error both are rolled back; the Bookmakers invariant `Valid` is kept |
| Maintenance.TruncateAllClears | pl_gui/models/etl_model.py:528-529 | truncating a list of tables empties exactly the tables it names and leaves the others |
| Maintenance.TruncateCleared | pl_gui/models/etl_model.py:529 | truncating one more table extends the set of emptied tables by it |
| Maintenance.CleanAllEmpties | pl_gui/models/etl_model.py:516-529 | the nine data tables are emptied with their counters reset; bookmakers are untouched |
| Store.Database.CleanAllTables | pl_gui/models/etl_model.py:506-540 | succeeds exactly when no TRUNCATE raises, and then the nine tables are emptied; otherwise nothing changes and the failing table is named |
| Store.Database.ClearEtlLogs | pl_gui/models/etl_model.py:560-573 | on success the log is empty and its counter is back at 1; on failure nothing changes; the warehouse is untouched |
| Maintenance.NewestRunsFirst | pl_gui/models/etl_model.py:478-481 | the job log as a permutation of its rows, latest start first |
| Maintenance.NewestFailuresFirst | pl_gui/models/etl_model.py:496-499 | the dead letters as a permutation of their rows, latest error first |
| Store.Database.FetchEtlLog | pl_gui/models/etl_model.py:470-486 | every log row, once each, latest start first |
| Store.Database.FetchDeadLetter | pl_gui/models/etl_model.py:488-504 | every dead letter, once each, latest error first |
| Maintenance.DateKeyOrder | pl_gui/models/etl_model.py:665 | rows ordered by the date key keep dated rows in calendar order after any NULL date |
| Maintenance.PlayedMatches | pl_gui/models/etl_model.py:660-664 | exactly the stored matches of the season, with the team at home or away and a result H, D or A |
| Maintenance.ScoreRows | pl_gui/models/etl_model.py:650-665 | one row per match in date order, with its date and the team's points by the points rule; points are 0, 1 or 3; dates do not decrease |
| Maintenance.PointsQuery | pl_gui/models/etl_model.py:650-665 | the query's points are 0, 1 or 3 and its dated rows come in calendar order |
| Maintenance.Numbered | pl_gui/models/etl_model.py:670-671 | matchdays number the rows 1, 2, 3, … in order, keeping date and points |
| Maintenance.TeamPointsByMatchday | pl_gui/models/etl_model.py:646-672 | row i has matchday i+1 and 0, 1 or 3 points; dated rows come in calendar order |
| Maintenance.TeamPointsRowsAreMatches | pl_gui/models/etl_model.py:646-672 | an unknown season or team gives no rows; otherwise one row per played match of the team in that season, each that match's date and points |
| Maintenance.NumberedScoresAreMatches | pl_gui/models/etl_model.py:660-671 | numbering the scored, date-ordered played matches gives one row per match, each built from one of them |
| Store.Database.GetTeamPointsByMatchday | pl_gui/models/etl_model.py:646-674 | returns the report of the current warehouse and changes nothing |

## Left out

- CSV parsing with pandas, the `latin1` decoding and the date/time parsing (`pd.to_datetime`, pl_gui/views/etl_control_view.py lines 77, 94-95). The frame arrives already parsed; a time that fails to parse is a NULL cell.
- Store.Upload: requires every CSV row to have one cell per header column, which the CSV reader guarantees.
- Store.RecordOf: a header that names a column twice is not modelled; the first occurrence is the one bound.
- `datetime.now()`. The three readings of a run (start, completed, failed) are the `Clock` parameter.
- Collation. MySQL compares names case-insensitively and ignores trailing blanks; the model compares strings exactly.
- Implicit commits. MySQL commits implicitly at TRUNCATE and ALTER TABLE. The model follows the code's stated intent that a rollback undoes the whole operation. `SET FOREIGN_KEY_CHECKS` is not modelled.
- Auto-increment counters are rolled back with the data in the model. MySQL does not return ids it handed out in a rolled-back transaction.
- NULL handling in unique keys. MySQL lets two Matches rows share a key that holds NULL (date or time); the model treats NULL as an ordinary key value there.
- Messages. Error text (`str(e)`, the `RuntimeError` wrappers) is the `EtlError` value, and the summary strings are `SummaryLine` values.
- Stages.OddsData: step 12 builds its SELECT from `set(all_columns)` (line 344), so the column order, and with it which value is read as MatchID, over and under, is arbitrary. The model reads each bookmaker's over and under columns by name, which is the evident intent.
- Tie order. `ORDER BY` does not fix the order of equal keys; the model uses a stable sort, which is one of the orders MySQL may return.
- Stages.Distinct, Stages.TeamCandidates, Stages.TeamRows, Stages.RefereeRows, Stages.DivisionRows and Stages.JoinRows: the `SELECT DISTINCT` queries of steps 1, 3 and 4 (pl_gui/models/etl_model.py lines 63-67, 89-93, 104-108) and the odds joins of steps 11 and 12 (lines 287-295, 345-352) have no `ORDER BY`, so MySQL may return their rows in any order. The model fixes one order: staging order of first occurrence (home names before away names for teams), and staging order for the joins. That order decides which surrogate id each new team, referee and division receives, and, when two staging rows resolve to the same match, which odds value `INSERT IGNORE` keeps. Other orders are not captured.
- Pipeline.EtlRun and Store.Database.TriggerEtlJob: a statement that raises for a storage reason (deadlock, lost connection, lock timeout, a full disk) is not modelled. The run fails only on errors that follow from the data and the reference tables. In the source such a failure between two commits (lines 172, 219, 232, 244, 267, 319 and 376 of pl_gui/models/etl_model.py) rolls back to the last commit and marks the log row Failed; the model has no such outcome, so Pipeline.PerNameRunFailsOnlyEarly and Pipeline.OddsPhaseSucceeds hold only for runs without storage errors.
- Schema.TextAt, Schema.WholeAt, Schema.NumberAt, Schema.DateAt and Schema.TimeAt: a cell of a different kind than the one read (text where a number is expected) reads as NULL. Python would raise or compare values of mismatched types. The model assumes each staging column holds cells of its own kind.
- Maintenance.Deduplicate: of the errors the repointing UPDATE can raise, only the clash with the BettingOdds unique key is modelled. The ALTER TABLE outcome is the `constraintFails` flag: true stands for an error other than the tolerated "Duplicate" or "already exists".
- Store.Database.CleanAllTables and Store.Database.ClearEtlLogs: a database error is the `failAt` / `fails` parameter rather than something the model derives.
- A failure of the log insert itself (lines 55-59), and `if log_id` with id 0, are not modelled; the run always starts with a log row.
- Lines 400-468 of pl_gui/models/etl_model.py come after the `finally` of `trigger_etl_job` and can never run. They are not modelled.
- Connections, cursors and their closing are not modelled.
- The reads of the other views and dialogs (league tables, referee and odds statistics, user management) are not part of this model.

## Findings

| source | as written | input that shows it | evidently intended | confidence | as-written member | corrected member |
|---|---|---|---|---|---|---|
| pl_gui/models/etl_model.py:264-266 | line 264 reads `name` before the `for` of line 265 binds it, so the statement raises `UnboundLocalError`. Line 266 then passes one parameter for a statement with two placeholders | any staging batch that gets through steps 1 to 5; the run fails at step 9 after teams, matches, statistics and markets are committed and the log row was already marked Completed, and no odds are ever loaded | insert each bookmaker name of the map unless a row with that name exists, then load the odds | not executed | Pipeline.AsWrittenRunAlwaysFails | Pipeline.PerNameRunFailsOnlyEarly |
