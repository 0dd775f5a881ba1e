# mlb: the Statcast pitch-data download engine, in Dafny

This project models the core of the `mlb` Python package. That core is the
incremental engine that keeps a season's Statcast pitch data on disk, plus
the small helpers it relies on.

The engine (`mlb/statcast/pitch_data.py`) works in four stages:

- **Plan.** For every game date it decides whether to download every
  pitch or only the batted-ball events (BBE). It decides from two things:
  the per-date non-BBE files on disk and their row counts, and the
  per-date row counts in the master BBE file.
- **Execute.** It walks the dates with two search windows, one for "all
  pitches" and one for "BBE only". Each window is cut before the search
  would return more than 25,000 rows (a single date above that is
  searched alone), and again at every date that does
  not need a download and at the last date. A failed search is counted,
  and the walk goes on.
- **Write.** For an all-pitch search it writes one non-BBE file per date.
  It then merges the search's BBE rows into the master BBE file,
  replacing the rows of the dates it touched.
- **Combine and clean.** It assembles the season's rows and fixes each
  row's wOBA fields from per-season constants.

Modules:

- `Common`: the exception kinds, `str.lower`, `str.replace` with one
  character, and `os.path.join`.
- `Dates`: `date.isoformat()`, `strptime("%Y-%m-%d")`, and Python's
  string `<`.
- `Tables`: pitch rows, boolean-mask filters, `unique()`, and the
  three-column sort.
- `FileUtils`: file freshness, the CSV row-count check, and date-stamped
  file names.
- `StatsApi`: game-type names, season validation, and query-parameter
  construction.
- `Schedule`: `Schedule.__init__`.
- `Woba`: the wOBA weight lookup and the refresh decision of
  `load_from_file`.
- `Stats`: the integer counters of `Stats.add_pitch`.
- `Roster`: `Roster`.
- `Search`: the Statcast query parameters, the `StatcastSearch` session,
  and the HTTP retry loop.
- `PitchData`: the planner, the writer, the combiner, the cleaner, and
  `SeasonPitchData.__init__`.
- `Executor`: `execute`.
- `Season`: `SeasonPitchData.refresh`.

How the environment is modelled:

- **Files.** The file system is a `FileMap`, from path to rows plus a
  creation date. It is held by a `Disk` object that the writing methods
  modify.
- **Server.** The Statcast server is an oracle sequence of responses, and
  each request consumes one. When the sequence runs out, the request
  raises a connection error, which is a `RequestException`.
- **Dates.** `date.today()` is a parameter, and `THIS_YEAR` is the
  parameter `thisYear`.
- **Pitch counts.** Statcast's per-date pitch counts (the pitch count
  summary) are an input.

Where the source changes state in place, the model does too:

- `execute` is a method with the source's nested loops over days and
  plans, and the plans are `SearchPlan` objects. The method is proved
  equal to a fold (`Executor.ExecuteSpec`), and the properties are proved
  about the fold.
- `download_pitch_data` is a read-modify-write of the `Disk`.
- `clean_pitch_data` rewrites an `array` of rows.
- `Stats.add_pitch`, `Roster.add_player` and `get_schedule`'s defaulting
  update their objects.

## Model

| member | source | states |
|---|---|---|
| Common.Lower | mlb/baseball/roster.py:20 | lower-casing keeps the length and maps each ASCII capital to its small letter, everything else unchanged |
| Common.LowerIdempotent | mlb/baseball/roster.py:20 | lower-casing twice is lower-casing once, so comparing `.lower()` of both sides is a case-insensitive equality |
| Common.RemoveChar | mlb/stats/stats.py:111 | `replace(c, "")` removes every `c` and keeps every other character exactly as often as it occurs |
| Common.RemoveCharAppend | mlb/stats/stats.py:111 | `replace(c, "")` works piecewise, so the kept characters stay in their order |
| Common.LowerAppend | mlb/stats/stats.py:111 | `lower()` works piecewise |
| Common.NatToString | mlb/statcast/pitch_data.py:570 | a season formatted into a file name is a non-empty run of decimal digits whose value is the season |
| Common.PathJoin | mlb/statcast/pitch_data.py:280 | `os.path.join` adds exactly one `/` between directory and name unless the directory already ends in one, and gives the bare name for an empty directory |
| Dates.IsoFormat | mlb/statcast/pitch_data.py:229-231 | `isoformat()` is ten characters with dashes at positions 4 and 7 |
| Dates.ParseYmd | mlb/schedule.py:40 | whatever `strptime("%Y-%m-%d")` accepts is a real calendar date |
| Dates.ParseIsoFormat | mlb/schedule.py:40 | round trip: `strptime` accepts every `isoformat()` string and gives back the same date |
| Dates.IsoFormatOrder | mlb/schedule.py:46 | comparing ISO date strings with `<` is comparing the dates |
| Dates.IsoFormatInjective | mlb/statcast/pitch_data.py:511 | different dates have different ISO strings |
| Dates.StrLtTotal | mlb/schedule.py:46 | Python's string `<` is total: of two different strings one is smaller |
| Tables.SortByKey | mlb/statcast/pitch_data.py:372-376 | the sort is a permutation of its input and is ordered by game_pk descending, then at_bat_number and pitch_number ascending |
| Tables.Filter | mlb/statcast/pitch_data.py:387 | a row-wise mask keeps exactly the kept rows, each with its multiplicity |
| Tables.UniqueDates | mlb/statcast/pitch_data.py:378 | `unique()` lists each game date of the table exactly once and no other |
| Tables.CountOnDate | mlb/statcast/pitch_data.py:264 | a date's row count is zero exactly when no row has that date |
| FileUtils.IsFileStale | mlb/utils/file_utils.py:8-14 | a missing file is stale; an existing one is stale exactly when created on or before the cut-off |
| FileUtils.StaleBoundary | mlb/utils/file_utils.py:9-12 | a file created on the cut-off date is stale, one created after it is fresh |
| FileUtils.CsvRowCountCheck | mlb/utils/file_utils.py:17-32 | true exactly when the file exists and holds the expected number of rows; false for a missing file |
| FileUtils.LastIndexOf | mlb/utils/file_utils.py:46 | the split point of `rsplit(".", 1)` is a dot with no dot after it, or there is no dot at all |
| FileUtils.DefaultStamp | mlb/utils/file_utils.py:35 | the default `%Y%m%d` stamp is eight digits |
| FileUtils.DefaultStampFields | mlb/utils/file_utils.py:35 | the stamp's first four digits are the year, the next two the month and the last two the day |
| FileUtils.AddDateToFileName | mlb/utils/file_utils.py:46-48 | the stamp goes in as a new component just before the last dot, or is appended after a dot when there is none |
| FileUtils.AddDateKeepsExtension | mlb/utils/file_utils.py:46-48 | `a.b.log` becomes `a.b.<stamp>.log`: the part before the last dot and the extension are unchanged, and the extension stays last |
| FileUtils.AddDateNoDot | mlb/utils/file_utils.py:46-48 | a name without a dot gets the stamp as its extension |
| StatsApi.GameTypeStr | mlb/statsapi/statsapi.py:39-59 | S, R, F, D, L, W map to Preseason, Regular, Wildcard, DivisionSeries, LeagueChampionshipSeries, WorldSeries; exactly the other codes give "Unknown" |
| StatsApi.IsValidMlbSeason | mlb/statsapi/statsapi.py:62-71 | a season is valid exactly when 1876 <= season <= this year + 1 |
| StatsApi.TeamRosterParams | mlb/statsapi/statsapi.py:99-108 | an invalid given season is a ValueError; otherwise hydrate=person, season exactly when given, rosterType exactly for fullRoster or active |
| StatsApi.AllPlayersParams | mlb/statsapi/statsapi.py:128-134 | an invalid given season is a ValueError; otherwise hydrate=person plus the season exactly when one is given |
| StatsApi.ScheduleRequestParams | mlb/statsapi/statsapi.py:196-203 | a missing dict becomes a new one; lang=en and sportId=1 are added only when absent, into the caller's own dict, and caller values are kept |
| StatsApi.TeamsForSeasonParamsAsWritten | mlb/statsapi/statsapi.py:154-160 | as written: the parameters are the shared defaults object, and a valid season is stored into it |
| StatsApi.TeamsForSeasonLeak | mlb/statsapi/statsapi.py:154-160 | after a call for 2022, a call without a season still sends season 2022 |
| StatsApi.TeamsForSeasonParams | mlb/statsapi/statsapi.py:154-160 | corrected: an invalid given season is a ValueError; otherwise the defaults plus the season, if given, with the other defaults kept |
| StatsApi.TeamsForSeasonNoLeak | mlb/statsapi/statsapi.py:154-160 | corrected: a call without a season sends exactly the defaults, without a season |
| StatsApi.TeamsForSeasonParamsCopy | mlb/statsapi/statsapi.py:154-160 | corrected, on the shared defaults object: the parameters are a new dict equal to the corrected value, and the defaults are not written |
| StatsApi.TeamsForSeasonNoLeakTwice | mlb/statsapi/statsapi.py:154-160 | corrected: after a call for 2022, a call without a season sends no season |
| Schedule.CompletedDates | mlb/schedule.py:44-47 | the completed dates are exactly the scheduled dates strictly before today |
| Schedule.CompletedIsPrefix | mlb/schedule.py:44-47 | for an ascending schedule the completed dates are a prefix of it |
| Schedule.CompletedNone | mlb/schedule.py:44-47 | before the first date nothing is completed |
| Schedule.CompletedAll | mlb/schedule.py:44-47 | after the last date everything is completed |
| Schedule.NewSchedule | mlb/schedule.py:21-51 | unknown game type, then invalid season, are ValueErrors in that order; no dates is an IndexError; on success the opening day is the first date parsed and the completed dates are the filter, non-empty |
| Schedule.AfterSeason | mlb/schedule.py:44-51 | after the season every date is completed and the most recent game date is the last scheduled one |
| Schedule.MidSeason | mlb/schedule.py:44-51 | in mid-season the last scheduled date is not completed and the most recent game date is not the last scheduled one |
| Schedule.LastDateNotCompleted | mlb/schedule.py:44-51 | when the last scheduled date is today or later, it is not completed, and the last completed date parses to a different date |
| Woba.ConstantFromEvent | mlb/stats/woba.py:37-57 | walk, hit_by_pitch, single, double, triple, home_run give their weight; every other event gives 0.0 |
| Woba.ConstantFromEventOnlyWeights | mlb/stats/woba.py:37-57 | the result depends on the six weights only, never on league wOBA, scale or season |
| Woba.GetConstantForEvent | mlb/stats/woba.py:111-113 | a season with no constants is a KeyError; otherwise the season's weight for the event |
| Woba.HistoryFromRows | mlb/stats/woba.py:104-109 | the history has exactly the seasons that appear in the file |
| Woba.HistoryFromRowsLastWins | mlb/stats/woba.py:104-109 | for a repeated season the last row wins |
| Woba.LoadRefreshDecision | mlb/stats/woba.py:89-98 | an empty path is a ValueError, and nothing else is; fangraphs is consulted exactly when enabled and the file is stale, so always for a missing file |
| Stats.Hits | mlb/stats/stats.py:40-41 | hits are at least each hit counter, and zero exactly when all four are |
| Stats.BattedBallEvents | mlb/stats/stats.py:46-47 | batted-ball events are at least each type counter, and zero exactly when all four are |
| Stats.StrikeKindOf | mlb/stats/stats.py:145-152 | the strike counter a description raises, by the order of the source's tests, with the swinging-strike substring test |
| Stats.NormalizeBbType | mlb/stats/stats.py:111 | the normal form has no `_`, no space and no capital, and is no longer than the input |
| Stats.NormalizeBbTypeAppend | mlb/stats/stats.py:111 | normalising works piecewise: the normal form of a concatenation is the concatenation of the normal forms |
| Stats.NormalizeBbTypeChar | mlb/stats/stats.py:111 | `_` and space normalise to nothing, and every other character to its lower case, so with the piecewise law the normal form is the input, lower-cased, without `_` and spaces, in order |
| Stats.NormalizeBbTypeIdempotent | mlb/stats/stats.py:111 | normalising twice is normalising once |
| Stats.BattedBallKindOf | mlb/stats/stats.py:109-119 | an empty type raises nothing; otherwise each counter is chosen exactly when the normal form is its name |
| Stats.LsaTypeBuckets | mlb/stats/stats.py:94-107 | a launch-speed-angle of 1..6 raises exactly its own bucket by one; anything else raises none |
| Stats.BattedBallTypeCounts | mlb/stats/stats.py:109-119 | a batted-ball type raises at most one counter, and batted-ball events by at most one |
| Stats.AddPitchPlateAppearances | mlb/stats/stats.py:122-135 | one pitch adds one to the pitch count; a plate appearance exactly for the qualifying events, an at-bat exactly for those that are also at-bat events |
| Stats.AddPitchBallsAndStrikes | mlb/stats/stats.py:137-155 | balls grow exactly for type B, walks only for a B ending in a walk, strikeouts only on an S, a strike raises at most one of the four strike counters, and two-strike pitches grow exactly at two strikes |
| Stats.AddPitchOutcomes | mlb/stats/stats.py:157-166 | at most one of hit-by-pitch and the four hit counters grows, and hits grow by one exactly for a hit |
| Stats.AddPitchKeepsValid | mlb/stats/stats.py:126-135 | at-bats never exceed plate appearances after a pitch if they did not before |
| Stats.Stats.constructor | mlb/stats/stats.py:2-38 | every counter starts at zero |
| Stats.Stats.IncrementLsaType | mlb/stats/stats.py:94-107 | the counters become those of the lsa step |
| Stats.Stats.IncrementBattedBallType | mlb/stats/stats.py:109-119 | the counters become those of the batted-ball step |
| Stats.Stats.CountPlateAppearance | mlb/stats/stats.py:122-135 | the counters become those of the plate-appearance step |
| Stats.Stats.CountBallOrStrike | mlb/stats/stats.py:137-152 | the counters become those of the ball-or-strike step |
| Stats.Stats.CountStrike | mlb/stats/stats.py:141-152 | the counters become those of a strike pitch |
| Stats.Stats.CountOutcome | mlb/stats/stats.py:157-166 | the counters become those of the outcome step |
| Stats.Stats.AddPitch | mlb/stats/stats.py:121-190 | the counters become those of one pitch, and at-bats stay at most plate appearances |
| Roster.IdsOfType | mlb/baseball/roster.py:16-21 | the ids of exactly the players whose position type equals the given one ignoring case |
| Roster.IdsOfTypeAppend | mlb/baseball/roster.py:16-21 | the ids keep roster order: the ids of two runs of the roster are those of the first run followed by those of the second |
| Roster.DictFromIds | mlb/baseball/roster.py:23-24 | a missing id is a KeyError; otherwise each listed player is stored under its own id |
| Roster.DictFromIdsOfIdKeys | mlb/baseball/roster.py:23-24 | when every key is its player's id, the dict's keys are exactly the listed ids and its values the roster's players |
| Roster.Roster.constructor | mlb/baseball/roster.py:7-11 | no dict or an empty one gives an empty roster; otherwise the given players in their order |
| Roster.Roster.AddPlayer | mlb/baseball/roster.py:13-14 | the player is stored under its id, a new id goes last, and every other entry is unchanged; keys stay equal to player ids |
| Roster.Roster.IdsByPositionType | mlb/baseball/roster.py:16-21 | the ids are exactly the roster's players of the given type, ignoring case |
| Roster.Roster.PlayerDictFromIds | mlb/baseball/roster.py:23-24 | a missing id is a KeyError; otherwise the dict maps exactly the listed ids to the roster's players |
| Roster.Roster.PositionIds | mlb/baseball/roster.py:26-57 | `pitcher_ids()` and the other id accessors list exactly the players of that position type |
| Roster.Roster.PositionPlayers | mlb/baseball/roster.py:29-60 | the keys of `pitchers()` and the other accessors are exactly the matching id list |
| Roster.PositionPlayersOfType | mlb/baseball/roster.py:23-60 | each accessor's dict holds exactly the roster's players of that type, unchanged |
| Search.BuildFromGameTypeCode | mlb/statcast/statcast_search.py:57-65 | playoffs is never set; each flag is set exactly for its code; an unknown code sets nothing |
| Search.BuildFlags | mlb/statcast/statcast_search.py:57-65 | at most one flag is set, and none exactly for an unknown code |
| Search.SeasonTypesToString | mlb/statcast/statcast_search.py:67-93 | the value is empty exactly when no flag is set |
| Search.ToStringIsEncode | mlb/statcast/statcast_search.py:69-93 | the value is the set flags' codes in the order R, PO, F, D, L, W, S, each followed by the delimiter |
| Search.DecodeEncode | mlb/statcast/statcast_search.py:69-93 | such an encoding decodes back to its flags |
| Search.SeasonTypesRoundTrip | mlb/statcast/statcast_search.py:67-93 | the `hfGT` value determines every flag |
| Search.BuildToString | mlb/statcast/statcast_search.py:57-93 | a known code c gives `c|`; an unknown code gives the empty string |
| Search.PitchResultTypesToString | mlb/statcast/statcast_search.py:117-135 | the escaped hit-into-play filter for BBE only, the empty string otherwise |
| Search.IsoFormatIsSearchDate | mlb/statcast/statcast_search.py:209-214 | every `isoformat()` date is accepted by the parameter check |
| Search.StatcastSearchParams.constructor | mlb/statcast/statcast_search.py:200-224 | accepted dates and the other arguments are stored as given |
| Search.StatcastSearchParams.ToDict | mlb/statcast/statcast_search.py:226-236 | exactly the seven keys, all=true, the dates as given, an hfGT that decodes to the flags, and hfPR empty exactly for all pitches |
| Search.NewSearchParams | mlb/statcast/statcast_search.py:209-224 | a non-empty date that `strptime` rejects is a ValueError; otherwise new parameters holding the arguments |
| Search.RetryOutcome | mlb/statcast/statcast_search.py:289-301 | success only on a 200 and with its content; every earlier response is either a status below 400 other than 200, which is sent again, or a 524 with attempts left; HTTPError(524) only once the attempts exceed max_retries; a connection error only once every response has been used and none of them returned or raised; errors are request exceptions |
| Search.SuccessAtOnce | mlb/statcast/statcast_search.py:295-296 | a 200 returns its content after one request, whatever follows and whatever the budget |
| Search.RetryBound | mlb/statcast/statcast_search.py:291-301 | with decisive responses the loop sends at most max_retries + 1 requests |
| Search.TimeoutThenSuccess | mlb/statcast/statcast_search.py:291-301 | 524 then 200 with one retry gives the second payload after two requests |
| Search.TimeoutTwice | mlb/statcast/statcast_search.py:291-301 | 524 twice with one retry raises HTTPError 524 without a third request |
| Search.BadRequestRaises | mlb/statcast/statcast_search.py:298-301 | a 400 raises at once, whatever the retry budget |
| Search.StatcastSearch.constructor | mlb/statcast/statcast_search.py:245-258 | a session exists, open, exactly when asked for |
| Search.StatcastSearch.Exit | mlb/statcast/statcast_search.py:264-272 | leaving the context closes the session and changes nothing else |
| Search.StatcastSearch.Send | mlb/statcast/statcast_search.py:294 | one request consumes the next response and records the query |
| Search.StatcastSearch.GetStatcastSearchData | mlb/statcast/statcast_search.py:274-301 | the loop ends as the retry outcome says, consuming its responses, sending the query once per response used |
| Search.RunPitchDataSearch | mlb/statcast/statcast_search.py:304-322 | the caller's params get group_by "" and type "details"; the search allows two retries |
| Search.RunPitchCountSearch | mlb/statcast/statcast_search.py:325-343 | the caller's params get group_by "team-date" and type ""; no retries |
| PitchData.NewDownloadManager | mlb/statcast/pitch_data.py:225-238 | a missing directory is a FileNotFoundError; otherwise the ISO dates parse back to the given dates and the rest is stored |
| PitchData.BbeDownloadSummary | mlb/statcast/pitch_data.py:260-267 | a missing or stale master file gives an empty summary; otherwise each date's BBE row count in the master |
| PitchData.NonBbeFilePath | mlb/statcast/pitch_data.py:280 | the path is the directory joined with `PitchData.NonBBE.<date>.csv` |
| PitchData.NonBbeFilePathInjective | mlb/statcast/pitch_data.py:280 | different dates never share a non-BBE file |
| PitchData.ValidNonBbeFile | mlb/statcast/pitch_data.py:296-303 | a date has a valid file exactly when its BBE count is known and the file holds pitches - bbe rows |
| PitchData.BbeDownloaded | mlb/statcast/pitch_data.py:331 | a date counts as downloaded exactly when its BBE count equals the summary's, 0 for an absent date |
| PitchData.PlanFor | mlb/statcast/pitch_data.py:328-351 | download_all exactly when there is no valid non-BBE file; download_bbe exactly when not download_all and not BBE-downloaded |
| PitchData.GameDateDownloadPlan | mlb/statcast/pitch_data.py:348-353 | one plan row per count row, in order |
| PitchData.PlanFlags | mlb/statcast/pitch_data.py:350-351 | download_all exactly when no valid file; never both flags; BBE-only dates have a known BBE count |
| PitchData.StaleMasterCountsOnlyZero | mlb/statcast/pitch_data.py:331 | with the master missing or stale, exactly the dates with bbe == 0 count as BBE-downloaded |
| PitchData.NonBbeRows | mlb/statcast/pitch_data.py:383 | a date's non-BBE rows all have that date, none is hit_into_play, and all come from the search |
| PitchData.WriteNonBbeFiles | mlb/statcast/pitch_data.py:382-384 | one file per date is added, each holding its date's non-BBE rows; every other file is kept |
| PitchData.MergeMaster | mlb/statcast/pitch_data.py:386-397 | the new master is sorted and holds the old rows of untouched dates plus exactly the search's BBE rows |
| PitchData.MergeMasterReplaces | mlb/statcast/pitch_data.py:386-397 | merge is a replace: rows of dates in the search are dropped from the old master |
| PitchData.MergeMasterIdempotent | mlb/statcast/pitch_data.py:386-397 | merging the same search twice gives the same rows as once: a re-fetched date is never duplicated |
| PitchData.NonBbeFilesHaveNoBbe | mlb/statcast/pitch_data.py:381-384 | every non-BBE file an all-pitch download writes holds only its date's rows, none of them hit_into_play |
| PitchData.BbeOnlyTouchesMasterOnly | mlb/statcast/pitch_data.py:381-397 | a BBE-only download writes the master file and no other |
| PitchData.WriteNonBbeFileLoop | mlb/statcast/pitch_data.py:382-384 | the loop leaves the files as the per-date writes say |
| PitchData.MergeIntoMaster | mlb/statcast/pitch_data.py:387-397 | the master becomes the merge of its old rows, or of none when missing |
| PitchData.DownloadPitchData | mlb/statcast/pitch_data.py:369-397 | a failed search raises before any file is touched; otherwise the non-BBE files (all-pitch only) and the master merge are written |
| PitchData.NonBbeFileList | mlb/statcast/pitch_data.py:306-309 | the list holds exactly the dates' valid non-BBE files, all existing |
| PitchData.ReadAll | mlb/statcast/pitch_data.py:506 | the concatenation holds exactly the rows of the listed files |
| PitchData.CombineAllData | mlb/statcast/pitch_data.py:506-521 | a missing master is a FileNotFoundError; otherwise a sorted permutation of the valid non-BBE rows plus the master rows in the date range |
| PitchData.CombineAllDataRows | mlb/statcast/pitch_data.py:506-513 | a row is in the combined data exactly when it is in a valid non-BBE file or is a master row within start..end inclusive |
| PitchData.DateRangeIsCalendarRange | mlb/statcast/pitch_data.py:511 | for ISO dates the string `between` is the calendar range, inclusive at both ends |
| PitchData.SeasonKey | mlb/statcast/pitch_data.py:173 | the season is the first four characters of the date |
| PitchData.FixDenom | mlb/statcast/pitch_data.py:169-170 | only woba_denom changes |
| PitchData.Reweight | mlb/statcast/pitch_data.py:172-179 | only woba_value and the estimate change |
| PitchData.CleanRow | mlb/statcast/pitch_data.py:169-179 | a row fails with KeyError exactly when its season has no constants |
| PitchData.CleanRowRules | mlb/statcast/pitch_data.py:169-179 | blank denominator becomes 1 for a non-negative value; catcher_interf forces 0; the value becomes the season's weight, 0.0 for other events; the estimate follows it for walks and hit-by-pitches only; the other columns are kept |
| PitchData.CleanPitchData | mlb/statcast/pitch_data.py:169-179 | in place: succeeds exactly when the frame is non-empty and every season is known, and then every row is its cleaned row; an empty frame raises ValueError (`numpy.vectorize` without `otypes`), otherwise KeyError; on either error steps 1-2 have been applied |
| PitchData.NewSeasonPitchData | mlb/statcast/pitch_data.py:554-582 | invalid season, unknown game type, missing directory, in that order, are errors; otherwise the schedule, staleness date and file paths as built |
| PitchData.SeasonFilePathsDistinct | mlb/statcast/pitch_data.py:570-573 | the master pitch file, the master BBE file and every non-BBE file have distinct paths |
| Executor.Flush | mlb/statcast/pitch_data.py:473-496 | a download appends one window of the plan's dates and its row count, successful exactly when the next search succeeds |
| Executor.Extend | mlb/statcast/pitch_data.py:480-485 | the date becomes the window's end, the start is set only when empty, and the last date is downloaded |
| Executor.NoFailuresAllOk | mlb/statcast/pitch_data.py:493-498 | the error count is zero exactly when every download succeeded |
| Executor.PlanStepCap | mlb/statcast/pitch_data.py:468-478 | after a step a plan's count is within the cap, or is the count of the single date that overflowed, or is unchanged |
| Executor.PlanStepWindows | mlb/statcast/pitch_data.py:465-492 | a plan's step keeps the earlier downloads and downloads only its old or its new window |
| Executor.PlanStepKeepsCap | mlb/statcast/pitch_data.py:465-492 | a plan's step keeps its window, and every window downloaded, within the cap or a single date whose own count exceeds it |
| Executor.DayStepKeepsCap | mlb/statcast/pitch_data.py:463-492 | one date keeps both plans' windows, and every download, within the cap or a single over-cap date |
| Executor.WalkedCapped | mlb/statcast/pitch_data.py:463-492 | after every date of the walk, both windows and every download are within the cap or a single over-cap date |
| Executor.ExecuteRespectsCap | mlb/statcast/pitch_data.py:461-496 | execute never downloads a window whose accumulated count exceeds the cap, except a window of one date whose own count alone exceeds it |
| Executor.FlaggedDateEndsWindow | mlb/statcast/pitch_data.py:468-482 | a date within the cap is added to the window; an overflowing one starts a new window after a successful download |
| Executor.FailedCapFlushSkipsDate | mlb/statcast/pitch_data.py:473-476 | when the cap download fails, the date is never added: the window stays as it was |
| Executor.OverflowWithNoWindowSearchesUnbounded | mlb/statcast/pitch_data.py:468-476 | one date over the cap with no window open downloads with empty start and end dates |
| Executor.GapFlushes | mlb/statcast/pitch_data.py:487-492 | an unflagged date downloads an open window and, if that succeeds, resets it; no window, no action |
| Executor.LastDateFlushes | mlb/statcast/pitch_data.py:484-485 | the last flagged date is downloaded in a window ending on it |
| Executor.ExecuteRaisesIffSomeFailure | mlb/statcast/pitch_data.py:461-500 | execute raises RuntimeError exactly when some download failed, after the whole walk |
| Executor.NothingToDownload | mlb/statcast/pitch_data.py:425-429 | with no date flagged, nothing is searched or written |
| Executor.FailedWindowsWriteNothing | mlb/statcast/pitch_data.py:493-496 | a failed download writes nothing: the files are those of the successful downloads alone |
| Executor.FiveDaysTwoWindows | mlb/statcast/pitch_data.py:463-485 | five dates of 6000 pitches give exactly the windows D1..D4 and D5..D5 |
| Executor.SearchPlan.constructor | mlb/statcast/pitch_data.py:436-459 | a plan starts with count 0 and no window |
| Executor.SearchPlan.OpenAt | mlb/statcast/pitch_data.py:475-476 | the window restarts at the date with that date's count |
| Executor.SearchPlan.Reset | mlb/statcast/pitch_data.py:490-492 | the window is closed: count 0, no dates |
| Executor.FlushPlan | mlb/statcast/pitch_data.py:473-496 | a caught download: state, files and error count follow `Flush` |
| Executor.Rollover | mlb/statcast/pitch_data.py:473-476 | the cap download, then the new window only if it succeeded |
| Executor.CapCheck | mlb/statcast/pitch_data.py:468-478 | the cap branch follows the fold |
| Executor.ExtendWindow | mlb/statcast/pitch_data.py:480-485 | the window extension follows `Extend` |
| Executor.ExtendPlan | mlb/statcast/pitch_data.py:467-485 | a flagged date follows the fold |
| Executor.ClosePlan | mlb/statcast/pitch_data.py:487-492 | an unflagged date follows the fold |
| Executor.StepPlan | mlb/statcast/pitch_data.py:464-496 | one plan on one date follows the fold, files and error count included |
| Executor.StepDay | mlb/statcast/pitch_data.py:463-496 | both plans on one date, all pitches first, follow the fold |
| Executor.HasWork | mlb/statcast/pitch_data.py:427 | true exactly when some date is flagged |
| Executor.RunPlans | mlb/statcast/pitch_data.py:436-496 | the nested loops end in the fold's state; the error count is the number of failed downloads |
| Executor.Execute | mlb/statcast/pitch_data.py:425-500 | execute's error, files and searches are those of `ExecuteSpec` |
| Season.CleanRows | mlb/statcast/pitch_data.py:608 | each combined row is replaced by its cleaned row |
| Season.CleanCombined | mlb/statcast/pitch_data.py:607-608 | the combined rows cleaned in a frame: ValueError when empty, KeyError for an unknown season, otherwise every row cleaned in order |
| Season.RefreshOutcomes | mlb/statcast/pitch_data.py:598-610 | refresh raises exactly on a download failure, a missing master, an empty combined table (ValueError) or an unknown season; then the pitch file is not written, and otherwise it holds the cleaned combined rows and nothing else changes |
| Season.Refresh | mlb/statcast/pitch_data.py:598-610 | refresh's error and files are those of the specification |

## Left out

- HTTP: `requests.get` and sessions are modelled as an oracle sequence of
  responses consumed one per request. The statsapi fetches
  (`_get_api_payload`, `get_season_schedule` and the others) are outside
  the model; their results, such as a schedule's dates, are inputs.
- `build_pitch_count_summary` and the pitch-count searches it runs are not
  part of this model: their CSV `groupby`/`merge` mechanics are pandas
  internals. The per-date count table is an input of
  `PitchData.NewDownloadManager`, with a NaN BBE count as `None`.
- CSV reading and writing: files hold record sequences. Columns the core
  never reads are dropped from `PitchRow`.
- `date.today()` and `THIS_YEAR` are parameters. `os.path.getctime` of a
  file is the `created` date the model stores with it.
- POSIX file semantics are assumed. Every write in the model stamps the
  file with the current date, as the change time (ctime) does on POSIX
  systems. On Windows, `getctime` is the creation time, which an overwrite
  keeps, so there the master BBE file would stay stale after its first day
  and `PitchData.BbeDownloadSummary` would stay empty. The model does not
  capture that platform.
- Common.PathJoin: models `posixpath.join`. The Windows separator and
  drive rules of `ntpath.join` are not modelled.
- Dates.ParseYmd: accepts the ASCII digits 0-9 only. The `\d` of the
  regular expression that Python's `strptime` builds also accepts every
  other Unicode decimal digit, so the model rejects some strings that the
  source accepts.
- Logging is not modelled.
- Floating point: the ratio methods of `Stats`, the float accumulators, and
  `hard_hit_balls` in `add_pitch` (stats.py:168-187); also the float parsing
  of `SeasonWOBAConstants.load_from_dict`. Weights are stored `real`s.
- `numpy.vectorize` and column broadcasting are stated per row
  (`PitchData.CleanRow`) and mapped over the rows.
- mlb/fangraphs/fangraphs.py, the scripts, and the plain data classes of
  mlb/baseball are not part of this model.
- `statsapi.current_mlb_season`, `get_schedule_by_date_range`,
  `download_season_game_feeds` and `monitor_gameday_feed` are not part of
  this model, because each is a network fetch.
- Search.RetryOutcome: a status below 400 other than 200 neither returns
  nor raises, so the source sends the request again. Against a server that
  keeps answering that way, the source loops forever. The model's server is
  a finite sequence, so the search ends in a connection error when the
  sequence runs out. `Search.RetryBound` therefore assumes decisive
  responses.
- Executor.Execute: the log of downloads (`windows`) is a ghost record kept
  by the model, so that the searches can be stated. The source keeps only
  the error count, which the method does keep.
- Executor.Execute: exceptions other than `RequestException` from a
  download are not modelled. Every search failure in the model is a
  request exception.
- Common.Lower: lowers the ASCII letters only. Python's `str.lower` also
  folds non-ASCII letters.
- Roster.Roster.IdsByPositionType: a player whose `primary_position` is
  `None` raises `AttributeError` in the source; the model's `Player`
  always has a position.
- Roster.Roster.constructor: the given dict is copied into the roster's
  state. The source aliases the caller's dict, so a later `add_player`
  is visible to the caller.
- Tables.SortByKey: rows with equal sort keys keep their input order. The
  order pandas gives such rows is not specified here.
- PitchData.GameDateDownloadPlan: the count table is taken to have one row
  per date, as the `groupby` that builds it guarantees. Duplicate dates are
  not modelled.
- Stats.Stats.AddPitch: the integer counters are held as one `Counters`
  record field that every statement reassigns one field of; the float
  fields are left out as above.

## Findings

| source | as written | input that shows it | evidently intended | confidence | as-written member | corrected member |
|---|---|---|---|---|---|---|
| mlb/statsapi/statsapi.py:154-160 | `params = DEFAULT_PARAMS` aliases the module-level dict, and `params["season"] = season` writes the season into it | `get_teams_for_season(2022)` then `get_teams_for_season()`: the second request still carries `season=2022` | the request parameters are a copy of the defaults plus the season, leaving `DEFAULT_PARAMS` unchanged | not executed; high, the alias is plain from the code | StatsApi.TeamsForSeasonLeak | StatsApi.TeamsForSeasonNoLeakTwice |
