/** mlb/statcast/pitch_data.py: the download planner, the file writer, the
    consolidation and cleaning of a season's pitch data, and the checks of
    `SeasonPitchData.__init__`. The per-date pitch and batted-ball-event
    counts that Statcast reports are an input; files are a `FileMap`. */
module PitchData {
  import opened Common
  import opened Dates
  import opened Tables
  import opened FileUtils
  import opened StatsApi
  import opened Search
  import opened Schedule
  import opened Woba

  const FilePrefix := "PitchData"

  /** One row of the pitch count summary: a game date, its pitch count and
      its batted-ball-event count. `bbe` is None when the BBE-only count
      search had no row for the date (NaN after the left merge). */
  datatype CountRow = CountRow(gameDate: string, pitches: nat, bbe: Option<nat>)

  /** `PitchDataDownloadManager`; its fields are set once by `__init__`. */
  datatype DownloadManager = DownloadManager(
    startDateIso: string,
    endDateIso: string,
    staleBy: Date,
    pitchDataDir: string,
    bbeDataFilePath: string,
    seasonTypes: SeasonTypes,
    counts: seq<CountRow>)

  /** `PitchDataDownloadManager.__init__`, with the pitch count summary given:
      a missing directory is a `FileNotFoundError`. */
  function NewDownloadManager(start: Date, end: Date, staleBy: Date, dir: string, bbePath: string,
                              seasonTypes: SeasonTypes, dirs: set<string>, counts: seq<CountRow>)
    : (r: Result<DownloadManager>)
    requires ValidDate(start) && ValidDate(end)
    ensures r.Err? <==> dir !in dirs
    ensures r.Err? ==> r.error == FileNotFoundError
    ensures r.Ok? ==> ParseYmd(r.value.startDateIso) == Some(start) && ParseYmd(r.value.endDateIso) == Some(end)
    ensures r.Ok? ==> r.value.pitchDataDir == dir && r.value.bbeDataFilePath == bbePath
                      && r.value.staleBy == staleBy && r.value.counts == counts && r.value.seasonTypes == seasonTypes
  {
    ParseIsoFormat(start);
    ParseIsoFormat(end);
    if dir !in dirs then Err(FileNotFoundError)
    else Ok(DownloadManager(IsoFormat(start), IsoFormat(end), staleBy, dir, bbePath, seasonTypes, counts))
  }

  // ---------------------------------------------------------------------------------------------
  // Planner

  /** `bbe_download_summary`: BBE rows per date in the master file; empty
      when that file is missing or stale. */
  function BbeDownloadSummary(m: DownloadManager, files: FileMap): (summary: map<string, nat>)
    ensures m.bbeDataFilePath !in files || IsFileStale(files, m.bbeDataFilePath, m.staleBy) ==> summary == map[]
    ensures m.bbeDataFilePath in files && !IsFileStale(files, m.bbeDataFilePath, m.staleBy) ==>
              var rows := files[m.bbeDataFilePath].rows;
              forall d :: (d in summary <==> d in DatesOf(rows))
                          && (d in summary ==> summary[d] == CountOnDate(rows, d) && summary[d] > 0)
  {
    if m.bbeDataFilePath in files && !IsFileStale(files, m.bbeDataFilePath, m.staleBy) then
      var rows := files[m.bbeDataFilePath].rows;
      assert forall d :: d in DatesOf(rows) ==> exists i :: 0 <= i < |rows| && rows[i].gameDate == d;
      map d | d in DatesOf(rows) :: CountOnDate(rows, d)
    else map[]
  }

  /** The name part of `non_bbe_file_path`. */
  function NonBbeFileName(gameDate: string): string {
    FilePrefix + ".NonBBE." + gameDate + ".csv"
  }

  /** `non_bbe_file_path`. */
  function NonBbeFilePath(m: DownloadManager, gameDate: string): (p: string)
    ensures p == JoinPrefix(m.pitchDataDir) + NonBbeFileName(gameDate)
  {
    PathJoin(m.pitchDataDir, NonBbeFileName(gameDate))
  }

  /** Different dates never share a non-BBE file. */
  lemma NonBbeFilePathInjective(m: DownloadManager, a: string, b: string)
    requires a != b
    ensures NonBbeFilePath(m, a) != NonBbeFilePath(m, b)
  {
    var pre := JoinPrefix(m.pitchDataDir) + FilePrefix + ".NonBBE.";
    assert NonBbeFilePath(m, a) == pre + a + ".csv";
    assert NonBbeFilePath(m, b) == pre + b + ".csv";
    if |a| == |b| {
      assert (pre + a + ".csv")[|pre|..|pre| + |a|] == a;
      assert (pre + b + ".csv")[|pre|..|pre| + |b|] == b;
    }
  }

  /** The file `valid_non_bbe_files_by_date` lists for a date: its non-BBE
      file, when it holds exactly `pitches - bbe` rows. A NaN `bbe` never matches. */
  function ValidNonBbeFile(m: DownloadManager, files: FileMap, row: CountRow): (f: Option<string>)
    ensures f.Some? <==> row.bbe.Some? && CsvRowCountCheck(files, NonBbeFilePath(m, row.gameDate), row.pitches - row.bbe.value)
    ensures f.Some? ==> f.value == NonBbeFilePath(m, row.gameDate) && f.value in files
  {
    var path := NonBbeFilePath(m, row.gameDate);
    if row.bbe.Some? && CsvRowCountCheck(files, path, row.pitches - row.bbe.value) then Some(path) else None
  }

  /** `x["bbe"] == bbe_summary.get(x["game_date"], 0)`; a NaN count equals nothing. */
  function BbeDownloaded(summary: map<string, nat>, row: CountRow): (done: bool)
    ensures done <==> row.bbe.Some? && row.bbe.value == (if row.gameDate in summary then summary[row.gameDate] else 0)
  {
    row.bbe == Some(if row.gameDate in summary then summary[row.gameDate] else 0)
  }

  /** One row of `game_date_download_plan`. */
  datatype PlanRow = PlanRow(gameDate: string, pitches: nat, bbe: Option<nat>, downloadAll: bool, downloadBbe: bool)

  function PlanFor(m: DownloadManager, files: FileMap, summary: map<string, nat>, row: CountRow): (p: PlanRow)
    ensures p.gameDate == row.gameDate && p.pitches == row.pitches && p.bbe == row.bbe
    ensures p.downloadAll <==> ValidNonBbeFile(m, files, row).None?
    ensures p.downloadBbe <==> !p.downloadAll && !BbeDownloaded(summary, row)
  {
    var all := ValidNonBbeFile(m, files, row).None?;
    PlanRow(row.gameDate, row.pitches, row.bbe, all, !all && !BbeDownloaded(summary, row))
  }

  /** `game_date_download_plan`, one row per date of the count summary, in order. */
  function GameDateDownloadPlan(m: DownloadManager, files: FileMap): (plan: seq<PlanRow>)
    ensures |plan| == |m.counts|
    ensures forall i :: 0 <= i < |plan| ==> plan[i] == PlanFor(m, files, BbeDownloadSummary(m, files), m.counts[i])
  {
    var summary := BbeDownloadSummary(m, files);
    seq(|m.counts|, i requires 0 <= i < |m.counts| => PlanFor(m, files, summary, m.counts[i]))
  }

  /** The two flags: a date needs all pitches exactly when it has no valid
      non-BBE file, its BBE rows only when it has one but the master file
      does not hold its BBE count; never both. */
  lemma PlanFlags(m: DownloadManager, files: FileMap, i: int)
    requires 0 <= i < |m.counts|
    ensures var p := GameDateDownloadPlan(m, files)[i];
            var c := m.counts[i];
            (p.downloadAll <==> !(c.bbe.Some? && CsvRowCountCheck(files, NonBbeFilePath(m, c.gameDate), c.pitches - c.bbe.value)))
            && !(p.downloadAll && p.downloadBbe)
            && (p.downloadBbe ==> p.bbe.Some?)
  {
  }

  /** With the master file missing or stale, exactly the dates with a BBE
      count of 0 count as BBE-downloaded. */
  lemma StaleMasterCountsOnlyZero(m: DownloadManager, files: FileMap, i: int)
    requires 0 <= i < |m.counts|
    requires m.bbeDataFilePath !in files || IsFileStale(files, m.bbeDataFilePath, m.staleBy)
    ensures var p := GameDateDownloadPlan(m, files)[i];
            p.downloadBbe <==> !p.downloadAll && m.counts[i].bbe != Some(0)
  {
  }

  // ---------------------------------------------------------------------------------------------
  // Writer

  /** The rows `download_pitch_data` writes to a date's non-BBE file. */
  function NonBbeRows(df: Table, d: string): (r: Table)
    ensures forall i :: 0 <= i < |r| ==> r[i].gameDate == d && !IsBbe(r[i]) && r[i] in df
  {
    Filter(df, (row: PitchRow) => row.gameDate == d && !IsBbe(row))
  }

  /** The non-BBE file paths of the given dates. */
  function NonBbePaths(m: DownloadManager, dates: seq<string>): set<string> {
    set d | d in dates :: NonBbeFilePath(m, d)
  }

  /** The loop writing one non-BBE file per date, in order. */
  function WriteNonBbeFiles(m: DownloadManager, files: FileMap, df: Table, dates: seq<string>, today: Date)
    : (r: FileMap)
    ensures r.Keys == files.Keys + NonBbePaths(m, dates)
    ensures forall p :: p in files && p !in NonBbePaths(m, dates) ==> r[p] == files[p]
    ensures forall d :: d in dates ==> r[NonBbeFilePath(m, d)] == CsvFile(NonBbeRows(df, d), today)
  {
    if dates == [] then files
    else
      var init := dates[..|dates| - 1];
      var d := dates[|dates| - 1];
      var before := WriteNonBbeFiles(m, files, df, init, today);
      WriteNonBbeFilesStepKeys(m, files, before, df, dates, today);
      WriteNonBbeFilesStepOthers(m, files, before, df, dates, today);
      WriteNonBbeFilesStepWritten(m, before, df, dates, today);
      before[NonBbeFilePath(m, d) := CsvFile(NonBbeRows(df, d), today)]
  }

  /** The last date of `WriteNonBbeFiles` adds its path to the keys. */
  lemma WriteNonBbeFilesStepKeys(m: DownloadManager, files: FileMap, before: FileMap, df: Table, dates: seq<string>,
                                 today: Date)
    requires dates != []
    requires before.Keys == files.Keys + NonBbePaths(m, dates[..|dates| - 1])
    ensures var d := dates[|dates| - 1];
            before[NonBbeFilePath(m, d) := CsvFile(NonBbeRows(df, d), today)].Keys == files.Keys + NonBbePaths(m, dates)
  {
    assert dates == dates[..|dates| - 1] + [dates[|dates| - 1]];
    assert NonBbePaths(m, dates) == NonBbePaths(m, dates[..|dates| - 1]) + {NonBbeFilePath(m, dates[|dates| - 1])};
  }

  /** The last date of `WriteNonBbeFiles` leaves the other files alone. */
  lemma WriteNonBbeFilesStepOthers(m: DownloadManager, files: FileMap, before: FileMap, df: Table, dates: seq<string>,
                                   today: Date)
    requires dates != []
    requires forall p :: p in files && p !in NonBbePaths(m, dates[..|dates| - 1]) ==> p in before && before[p] == files[p]
    ensures var d := dates[|dates| - 1];
            var r := before[NonBbeFilePath(m, d) := CsvFile(NonBbeRows(df, d), today)];
            forall p :: p in files && p !in NonBbePaths(m, dates) ==> p in r && r[p] == files[p]
  {
    assert dates == dates[..|dates| - 1] + [dates[|dates| - 1]];
    assert NonBbePaths(m, dates) == NonBbePaths(m, dates[..|dates| - 1]) + {NonBbeFilePath(m, dates[|dates| - 1])};
  }

  /** The last date of `WriteNonBbeFiles` keeps every written date's file. */
  lemma WriteNonBbeFilesStepWritten(m: DownloadManager, before: FileMap, df: Table, dates: seq<string>, today: Date)
    requires dates != []
    requires forall d' :: d' in dates[..|dates| - 1] ==>
               NonBbeFilePath(m, d') in before && before[NonBbeFilePath(m, d')] == CsvFile(NonBbeRows(df, d'), today)
    ensures var d := dates[|dates| - 1];
            var r := before[NonBbeFilePath(m, d) := CsvFile(NonBbeRows(df, d), today)];
            forall d' :: d' in dates ==> r[NonBbeFilePath(m, d')] == CsvFile(NonBbeRows(df, d'), today)
  {
    var init, d := dates[..|dates| - 1], dates[|dates| - 1];
    assert dates == init + [d];
    forall d' | d' in init && d' != d ensures NonBbeFilePath(m, d') != NonBbeFilePath(m, d) {
      NonBbeFilePathInjective(m, d', d);
    }
  }

  /** The master BBE table after a download: its rows for other dates, then
      the downloaded BBE rows, re-sorted. */
  function MergeMaster(master: Option<Table>, df: Table, dates: seq<string>): (r: Table)
    ensures SortedByKey(r)
    ensures forall x :: multiset(r)[x] ==
              (if master.Some? && x.gameDate !in dates then multiset(master.value)[x] else 0)
              + (if IsBbe(x) then multiset(df)[x] else 0)
  {
    var bbe := Filter(df, IsBbe);
    var kept := if master.Some? then Filter(master.value, (row: PitchRow) => row.gameDate !in dates) else [];
    SortByKey(kept + bbe)
  }

  /** The files after `download_pitch_data` received `content`: non-BBE
      files for an all-pitch search, then the master merge. */
  function WriteResults(m: DownloadManager, files: FileMap, bbeOnly: bool, content: Table, today: Date): (r: FileMap)
  {
    var df := SortByKey(content);
    var dates := UniqueDates(df);
    var written := if bbeOnly then files else WriteNonBbeFiles(m, files, df, dates, today);
    var master := if m.bbeDataFilePath in written then Some(written[m.bbeDataFilePath].rows) else None;
    written[m.bbeDataFilePath := CsvFile(MergeMaster(master, df, dates), today)]
  }

  /** Sorting keeps the set of game dates. */
  lemma DatesOfSorted(t: Table)
    ensures DatesOf(SortByKey(t)) == DatesOf(t)
  {
    var df := SortByKey(t);
    forall d ensures d in DatesOf(df) <==> d in DatesOf(t) {
      if d in DatesOf(df) {
        var r :| r in df && r.gameDate == d;
        assert multiset(df)[r] > 0;
      }
      if d in DatesOf(t) {
        var r :| r in t && r.gameDate == d;
        assert multiset(t)[r] > 0;
      }
    }
  }

  /** The dates a download touches are exactly the dates of its rows. */
  lemma TouchedDates(content: Table)
    ensures forall d :: d in UniqueDates(SortByKey(content)) <==> d in DatesOf(content)
    ensures forall x :: multiset(content)[x] > 0 ==> x.gameDate in UniqueDates(SortByKey(content))
  {
    DatesOfSorted(content);
    forall x | multiset(content)[x] > 0 ensures x.gameDate in DatesOf(content) {
      assert x in content;
    }
  }

  /** Merging replaces: the master holds its old rows for dates the
      download did not touch plus exactly the downloaded BBE rows. */
  lemma MergeMasterReplaces(master: Table, content: Table)
    ensures var df := SortByKey(content);
            var once := MergeMaster(Some(master), df, UniqueDates(df));
            forall x :: multiset(once)[x] ==
              (if x.gameDate in DatesOf(content) then 0 else multiset(master)[x])
              + (if IsBbe(x) then multiset(content)[x] else 0)
  {
    TouchedDates(content);
  }

  /** Downloading the same rows again leaves the same multiset of master
      rows: a re-fetched date's rows are never duplicated. */
  lemma MergeMasterIdempotent(master: Table, content: Table)
    ensures var df := SortByKey(content);
            var dates := UniqueDates(df);
            var once := MergeMaster(Some(master), df, dates);
            multiset(MergeMaster(Some(once), df, dates)) == multiset(once)
  {
    var df := SortByKey(content);
    var dates := UniqueDates(df);
    var once := MergeMaster(Some(master), df, dates);
    var twice := MergeMaster(Some(once), df, dates);
    forall x: PitchRow ensures multiset(twice)[x] == multiset(once)[x] {
      MergeMasterIdempotentAt(master, content, x);
    }
    assert multiset(twice) == multiset(once);
  }

  lemma MergeMasterIdempotentAt(master: Table, content: Table, x: PitchRow)
    ensures var df := SortByKey(content);
            var dates := UniqueDates(df);
            var once := MergeMaster(Some(master), df, dates);
            multiset(MergeMaster(Some(once), df, dates))[x] == multiset(once)[x]
  {
    var df := SortByKey(content);
    var dates := UniqueDates(df);
    if x.gameDate !in dates && multiset(content)[x] > 0 {
      TouchedDates(content);
      assert false;
    }
  }

  /** Every non-BBE file a download writes holds only that date's rows, none of them a batted-ball event. */
  lemma NonBbeFilesHaveNoBbe(m: DownloadManager, files: FileMap, content: Table, today: Date, d: string)
    requires d in DatesOf(content)
    requires NonBbeFilePath(m, d) != m.bbeDataFilePath
    ensures var r := WriteResults(m, files, false, content, today);
            var p := NonBbeFilePath(m, d);
            p in r && forall i :: 0 <= i < |r[p].rows| ==> r[p].rows[i].gameDate == d && !IsBbe(r[p].rows[i])
  {
    var df := SortByKey(content);
    var dates := UniqueDates(df);
    var r0 :| r0 in content && r0.gameDate == d;
    assert multiset(df)[r0] > 0;
    assert d in DatesOf(df);
    var k :| 0 <= k < |dates| && dates[k] == d;
  }

  /** A BBE-only download writes no non-BBE file: every other file is left as it was. */
  lemma BbeOnlyTouchesMasterOnly(m: DownloadManager, files: FileMap, content: Table, today: Date)
    ensures var r := WriteResults(m, files, true, content, today);
            r.Keys == files.Keys + {m.bbeDataFilePath}
            && forall p :: p in files && p != m.bbeDataFilePath ==> r[p] == files[p]
  {
  }

  /** `download_pitch_data` on a file system held by a `Disk`. */
  class Disk {
    var files: FileMap
    var dirs: set<string>

    constructor (files: FileMap, dirs: set<string>)
      ensures this.files == files && this.dirs == dirs
    {
      this.files := files;
      this.dirs := dirs;
    }
  }

  /** `WriteNonBbeFiles` over one more date of a prefix writes that date's file last. */
  lemma WriteNonBbeFilesPrefix(m: DownloadManager, files: FileMap, df: Table, dates: seq<string>, i: nat, today: Date)
    requires i < |dates|
    ensures WriteNonBbeFiles(m, files, df, dates[..i + 1], today)
            == WriteNonBbeFiles(m, files, df, dates[..i], today)[NonBbeFilePath(m, dates[i]) := CsvFile(NonBbeRows(df, dates[i]), today)]
  {
    assert dates[..i + 1][..i] == dates[..i];
  }

  /** The loop of `download_pitch_data` writing each date's non-BBE file. */
  method WriteNonBbeFileLoop(m: DownloadManager, disk: Disk, df: Table, dates: seq<string>, today: Date)
    modifies disk
    ensures disk.files == WriteNonBbeFiles(m, old(disk.files), df, dates, today)
    ensures disk.dirs == old(disk.dirs)
  {
    for i := 0 to |dates|
      invariant disk.files == WriteNonBbeFiles(m, old(disk.files), df, dates[..i], today)
      invariant disk.dirs == old(disk.dirs)
    {
      WriteNonBbeFilesPrefix(m, old(disk.files), df, dates, i, today);
      disk.files := disk.files[NonBbeFilePath(m, dates[i]) := CsvFile(NonBbeRows(df, dates[i]), today)];
    }
    assert dates[..|dates|] == dates;
  }

  /** The read-modify-write of the master BBE file. */
  method MergeIntoMaster(m: DownloadManager, disk: Disk, df: Table, dates: seq<string>, today: Date)
    modifies disk
    ensures var master := if m.bbeDataFilePath in old(disk.files) then Some(old(disk.files)[m.bbeDataFilePath].rows) else None;
            disk.files == old(disk.files)[m.bbeDataFilePath := CsvFile(MergeMaster(master, df, dates), today)]
    ensures disk.dirs == old(disk.dirs)
  {
    var master := if m.bbeDataFilePath in disk.files then Some(disk.files[m.bbeDataFilePath].rows) else None;
    disk.files := disk.files[m.bbeDataFilePath := CsvFile(MergeMaster(master, df, dates), today)];
  }

  /** `download_pitch_data(search_params, statcast_search)`: run the search;
      on success write the per-date non-BBE files (all-pitch searches only)
      and merge the BBE rows into the master file. A failed search raises
      before any file is touched. */
  method DownloadPitchData(m: DownloadManager, params: StatcastSearchParams, search: StatcastSearch,
                           disk: Disk, today: Date)
    returns (err: Option<Error>)
    requires search.Valid()
    modifies params, search, disk
    ensures search.Valid()
    ensures var o := RetryOutcome(old(search.pending), 2, 0);
            search.pending == old(search.pending)[o.used..]
            && (o.result.Err? ==> err == Some(o.result.error) && disk.files == old(disk.files))
            && (o.result.Ok? ==> err.None? && disk.files == WriteResults(m, old(disk.files),
                  params.pitchResultTypes.battedBallEventsOnly, o.result.value, today))
    ensures params.startDateIso == old(params.startDateIso) && params.endDateIso == old(params.endDateIso)
    ensures search.hasSession == old(search.hasSession) && search.sessionOpen == old(search.sessionOpen)
    ensures disk.dirs == old(disk.dirs)
  {
    var r := RunPitchDataSearch(params, search);
    if r.Err? {
      return Some(r.error);
    }
    var df := SortByKey(r.value);
    var dates := UniqueDates(df);
    if !params.pitchResultTypes.battedBallEventsOnly {
      WriteNonBbeFileLoop(m, disk, df, dates, today);
    }
    MergeIntoMaster(m, disk, df, dates, today);
    err := None;
  }

  // ---------------------------------------------------------------------------------------------
  // Consolidation and cleaning

  /** `non_bbe_file_list`: the valid non-BBE files, in count-summary order. */
  function NonBbeFileList(m: DownloadManager, files: FileMap, counts: seq<CountRow>): (paths: seq<string>)
    ensures forall i :: 0 <= i < |paths| ==> paths[i] in files
    ensures forall p :: p in paths <==> exists i :: 0 <= i < |counts| && ValidNonBbeFile(m, files, counts[i]) == Some(p)
  {
    if counts == [] then []
    else
      var rest := NonBbeFileList(m, files, counts[1..]);
      assert forall i :: 0 < i < |counts| ==> counts[i] == counts[1..][i - 1];
      match ValidNonBbeFile(m, files, counts[0])
      case None => rest
      case Some(p) => [p] + rest
  }

  /** The rows of the listed files, concatenated. */
  function ReadAll(files: FileMap, paths: seq<string>): (t: Table)
    requires forall i :: 0 <= i < |paths| ==> paths[i] in files
    ensures forall x :: x in t <==> exists i :: 0 <= i < |paths| && x in files[paths[i]].rows
  {
    if paths == [] then []
    else
      assert forall i :: 0 < i < |paths| ==> paths[i] == paths[1..][i - 1];
      files[paths[0]].rows + ReadAll(files, paths[1..])
  }

  /** `game_date.between(start, end)`: inclusive at both ends, as strings. */
  predicate InDateRange(m: DownloadManager, row: PitchRow) {
    StrLe(m.startDateIso, row.gameDate) && StrLe(row.gameDate, m.endDateIso)
  }

  /** `combine_all_data`: the valid non-BBE files and the master file's rows
      in the date range, sorted; a missing master file is a `FileNotFoundError`. */
  function CombineAllData(m: DownloadManager, files: FileMap): (r: Result<Table>)
    ensures r.Err? <==> m.bbeDataFilePath !in files
    ensures r.Err? ==> r.error == FileNotFoundError
    ensures r.Ok? ==> SortedByKey(r.value)
    ensures r.Ok? ==> multiset(r.value) == multiset(ReadAll(files, NonBbeFileList(m, files, m.counts)))
                        + multiset(Filter(files[m.bbeDataFilePath].rows, (row: PitchRow) => InDateRange(m, row)))
  {
    if m.bbeDataFilePath !in files then Err(FileNotFoundError)
    else
      var frames := ReadAll(files, NonBbeFileList(m, files, m.counts));
      var bbe := Filter(files[m.bbeDataFilePath].rows, (row: PitchRow) => InDateRange(m, row));
      Ok(SortByKey(frames + bbe))
  }

  /** The combined data holds exactly the rows of the valid non-BBE files
      and the master rows dated from start to end inclusive. */
  lemma CombineAllDataRows(m: DownloadManager, files: FileMap, x: PitchRow)
    requires m.bbeDataFilePath in files
    ensures x in CombineAllData(m, files).value <==>
              (exists i :: 0 <= i < |m.counts| && ValidNonBbeFile(m, files, m.counts[i]).Some?
                           && x in files[ValidNonBbeFile(m, files, m.counts[i]).value].rows)
              || (x in files[m.bbeDataFilePath].rows && InDateRange(m, x))
  {
    var r := CombineAllData(m, files).value;
    var paths := NonBbeFileList(m, files, m.counts);
    var frames := ReadAll(files, paths);
    var master := files[m.bbeDataFilePath].rows;
    var bbe := Filter(master, (row: PitchRow) => InDateRange(m, row));
    assert x in r <==> multiset(r)[x] > 0;
    assert x in frames <==> multiset(frames)[x] > 0;
    assert x in bbe <==> multiset(bbe)[x] > 0;
    assert x in master <==> multiset(master)[x] > 0;
    if x in frames {
      var i :| 0 <= i < |paths| && x in files[paths[i]].rows;
      assert paths[i] in paths;
    }
  }

  /** For ISO dates the string range is the calendar range: a master row
      dated `d` is kept exactly when start <= d <= end as dates. */
  lemma DateRangeIsCalendarRange(m: DownloadManager, start: Date, end: Date, d: Date, row: PitchRow)
    requires ValidDate(start) && ValidDate(end) && ValidDate(d)
    requires m.startDateIso == IsoFormat(start) && m.endDateIso == IsoFormat(end) && row.gameDate == IsoFormat(d)
    ensures InDateRange(m, row) <==> !Before(d, start) && !Before(end, d)
  {
    IsoFormatOrder(start, d);
    IsoFormatOrder(d, end);
    if IsoFormat(start) == IsoFormat(d) {
      IsoFormatInjective(start, d);
    }
    if IsoFormat(d) == IsoFormat(end) {
      IsoFormatInjective(d, end);
    }
  }

  /** `game_date.str[0:4]`: the season a row's wOBA constants come from. */
  function SeasonKey(gameDate: string): (s: string)
    ensures |gameDate| >= 4 ==> s == gameDate[..4]
    ensures |gameDate| < 4 ==> s == gameDate
  {
    if |gameDate| >= 4 then gameDate[..4] else gameDate
  }

  const CatcherInterference := "catcher_interf"

  /** Steps 1 and 2 of `clean_pitch_data` on one row. */
  function FixDenom(r: PitchRow): (c: PitchRow)
    ensures c == r.(wobaDenom := c.wobaDenom)
  {
    var afterBlank := if r.wobaValue.Some? && r.wobaValue.value >= 0.0 && r.wobaDenom.None?
                      then Some(1) else r.wobaDenom;
    r.(wobaDenom := if r.events == CatcherInterference then Some(0) else afterBlank)
  }

  /** Steps 3 and 4 on one row, given the season's constants. */
  function Reweight(r: PitchRow, c: SeasonWobaConstants): (s: PitchRow)
    ensures s == r.(wobaValue := s.wobaValue, estimatedWoba := s.estimatedWoba)
  {
    var w := Some(ConstantFromEvent(c, r.events));
    r.(wobaValue := w,
       estimatedWoba := if r.events in ["walk", "hit_by_pitch"] then w else r.estimatedWoba)
  }

  /** The cleaned row, or `KeyError` when no constants exist for its season. */
  function CleanRow(r: PitchRow, h: WobaConstantHistory): (c: Result<PitchRow>)
    ensures c.Err? <==> SeasonKey(r.gameDate) !in h
    ensures c.Err? ==> c.error == KeyError
  {
    if SeasonKey(r.gameDate) in h then Ok(Reweight(FixDenom(r), h[SeasonKey(r.gameDate)]))
    else Err(KeyError)
  }

  /** The per-row rules of `clean_pitch_data`: a blank denominator becomes 1
      where the old value is non-negative, catcher's interference forces 0,
      the value becomes the season's weight (0.0 for unweighted events), and
      the estimate follows the value for walks and hit-by-pitches only. */
  lemma CleanRowRules(r: PitchRow, h: WobaConstantHistory)
    requires SeasonKey(r.gameDate) in h
    ensures var c := CleanRow(r, h).value;
            var k := h[SeasonKey(r.gameDate)];
            (r.events == CatcherInterference ==> c.wobaDenom == Some(0))
            && (r.events != CatcherInterference && r.wobaDenom.None? && r.wobaValue.Some? && r.wobaValue.value >= 0.0
                ==> c.wobaDenom == Some(1))
            && (r.events != CatcherInterference && r.wobaDenom.Some? ==> c.wobaDenom == r.wobaDenom)
            && c.wobaValue == Some(ConstantFromEvent(k, r.events))
            && (!IsWeightedEvent(r.events) ==> c.wobaValue == Some(0.0))
            && (r.events == "walk" || r.events == "hit_by_pitch" ==> c.estimatedWoba == c.wobaValue)
            && (r.events != "walk" && r.events != "hit_by_pitch" ==> c.estimatedWoba == r.estimatedWoba)
            && c.gameDate == r.gameDate && c.gamePk == r.gamePk && c.atBatNumber == r.atBatNumber
            && c.pitchNumber == r.pitchNumber && c.description == r.description && c.events == r.events
  {
  }

  /** Every row's season has constants. */
  predicate AllSeasonsKnown(rows: seq<PitchRow>, h: WobaConstantHistory) {
    forall i :: 0 <= i < |rows| ==> SeasonKey(rows[i].gameDate) in h
  }

  /** `clean_pitch_data`, in place. Steps 1 and 2 always apply. Step 3's
      `numpy.vectorize`, built without `otypes`, raises `ValueError` on an
      empty column, and its lookup raises `KeyError` for an unknown season;
      either way before its column is assigned, leaving steps 3 and 4 undone. */
  method CleanPitchData(rows: array<PitchRow>, h: WobaConstantHistory) returns (err: Option<Error>)
    modifies rows
    ensures err.None? <==> rows.Length > 0 && AllSeasonsKnown(old(rows[..]), h)
    ensures err.Some? ==> err.value == (if rows.Length == 0 then ValueError else KeyError)
                          && forall i :: 0 <= i < rows.Length ==> rows[i] == FixDenom(old(rows[i]))
    ensures err.None? ==> forall i :: 0 <= i < rows.Length ==> Ok(rows[i]) == CleanRow(old(rows[i]), h)
  {
    for i := 0 to rows.Length
      invariant forall k :: 0 <= k < i ==> rows[k] == FixDenom(old(rows[k]))
      invariant forall k :: i <= k < rows.Length ==> rows[k] == old(rows[k])
    {
      rows[i] := FixDenom(rows[i]);
    }
    if rows.Length == 0 {
      return Some(ValueError);
    }
    for i := 0 to rows.Length
      invariant forall k :: 0 <= k < i ==> SeasonKey(old(rows[k]).gameDate) in h
    {
      if SeasonKey(rows[i].gameDate) !in h {
        return Some(KeyError);
      }
    }
    for i := 0 to rows.Length
      invariant forall k :: 0 <= k < i ==> Ok(rows[k]) == CleanRow(old(rows[k]), h)
      invariant forall k :: i <= k < rows.Length ==> rows[k] == FixDenom(old(rows[k]))
    {
      rows[i] := Reweight(rows[i], h[SeasonKey(rows[i].gameDate)]);
    }
    err := None;
  }

  // ---------------------------------------------------------------------------------------------
  // SeasonPitchData

  /** `SeasonPitchData` after `__init__`. */
  datatype SeasonPitchData = SeasonPitchData(
    season: nat,
    gameTypeCode: string,
    gameType: string,
    seasonTypes: SeasonTypes,
    schedule: Schedule,
    staleBy: Date,
    pitchDataDir: string,
    pitchDataFileName: string,
    pitchDataFilePath: string,
    bbeDataFileName: string,
    bbeDataFilePath: string,
    manager: DownloadManager)

  function PitchDataFileName(season: nat, gameType: string): string {
    FilePrefix + "." + NatToString(season) + "." + gameType + ".csv"
  }

  function BbeDataFileName(season: nat, gameType: string): string {
    FilePrefix + ".BBE." + NatToString(season) + "." + gameType + ".csv"
  }

  /** `SeasonPitchData(season, game_type_code, pitch_data_dir)`, with the
      fetched schedule dates, today's date and the pitch count summary given.
      Checks, in order: the season, the game type code, the directory; then
      the schedule's own errors. */
  function NewSeasonPitchData(season: int, code: string, dir: string, thisYear: int, dirs: set<string>,
                              fetched: seq<string>, today: Date, counts: seq<CountRow>)
    : (r: Result<SeasonPitchData>)
    requires ValidDate(today)
    ensures !IsValidMlbSeason(season, thisYear) ==> r == Err(ValueError)
    ensures IsValidMlbSeason(season, thisYear) && !IsGameTypeCode(code) ==> r == Err(ValueError)
    ensures IsValidMlbSeason(season, thisYear) && IsGameTypeCode(code) && dir !in dirs ==> r == Err(FileNotFoundError)
    ensures r.Ok? ==> NewSchedule(season, code, thisYear, fetched, today) == Ok(r.value.schedule)
    ensures r.Ok? ==> r.value.staleBy == r.value.schedule.mostRecent
                      && r.value.gameType == GameTypeStr(code) && r.value.season == season
                      && r.value.seasonTypes == BuildFromGameTypeCode(code)
                      && r.value.pitchDataFilePath == PathJoin(dir, PitchDataFileName(season, GameTypeStr(code)))
                      && r.value.bbeDataFilePath == PathJoin(dir, BbeDataFileName(season, GameTypeStr(code)))
                      && r.value.manager.bbeDataFilePath == r.value.bbeDataFilePath
                      && r.value.manager.staleBy == r.value.schedule.mostRecent
  {
    if !IsValidMlbSeason(season, thisYear) then Err(ValueError)
    else if GameTypeStr(code) == "Unknown" then Err(ValueError)
    else if dir !in dirs then Err(FileNotFoundError)
    else match NewSchedule(season, code, thisYear, fetched, today)
      case Err(e) => Err(e)
      case Ok(sched) =>
        var gameType := GameTypeStr(code);
        var types := BuildFromGameTypeCode(code);
        var pdName := PitchDataFileName(season, gameType);
        var bbeName := BbeDataFileName(season, gameType);
        var bbePath := PathJoin(dir, bbeName);
        match NewDownloadManager(sched.openingDay, sched.mostRecent, sched.mostRecent, dir, bbePath, types, dirs, counts)
        case Err(e) => Err(e)
        case Ok(mgr) =>
          Ok(SeasonPitchData(season, code, gameType, types, sched, sched.mostRecent, dir,
                             pdName, PathJoin(dir, pdName), bbeName, bbePath, mgr))
  }

  /** The master pitch file, the master BBE file and every non-BBE file have distinct paths. */
  lemma SeasonFilePathsDistinct(dir: string, season: nat, gameType: string, d: string)
    ensures PathJoin(dir, PitchDataFileName(season, gameType)) != PathJoin(dir, BbeDataFileName(season, gameType))
    ensures PathJoin(dir, NonBbeFileName(d)) != PathJoin(dir, BbeDataFileName(season, gameType))
    ensures PathJoin(dir, NonBbeFileName(d)) != PathJoin(dir, PitchDataFileName(season, gameType))
  {
    var p := JoinPrefix(dir);
    var n := NatToString(season);
    var pd := PitchDataFileName(season, gameType);
    var bbe := BbeDataFileName(season, gameType);
    var non := NonBbeFileName(d);
    assert (p + bbe)[|p| + 10] == 'B';
    assert (p + non)[|p| + 10] == 'N';
    assert (p + pd)[|p| + 10] == n[0];
    assert |pd| != |bbe|;
  }
}
