/** `SeasonPitchData.refresh` (mlb/statcast/pitch_data.py): download what
    the season's files are missing, then rebuild the season's master pitch
    file from the downloaded files, cleaned. Any error of `execute`,
    `combine_all_data` or `clean_pitch_data` is raised again and the master
    pitch file is not written. */
module Season {
  import opened Common
  import opened Dates
  import opened Tables
  import opened FileUtils
  import opened Woba
  import opened Search
  import opened PitchData
  import opened Executor

  /** `clean_pitch_data` applied to every row, when every row's season has constants. */
  function CleanRows(t: Table, h: WobaConstantHistory): (r: Table)
    requires AllSeasonsKnown(t, h)
    ensures |r| == |t| && forall i :: 0 <= i < |t| ==> Ok(r[i]) == CleanRow(t[i], h)
  {
    seq(|t|, i requires 0 <= i < |t| => CleanRow(t[i], h).value)
  }

  /** Rows that agree with `clean_pitch_data` row by row are `CleanRows`. */
  lemma CleanRowsUnique(t: Table, h: WobaConstantHistory, cleaned: Table)
    requires AllSeasonsKnown(t, h)
    requires |cleaned| == |t| && forall i :: 0 <= i < |t| ==> Ok(cleaned[i]) == CleanRow(t[i], h)
    ensures cleaned == CleanRows(t, h)
  {
    var r := CleanRows(t, h);
    forall i | 0 <= i < |t|
      ensures cleaned[i] == r[i]
    {
      assert Ok(cleaned[i]) == Ok(r[i]);
    }
  }

  /** `clean_pitch_data` on the combined table: `ValueError` when it is
      empty, `KeyError` when a row's season has no constants, otherwise
      every row cleaned. */
  function CleanedTable(t: Table, h: WobaConstantHistory): Result<Table> {
    if |t| == 0 then Err(ValueError)
    else if !AllSeasonsKnown(t, h) then Err(KeyError)
    else Ok(CleanRows(t, h))
  }

  /** The combined table copied into a frame and cleaned in place. */
  method CleanCombined(t: Table, h: WobaConstantHistory) returns (r: Result<Table>)
    ensures r == CleanedTable(t, h)
  {
    var rows := new PitchRow[|t|](i requires 0 <= i < |t| => t[i]);
    assert rows[..] == t;
    var err := CleanPitchData(rows, h);
    if err.Some? {
      return Err(err.value);
    }
    CleanRowsUnique(t, h, rows[..]);
    r := Ok(rows[..]);
  }

  /** What `refresh` ends with: the error it raises, if any, and the files. */
  datatype RefreshOutcome = RefreshOutcome(raised: Option<Error>, files: FileMap)

  /** `refresh`: `execute`, then `combine_all_data`, then `clean_pitch_data`
      (which rejects an empty table), then the master pitch file is written;
      the first error stops the rest. */
  function RefreshSpec(s: SeasonPitchData, files: FileMap, server: seq<Response>, h: WobaConstantHistory, today: Date)
    : (r: RefreshOutcome)
    ensures var e := ExecuteSpec(s.manager, files, server, today);
            e.raised.Some? ==> r == RefreshOutcome(e.raised, e.files)
  {
    var e := ExecuteSpec(s.manager, files, server, today);
    if e.raised.Some? then RefreshOutcome(e.raised, e.files)
    else match CombineAllData(s.manager, e.files)
      case Err(err) => RefreshOutcome(Some(err), e.files)
      case Ok(t) =>
        match CleanedTable(t, h)
          case Err(err) => RefreshOutcome(Some(err), e.files)
          case Ok(cleaned) => RefreshOutcome(None, e.files[s.pitchDataFilePath := CsvFile(cleaned, today)])
  }

  /** `refresh` raises exactly when a download failed, the master BBE file
      is missing, the combined table is empty, or a combined row's season
      has no wOBA constants; when it raises, the master pitch file is left
      as `execute` left it, and when it does not, that file holds the
      combined rows, cleaned, and nothing else changes. */
  lemma RefreshOutcomes(s: SeasonPitchData, files: FileMap, server: seq<Response>, h: WobaConstantHistory, today: Date)
    ensures var r := RefreshSpec(s, files, server, h, today);
            var e := ExecuteSpec(s.manager, files, server, today);
            var c := CombineAllData(s.manager, e.files);
            (r.raised.None? <==> e.raised.None? && c.Ok? && |c.value| > 0 && AllSeasonsKnown(c.value, h))
            && (e.raised.None? && c.Ok? && |c.value| == 0 ==> r.raised == Some(ValueError))
            && (r.raised.Some? ==> r.files == e.files)
            && (r.raised.None? ==>
                  r.files.Keys == e.files.Keys + {s.pitchDataFilePath}
                  && (forall p :: p in e.files && p != s.pitchDataFilePath ==> r.files[p] == e.files[p])
                  && |r.files[s.pitchDataFilePath].rows| == |c.value|
                  && forall i :: 0 <= i < |c.value| ==> Ok(r.files[s.pitchDataFilePath].rows[i]) == CleanRow(c.value[i], h))
  {
    var r := RefreshSpec(s, files, server, h, today);
    var e := ExecuteSpec(s.manager, files, server, today);
    if e.raised.None? {
      var c := CombineAllData(s.manager, e.files);
      if c.Ok? {
        var t := c.value;
        if |t| > 0 && AllSeasonsKnown(t, h) {
          var cleaned := CleanRows(t, h);
          assert r.files == e.files[s.pitchDataFilePath := CsvFile(cleaned, today)];
        }
      }
    }
  }

  /** `refresh` on the files of `disk`, against a server that will give the responses `server`. */
  method Refresh(s: SeasonPitchData, disk: Disk, server: seq<Response>, h: WobaConstantHistory, today: Date)
    returns (raised: Option<Error>)
    modifies disk
    ensures var r := RefreshSpec(s, old(disk.files), server, h, today);
            raised == r.raised && disk.files == r.files
  {
    ghost var windows;
    raised, windows := Execute(s.manager, disk, server, today);
    if raised.Some? {
      return;
    }
    var combined := CombineAllData(s.manager, disk.files);
    if combined.Err? {
      return Some(combined.error);
    }
    var cleaned := CleanCombined(combined.value, h);
    if cleaned.Err? {
      return Some(cleaned.error);
    }
    disk.files := disk.files[s.pitchDataFilePath := CsvFile(cleaned.value, today)];
  }
}
