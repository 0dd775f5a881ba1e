/** mlb/stats/woba.py: per-season wOBA weights and their lookup by event.
    The weights are stored values only; no arithmetic is done on them. */
module Woba {
  import opened Common
  import opened Dates
  import opened FileUtils

  /** `SeasonWOBAConstants`. */
  datatype SeasonWobaConstants = SeasonWobaConstants(
    season: int,
    leagueWoba: real,
    wobaScale: real,
    weightBb: real,
    weightHbp: real,
    weight1b: real,
    weight2b: real,
    weight3b: real,
    weightHr: real)

  /** The six events that carry a wOBA weight. */
  predicate IsWeightedEvent(event: string) {
    event in ["walk", "hit_by_pitch", "single", "double", "triple", "home_run"]
  }

  /** `constant_from_event`: the weight for the event, 0.0 for any other event. */
  function ConstantFromEvent(c: SeasonWobaConstants, event: string): (w: real)
    ensures event == "walk" ==> w == c.weightBb
    ensures event == "hit_by_pitch" ==> w == c.weightHbp
    ensures event == "single" ==> w == c.weight1b
    ensures event == "double" ==> w == c.weight2b
    ensures event == "triple" ==> w == c.weight3b
    ensures event == "home_run" ==> w == c.weightHr
    ensures !IsWeightedEvent(event) ==> w == 0.0
  {
    if event == "walk" then c.weightBb
    else if event == "hit_by_pitch" then c.weightHbp
    else if event == "single" then c.weight1b
    else if event == "double" then c.weight2b
    else if event == "triple" then c.weight3b
    else if event == "home_run" then c.weightHr
    else 0.0
  }

  /** The weight never depends on the league wOBA, the scale or the season. */
  lemma ConstantFromEventOnlyWeights(a: SeasonWobaConstants, b: SeasonWobaConstants, event: string)
    requires a.weightBb == b.weightBb && a.weightHbp == b.weightHbp && a.weight1b == b.weight1b
    requires a.weight2b == b.weight2b && a.weight3b == b.weight3b && a.weightHr == b.weightHr
    ensures ConstantFromEvent(a, event) == ConstantFromEvent(b, event)
  {
  }

  /** `WOBAConstantHistory.seasons`, keyed by the CSV's "Season" text. */
  type WobaConstantHistory = map<string, SeasonWobaConstants>

  /** `get_constant_for_event`: `KeyError` for a season with no constants. */
  function GetConstantForEvent(h: WobaConstantHistory, season: string, event: string): (r: Result<real>)
    ensures season !in h <==> r == Err(KeyError)
    ensures season in h ==> r == Ok(ConstantFromEvent(h[season], event))
  {
    if season in h then Ok(ConstantFromEvent(h[season], event)) else Err(KeyError)
  }

  /** One CSV row of the constants file: its "Season" text and the parsed constants. */
  datatype ConstantsRow = ConstantsRow(key: string, constants: SeasonWobaConstants)

  /** The dict comprehension of `load_from_file`: a later row with the same
      "Season" text replaces an earlier one. */
  function HistoryFromRows(rows: seq<ConstantsRow>): (h: WobaConstantHistory)
    ensures forall k :: k in h <==> exists i :: 0 <= i < |rows| && rows[i].key == k
  {
    if rows == [] then map[]
    else
      var last := rows[|rows| - 1];
      var init := rows[..|rows| - 1];
      var h := HistoryFromRows(init);
      assert forall i :: 0 <= i < |init| ==> init[i] == rows[i];
      h[last.key := last.constants]
  }

  /** The last row carrying a season's text is the one the history keeps. */
  lemma {:induction false} HistoryFromRowsLastWins(rows: seq<ConstantsRow>, i: int)
    requires 0 <= i < |rows|
    requires forall j :: i < j < |rows| ==> rows[j].key != rows[i].key
    ensures rows[i].key in HistoryFromRows(rows)
    ensures HistoryFromRows(rows)[rows[i].key] == rows[i].constants
  {
    if i < |rows| - 1 {
      var init := rows[..|rows| - 1];
      HistoryFromRowsLastWins(init, i);
    }
  }

  /** The guard and refresh decision of `load_from_file`: an empty path is
      a `ValueError` before anything else; otherwise the constants are
      downloaded again exactly when `use_fangraphs` is set and the file is
      stale (missing, or created on or before `staleBy`). */
  function LoadRefreshDecision(filePath: string, staleBy: Date, useFangraphs: bool, files: FileMap): (r: Result<bool>)
    ensures filePath == "" <==> r == Err(ValueError)
    ensures r.Ok? ==> (r.value <==> useFangraphs && IsFileStale(files, filePath, staleBy))
    ensures r.Ok? && useFangraphs && filePath !in files ==> r.value
  {
    if filePath == "" then Err(ValueError)
    else Ok(useFangraphs && IsFileStale(files, filePath, staleBy))
  }
}
