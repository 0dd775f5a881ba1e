/** mlb/statsapi/statsapi.py: game-type names, season validation, and the
    query parameters each statsapi request is sent with. The HTTP request
    itself (`_get_api_payload`) and the JSON it returns are not modelled;
    each operation here ends with the parameters it would send. */
module StatsApi {
  import opened Common

  const FirstMlbYear := 1876

  const GameTypePreseason := "S"
  const GameTypeRegular := "R"
  const GameTypeWildcard := "F"
  const GameTypeDivSeries := "D"
  const GameTypeLcs := "L"
  const GameTypeWorldSeries := "W"

  const RosterTypeFull := "fullRoster"
  const RosterTypeActive := "active"

  /** The six game-type codes statsapi knows. */
  predicate IsGameTypeCode(code: string) {
    code in [GameTypePreseason, GameTypeRegular, GameTypeWildcard,
             GameTypeDivSeries, GameTypeLcs, GameTypeWorldSeries]
  }

  /** `game_type_str`: the word used in file names for a game-type code. */
  function GameTypeStr(code: string): (r: string)
    ensures r == "Unknown" <==> !IsGameTypeCode(code)
    ensures code == GameTypePreseason ==> r == "Preseason"
    ensures code == GameTypeRegular ==> r == "Regular"
    ensures code == GameTypeWildcard ==> r == "Wildcard"
    ensures code == GameTypeDivSeries ==> r == "DivisionSeries"
    ensures code == GameTypeLcs ==> r == "LeagueChampionshipSeries"
    ensures code == GameTypeWorldSeries ==> r == "WorldSeries"
  {
    if code == GameTypePreseason then "Preseason"
    else if code == GameTypeRegular then "Regular"
    else if code == GameTypeWildcard then "Wildcard"
    else if code == GameTypeDivSeries then "DivisionSeries"
    else if code == GameTypeLcs then "LeagueChampionshipSeries"
    else if code == GameTypeWorldSeries then "WorldSeries"
    else "Unknown"
  }

  /** `is_valid_mlb_season`; `thisYear` is `date.today().year` at import time. */
  function IsValidMlbSeason(season: int, thisYear: int): (valid: bool)
    ensures valid <==> FirstMlbYear <= season && season <= thisYear + 1
  {
    FirstMlbYear <= season <= thisYear + 1
  }

  /** A value in a statsapi query-parameter dictionary. */
  datatype ParamValue = PStr(s: string) | PInt(i: int)

  type Params = map<string, ParamValue>

  /** A Python `dict` of query parameters, an object the callee may mutate. */
  class ParamDict {
    var entries: Params

    constructor (entries: Params)
      ensures this.entries == entries
    {
      this.entries := entries;
    }
  }

  /** Python's truth value of an optional season (`if season:`): None and 0 are false. */
  predicate SeasonGiven(season: Option<int>) {
    season.Some? && season.value != 0
  }

  /** The parameter construction and season validation of `get_team_roster`. */
  function TeamRosterParams(season: Option<int>, rosterType: Option<string>, thisYear: int): (r: Result<Params>)
    ensures r.Err? <==> SeasonGiven(season) && !IsValidMlbSeason(season.value, thisYear)
    ensures r.Err? ==> r.error == ValueError
    ensures r.Ok? ==> "hydrate" in r.value && r.value["hydrate"] == PStr("person")
    ensures r.Ok? ==> ("season" in r.value <==> SeasonGiven(season))
    ensures r.Ok? && SeasonGiven(season) ==> r.value["season"] == PInt(season.value)
    ensures r.Ok? ==> ("rosterType" in r.value <==>
                        rosterType == Some(RosterTypeFull) || rosterType == Some(RosterTypeActive))
    ensures r.Ok? && "rosterType" in r.value ==> r.value["rosterType"] == PStr(rosterType.value)
    ensures r.Ok? ==> r.value.Keys <= {"hydrate", "season", "rosterType"}
  {
    var base: Params := map["hydrate" := PStr("person")];
    if SeasonGiven(season) && !IsValidMlbSeason(season.value, thisYear) then Err(ValueError)
    else
      var withSeason := if SeasonGiven(season) then base["season" := PInt(season.value)] else base;
      if rosterType == Some(RosterTypeFull) || rosterType == Some(RosterTypeActive)
      then Ok(withSeason["rosterType" := PStr(rosterType.value)])
      else Ok(withSeason)
  }

  /** The parameter construction and season validation of `get_all_players_for_season`. */
  function AllPlayersParams(season: Option<int>, thisYear: int): (r: Result<Params>)
    ensures r.Err? <==> SeasonGiven(season) && !IsValidMlbSeason(season.value, thisYear)
    ensures r.Err? ==> r.error == ValueError
    ensures r.Ok? ==> r.value.Keys <= {"hydrate", "season"} && "hydrate" in r.value && r.value["hydrate"] == PStr("person")
    ensures r.Ok? ==> ("season" in r.value <==> SeasonGiven(season))
    ensures r.Ok? && SeasonGiven(season) ==> r.value["season"] == PInt(season.value)
  {
    if !SeasonGiven(season) then Ok(map["hydrate" := PStr("person")])
    else if !IsValidMlbSeason(season.value, thisYear) then Err(ValueError)
    else Ok(map["hydrate" := PStr("person"), "season" := PInt(season.value)])
  }

  /** The `lang` / `sportId` defaults of `get_schedule` (`DEFAULT_PARAMS`). */
  const DefaultLang := PStr("en")
  const DefaultSportId := PInt(1)

  /** `get_schedule(params)` up to the request: a missing dict becomes a new
      one, and `lang` and `sportId` are added only when absent, in the
      caller's own dict. Returns the dict that is sent. */
  method ScheduleRequestParams(params: ParamDict?) returns (sent: ParamDict)
    modifies params
    ensures params != null ==> sent == params
    ensures params == null ==> fresh(sent)
    ensures var before := if params == null then map[] else old(params.entries);
            sent.entries.Keys == before.Keys + {"lang", "sportId"}
            && (forall k :: k in before ==> sent.entries[k] == before[k])
            && ("lang" !in before ==> sent.entries["lang"] == DefaultLang)
            && ("sportId" !in before ==> sent.entries["sportId"] == DefaultSportId)
  {
    if params == null {
      sent := new ParamDict(map[]);
    } else {
      sent := params;
    }
    if "lang" !in sent.entries {
      sent.entries := sent.entries["lang" := DefaultLang];
    }
    if "sportId" !in sent.entries {
      sent.entries := sent.entries["sportId" := DefaultSportId];
    }
  }

  /** `get_teams_for_season` up to the request, AS WRITTEN: `params =
      DEFAULT_PARAMS` aliases the module-level dict, so a given season is
      stored into the shared defaults themselves. */
  method TeamsForSeasonParamsAsWritten(defaults: ParamDict, season: Option<int>, thisYear: int)
    returns (r: Result<ParamDict>)
    modifies defaults
    ensures r.Err? <==> SeasonGiven(season) && !IsValidMlbSeason(season.value, thisYear)
    ensures r.Ok? ==> r.value == defaults
    ensures r.Ok? && SeasonGiven(season) ==> defaults.entries == old(defaults.entries)["season" := PInt(season.value)]
    ensures !(r.Ok? && SeasonGiven(season)) ==> defaults.entries == old(defaults.entries)
  {
    var params := defaults;
    if SeasonGiven(season) {
      if !IsValidMlbSeason(season.value, thisYear) {
        return Err(ValueError);
      }
      params.entries := params.entries["season" := PInt(season.value)];
    }
    r := Ok(params);
  }

  /** The consequence: after one call for the 2022 season, a later call
      without a season still asks for the 2022 teams. */
  method TeamsForSeasonLeak() returns (second: Result<ParamDict>)
    ensures second.Ok? && "season" in second.value.entries && second.value.entries["season"] == PInt(2022)
  {
    var defaults := new ParamDict(map["lang" := DefaultLang, "sportId" := DefaultSportId]);
    var first := TeamsForSeasonParamsAsWritten(defaults, Some(2022), 2025);
    second := TeamsForSeasonParamsAsWritten(defaults, None, 2025);
  }

  /** `get_teams_for_season` parameters as evidently intended: the
      defaults plus the season, in a new dict, leaving the defaults alone. */
  function TeamsForSeasonParams(defaults: Params, season: Option<int>, thisYear: int): (r: Result<Params>)
    ensures r.Err? <==> SeasonGiven(season) && !IsValidMlbSeason(season.value, thisYear)
    ensures r.Ok? && !SeasonGiven(season) ==> r.value == defaults
    ensures r.Ok? && SeasonGiven(season) ==>
              r.value.Keys == defaults.Keys + {"season"} && r.value["season"] == PInt(season.value)
              && forall k :: k in defaults && k != "season" ==> r.value[k] == defaults[k]
  {
    if !SeasonGiven(season) then Ok(defaults)
    else if !IsValidMlbSeason(season.value, thisYear) then Err(ValueError)
    else Ok(defaults["season" := PInt(season.value)])
  }

  /** With the corrected construction the defaults are never written, so a
      call without a season sends them, without a season, whatever seasons
      earlier calls asked for. */
  lemma TeamsForSeasonNoLeak(defaults: Params, thisYear: int)
    requires "season" !in defaults
    ensures TeamsForSeasonParams(defaults, None, thisYear) == Ok(defaults)
    ensures "season" !in TeamsForSeasonParams(defaults, None, thisYear).value
  {
  }

  /** `get_teams_for_season` as evidently intended, on the shared defaults
      object: the parameters go into a new dict built from the defaults, and
      the defaults object itself is never written (no `modifies`). */
  method TeamsForSeasonParamsCopy(defaults: ParamDict, season: Option<int>, thisYear: int)
    returns (r: Result<ParamDict>)
    ensures r.Err? <==> TeamsForSeasonParams(defaults.entries, season, thisYear).Err?
    ensures r.Ok? ==> fresh(r.value) && Ok(r.value.entries) == TeamsForSeasonParams(defaults.entries, season, thisYear)
  {
    var p := TeamsForSeasonParams(defaults.entries, season, thisYear);
    if p.Err? {
      return Err(p.error);
    }
    var params := new ParamDict(p.value);
    r := Ok(params);
  }

  /** The same two calls as `TeamsForSeasonLeak`, corrected: the call
      without a season sends no season. */
  method TeamsForSeasonNoLeakTwice() returns (second: Result<ParamDict>)
    ensures second.Ok? && "season" !in second.value.entries
  {
    var defaults := new ParamDict(map["lang" := DefaultLang, "sportId" := DefaultSportId]);
    var first := TeamsForSeasonParamsCopy(defaults, Some(2022), 2025);
    second := TeamsForSeasonParamsCopy(defaults, None, 2025);
  }
}
