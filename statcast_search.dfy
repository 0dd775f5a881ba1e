/** mlb/statcast/statcast_search.py: the Statcast search query parameters
    and the HTTP retry loop. The server is an oracle: the sequence of
    responses it will give, one per request, held by the search object.
    When the sequence runs out, the request raises a connection error
    (a `requests.RequestException` that is not an `HTTPError`). */
module Search {
  import opened Common
  import opened Tables
  import opened Dates
  import opened StatsApi

  /** `STATCAST_SEARCH_MAX_ROWS`: the most rows one search returns. */
  const MaxRows := 25000

  /** `SeasonTypesParam`: one flag per Statcast "Season Type" filter. */
  datatype SeasonTypes = SeasonTypes(
    regular: bool,
    playoffs: bool,
    wildcard: bool,
    divisionSeries: bool,
    leagueChampionship: bool,
    worldSeries: bool,
    springTraining: bool)

  /** The flags in the order `to_string` visits them. */
  function Flags(p: SeasonTypes): (fl: seq<bool>)
    ensures |fl| == 7
  {
    [p.regular, p.playoffs, p.wildcard, p.divisionSeries,
     p.leagueChampionship, p.worldSeries, p.springTraining]
  }

  function FromFlags(fl: seq<bool>): (p: SeasonTypes)
    requires |fl| == 7
    ensures Flags(p) == fl
  {
    SeasonTypes(fl[0], fl[1], fl[2], fl[3], fl[4], fl[5], fl[6])
  }

  /** The value code of each flag, in the same order ("PO" has no statsapi game type). */
  const SeasonCodes: seq<string> := [GameTypeRegular, "PO", GameTypeWildcard, GameTypeDivSeries,
                                     GameTypeLcs, GameTypeWorldSeries, GameTypePreseason]

  const Delimiter := "|"

  /** `build_from_game_type_code`. */
  function BuildFromGameTypeCode(code: string): (p: SeasonTypes)
    ensures !p.playoffs
    ensures p.regular <==> code == GameTypeRegular
    ensures p.wildcard <==> code == GameTypeWildcard
    ensures p.divisionSeries <==> code == GameTypeDivSeries
    ensures p.leagueChampionship <==> code == GameTypeLcs
    ensures p.worldSeries <==> code == GameTypeWorldSeries
    ensures p.springTraining <==> code == GameTypePreseason
    ensures !IsGameTypeCode(code) ==> Flags(p) == [false, false, false, false, false, false, false]
  {
    SeasonTypes(
      regular := code == GameTypeRegular,
      playoffs := false,
      wildcard := code == GameTypeWildcard,
      divisionSeries := code == GameTypeDivSeries,
      leagueChampionship := code == GameTypeLcs,
      worldSeries := code == GameTypeWorldSeries,
      springTraining := code == GameTypePreseason)
  }

  /** No two flags are set together. */
  predicate AtMostOneFlag(p: SeasonTypes) {
    forall i, j :: 0 <= i < j < 7 ==> !(Flags(p)[i] && Flags(p)[j])
  }

  predicate NoFlag(p: SeasonTypes) {
    !p.regular && !p.playoffs && !p.wildcard && !p.divisionSeries
    && !p.leagueChampionship && !p.worldSeries && !p.springTraining
  }

  /** A built parameter selects exactly one season type for a known code and none otherwise. */
  lemma BuildFlags(code: string)
    ensures AtMostOneFlag(BuildFromGameTypeCode(code))
    ensures NoFlag(BuildFromGameTypeCode(code)) <==> !IsGameTypeCode(code)
  {
  }

  /** The appending of one flag's code in `to_string`. */
  function Piece(flag: bool, code: string): (s: string)
  {
    if flag then code + Delimiter else ""
  }

  /** `SeasonTypesParam.to_string`. */
  function SeasonTypesToString(p: SeasonTypes): (s: string)
    ensures s == "" <==> NoFlag(p)
  {
    Piece(p.regular, GameTypeRegular) + (Piece(p.playoffs, "PO") + (Piece(p.wildcard, GameTypeWildcard)
    + (Piece(p.divisionSeries, GameTypeDivSeries) + (Piece(p.leagueChampionship, GameTypeLcs)
    + (Piece(p.worldSeries, GameTypeWorldSeries) + Piece(p.springTraining, GameTypePreseason))))))
  }

  /** The same accumulation over any flags and codes, in order. */
  function Encode(fl: seq<bool>, codes: seq<string>): (s: string)
    requires |fl| == |codes|
  {
    if fl == [] then "" else Piece(fl[0], codes[0]) + Encode(fl[1..], codes[1..])
  }

  /** `to_string` visits the flags in the order R, PO, F, D, L, W, S. */
  lemma ToStringIsEncode(p: SeasonTypes)
    ensures SeasonTypesToString(p) == Encode(Flags(p), SeasonCodes)
  {
    var fl := Flags(p);
    var c := SeasonCodes;
    assert Encode(fl[7..], c[7..]) == "";
    assert Encode(fl[6..], c[6..]) == Piece(fl[6], c[6]);
    assert Encode(fl[5..], c[5..]) == Piece(fl[5], c[5]) + Encode(fl[6..], c[6..]);
    assert Encode(fl[4..], c[4..]) == Piece(fl[4], c[4]) + Encode(fl[5..], c[5..]);
    assert Encode(fl[3..], c[3..]) == Piece(fl[3], c[3]) + Encode(fl[4..], c[4..]);
    assert Encode(fl[2..], c[2..]) == Piece(fl[2], c[2]) + Encode(fl[3..], c[3..]);
    assert Encode(fl[1..], c[1..]) == Piece(fl[1], c[1]) + Encode(fl[2..], c[2..]);
  }

  /** Reading a `hfGT` value back: for each code in order, an optional `code|`. */
  function Decode(s: string, codes: seq<string>): (r: Option<seq<bool>>)
    ensures r.Some? ==> |r.value| == |codes|
  {
    if codes == [] then (if s == "" then Some([]) else None)
    else
      var t := codes[0] + Delimiter;
      if |t| <= |s| && s[..|t|] == t then
        match Decode(s[|t|..], codes[1..])
        case None => None
        case Some(rest) => Some([true] + rest)
      else
        match Decode(s, codes[1..])
        case None => None
        case Some(rest) => Some([false] + rest)
  }

  /** The codes are non-empty and start with distinct characters. */
  predicate CodesSeparable(codes: seq<string>) {
    (forall i :: 0 <= i < |codes| ==> codes[i] != "")
    && (forall i, j :: 0 <= i < j < |codes| ==> codes[i][0] != codes[j][0])
  }

  lemma {:induction false} EncodeStartsWithCode(fl: seq<bool>, codes: seq<string>)
    requires |fl| == |codes| && CodesSeparable(codes)
    requires Encode(fl, codes) != ""
    ensures exists j :: 0 <= j < |codes| && Encode(fl, codes)[0] == codes[j][0]
  {
    if fl[0] {
      assert Encode(fl, codes)[0] == codes[0][0];
    } else {
      EncodeStartsWithCode(fl[1..], codes[1..]);
      var j :| 0 <= j < |codes[1..]| && Encode(fl[1..], codes[1..])[0] == codes[1..][j][0];
      assert Encode(fl, codes)[0] == codes[j + 1][0];
    }
  }

  /** Decoding an encoding gives back the flags. */
  lemma {:induction false} DecodeEncode(fl: seq<bool>, codes: seq<string>)
    requires |fl| == |codes| && CodesSeparable(codes)
    ensures Decode(Encode(fl, codes), codes) == Some(fl)
  {
    if fl != [] {
      var t := codes[0] + Delimiter;
      var rest := Encode(fl[1..], codes[1..]);
      DecodeEncode(fl[1..], codes[1..]);
      if fl[0] {
        assert Encode(fl, codes) == t + rest;
        assert (t + rest)[..|t|] == t && (t + rest)[|t|..] == rest;
        assert fl == [true] + fl[1..];
      } else {
        assert Encode(fl, codes) == rest;
        if rest != "" {
          EncodeStartsWithCode(fl[1..], codes[1..]);
          var j :| 0 <= j < |codes[1..]| && rest[0] == codes[1..][j][0];
          assert rest[0] != t[0];
          if |t| <= |rest| {
            assert rest[..|t|][0] != t[0];
          }
        }
        assert fl == [false] + fl[1..];
      }
    }
  }

  /** `to_string` is injective: the `hfGT` value determines every flag. */
  lemma SeasonTypesRoundTrip(p: SeasonTypes)
    ensures Decode(SeasonTypesToString(p), SeasonCodes) == Some(Flags(p))
    ensures FromFlags(Decode(SeasonTypesToString(p), SeasonCodes).value) == p
  {
    ToStringIsEncode(p);
    SeasonCodesSeparable();
    DecodeEncode(Flags(p), SeasonCodes);
  }

  lemma SeasonCodesSeparable()
    ensures CodesSeparable(SeasonCodes)
  {
    var firsts := ['R', 'P', 'F', 'D', 'L', 'W', 'S'];
    assert forall i :: 0 <= i < 7 ==> SeasonCodes[i] != "" && SeasonCodes[i][0] == firsts[i];
  }

  /** For each known code, the built parameter's value is the code and the delimiter;
      for any other code it is empty, which applies no season-type filter. */
  lemma BuildToString(code: string)
    ensures IsGameTypeCode(code) ==> SeasonTypesToString(BuildFromGameTypeCode(code)) == code + Delimiter
    ensures !IsGameTypeCode(code) ==> SeasonTypesToString(BuildFromGameTypeCode(code)) == ""
  {
  }

  /** `PitchResultTypesParam`. */
  datatype PitchResultTypes = PitchResultTypes(battedBallEventsOnly: bool)

  const BbeOnlyValue := "hit\\.\\.into\\.\\.play|"

  /** `PitchResultTypesParam.to_string`: the escaped `hit_into_play` filter, or no filter. */
  function PitchResultTypesToString(p: PitchResultTypes): (s: string)
    ensures p.battedBallEventsOnly ==> s == BbeOnlyValue
    ensures s == "" <==> !p.battedBallEventsOnly
  {
    if p.battedBallEventsOnly then BbeOnlyValue else ""
  }

  /** The dates `StatcastSearchParams` accepts: empty, or parsed by `strptime("%Y-%m-%d")`. */
  predicate IsSearchDate(s: string) {
    s == "" || ParseYmd(s).Some?
  }

  /** Every date written by `isoformat` is accepted. */
  lemma IsoFormatIsSearchDate(d: Date)
    requires ValidDate(d)
    ensures IsSearchDate(IsoFormat(d))
  {
    ParseIsoFormat(d);
  }

  /** The unencoded query of a search. */
  type Query = map<string, string>

  /** The seven query keys every search sends. */
  const QueryKeys: set<string> := {"all", "game_date_gt", "game_date_lt", "hfGT", "hfPR", "group_by", "type"}

  /** `StatcastSearchParams`: its fields are reassigned by the searches that use it. */
  class StatcastSearchParams {
    var startDateIso: string
    var endDateIso: string
    const seasonTypes: SeasonTypes
    const pitchResultTypes: PitchResultTypes
    var groupBy: string
    var resultType: string

    constructor (startDateIso: string, endDateIso: string, seasonTypes: SeasonTypes,
                 pitchResultTypes: PitchResultTypes, groupBy: string, resultType: string)
      requires IsSearchDate(startDateIso) && IsSearchDate(endDateIso)
      ensures this.startDateIso == startDateIso && this.endDateIso == endDateIso
      ensures this.seasonTypes == seasonTypes && this.pitchResultTypes == pitchResultTypes
      ensures this.groupBy == groupBy && this.resultType == resultType
    {
      this.startDateIso := startDateIso;
      this.endDateIso := endDateIso;
      this.seasonTypes := seasonTypes;
      this.pitchResultTypes := pitchResultTypes;
      this.groupBy := groupBy;
      this.resultType := resultType;
    }

    /** `to_dict`. */
    function ToDict(): (q: Query)
      reads this
      ensures q.Keys == QueryKeys
      ensures q["all"] == "true"
      ensures q["game_date_gt"] == startDateIso && q["game_date_lt"] == endDateIso
      ensures Decode(q["hfGT"], SeasonCodes) == Some(Flags(seasonTypes))
      ensures q["hfPR"] == "" <==> !pitchResultTypes.battedBallEventsOnly
      ensures q["group_by"] == groupBy && q["type"] == resultType
    {
      SeasonTypesRoundTrip(seasonTypes);
      map["all" := "true",
          "game_date_gt" := startDateIso,
          "game_date_lt" := endDateIso,
          "hfGT" := SeasonTypesToString(seasonTypes),
          "hfPR" := PitchResultTypesToString(pitchResultTypes),
          "group_by" := groupBy,
          "type" := resultType]
    }
  }

  /** `StatcastSearchParams(...)`: a non-empty date that `strptime` rejects is a `ValueError`. */
  method NewSearchParams(startDateIso: string, endDateIso: string, seasonTypes: SeasonTypes,
                         pitchResultTypes: PitchResultTypes, groupBy: string, resultType: string)
    returns (r: Result<StatcastSearchParams>)
    ensures r.Err? <==> !IsSearchDate(startDateIso) || !IsSearchDate(endDateIso)
    ensures r.Err? ==> r.error == ValueError
    ensures r.Ok? ==> fresh(r.value)
    ensures r.Ok? ==> r.value.startDateIso == startDateIso && r.value.endDateIso == endDateIso
                      && r.value.seasonTypes == seasonTypes && r.value.pitchResultTypes == pitchResultTypes
                      && r.value.groupBy == groupBy && r.value.resultType == resultType
  {
    if startDateIso != "" && ParseYmd(startDateIso).None? {
      return Err(ValueError);
    }
    if endDateIso != "" && ParseYmd(endDateIso).None? {
      return Err(ValueError);
    }
    var p := new StatcastSearchParams(startDateIso, endDateIso, seasonTypes, pitchResultTypes, groupBy, resultType);
    r := Ok(p);
  }

  /** One HTTP response: its status code and, for a 200, the CSV rows of its content. */
  datatype Response = Response(status: int, content: Table)

  /** The statuses `raise_for_status` raises `HTTPError` for: the client and
      server error classes of section 15 of RFC 9110 (4xx and 5xx). */
  predicate RaisesForStatus(status: int) {
    400 <= status < 600
  }

  /** 524 is Cloudflare's non-standard "a timeout occurred" status. */
  const StatusTimeout := 524

  /** What a search ends with and how many responses it used. */
  datatype SearchOutcome = SearchOutcome(result: Result<Table>, used: nat)

  /** The retry loop of `get_statcast_search_data` over the responses still
      to come, `attempt` requests having been made already. A 2xx or 3xx
      status other than 200 neither returns nor raises: the loop goes on. */
  function RetryOutcome(responses: seq<Response>, maxRetries: int, attempt: nat): (o: SearchOutcome)
    ensures o.used <= |responses|
    ensures o.result.Ok? ==> 1 <= o.used && responses[o.used - 1].status == 200
                             && o.result.value == responses[o.used - 1].content
    ensures o.result.Err? ==> IsRequestException(o.result.error)
    ensures o.result.Err? && o.result.error.HttpError? ==>
              1 <= o.used && responses[o.used - 1].status == o.result.error.status
              && RaisesForStatus(o.result.error.status)
    ensures o.result == Err(HttpError(StatusTimeout)) ==> attempt + o.used > maxRetries
    ensures forall i :: 0 <= i < o.used - 1 ==>
              (responses[i].status != 200 && !RaisesForStatus(responses[i].status))
              || (responses[i].status == StatusTimeout && attempt + i + 1 <= maxRetries)
    ensures o.result == Err(ConnectionError) ==> o.used == |responses|
    ensures o.result == Err(ConnectionError) ==>
              forall i :: 0 <= i < o.used ==>
                (responses[i].status != 200 && !RaisesForStatus(responses[i].status))
                || (responses[i].status == StatusTimeout && attempt + i + 1 <= maxRetries)
    decreases |responses|
  {
    if responses == [] then SearchOutcome(Err(ConnectionError), 0)
    else
      var a := attempt + 1;
      var s := responses[0].status;
      if s == 200 then SearchOutcome(Ok(responses[0].content), 1)
      else if s == StatusTimeout && a <= maxRetries then
        var o := RetryOutcome(responses[1..], maxRetries, a);
        SearchOutcome(o.result, o.used + 1)
      else if RaisesForStatus(s) then SearchOutcome(Err(HttpError(s)), 1)
      else
        var o := RetryOutcome(responses[1..], maxRetries, a);
        SearchOutcome(o.result, o.used + 1)
  }

  /** Every response either succeeds, times out or raises: none keeps the loop going unconditionally. */
  predicate Decisive(responses: seq<Response>) {
    forall i :: 0 <= i < |responses| ==>
      responses[i].status == 200 || responses[i].status == StatusTimeout || RaisesForStatus(responses[i].status)
  }

  /** With decisive responses, the loop sends at most `max_retries + 1` requests in all. */
  lemma {:induction false} RetryBound(responses: seq<Response>, maxRetries: int, attempt: nat)
    requires Decisive(responses)
    ensures RetryOutcome(responses, maxRetries, attempt).used <=
              (if maxRetries > attempt then maxRetries - attempt else 0) + 1
    decreases |responses|
  {
    if responses != [] && responses[0].status == StatusTimeout && attempt + 1 <= maxRetries {
      RetryBound(responses[1..], maxRetries, attempt + 1);
    }
  }

  /** A 200 returns its content at once, whatever follows and whatever the budget. */
  lemma SuccessAtOnce(content: Table, later: seq<Response>, maxRetries: int, attempt: nat)
    ensures RetryOutcome([Response(200, content)] + later, maxRetries, attempt) == SearchOutcome(Ok(content), 1)
  {
  }

  /** A 524 followed by a 200, with one retry allowed, gives the second payload. */
  lemma TimeoutThenSuccess(first: Table, second: Table, later: seq<Response>)
    ensures RetryOutcome([Response(524, first), Response(200, second)] + later, 1, 0)
            == SearchOutcome(Ok(second), 2)
  {
    var rs := [Response(524, first), Response(200, second)] + later;
    assert rs[1..] == [Response(200, second)] + later;
  }

  /** Two 524s with one retry allowed raise an `HTTPError` without a third request. */
  lemma TimeoutTwice(first: Table, second: Table, third: Table, later: seq<Response>)
    ensures RetryOutcome([Response(524, first), Response(524, second), Response(200, third)] + later, 1, 0)
            == SearchOutcome(Err(HttpError(524)), 2)
  {
    var rs := [Response(524, first), Response(524, second), Response(200, third)] + later;
    assert rs[1..] == [Response(524, second), Response(200, third)] + later;
  }

  /** A 400 raises at once, whatever the retry budget. */
  lemma BadRequestRaises(content: Table, later: seq<Response>, maxRetries: int)
    ensures RetryOutcome([Response(400, content)] + later, maxRetries, 0) == SearchOutcome(Err(HttpError(400)), 1)
  {
  }

  /** `n` copies of the query `q`. */
  function Repeat(q: Query, n: nat): (qs: seq<Query>)
    ensures |qs| == n && forall i :: 0 <= i < n ==> qs[i] == q
  {
    if n == 0 then [] else Repeat(q, n - 1) + [q]
  }

  /** `StatcastSearch`: an optional requests session and the server it talks to. */
  class StatcastSearch {
    /** `self.session is not None`. */
    var hasSession: bool
    /** The session has not been closed yet. */
    var sessionOpen: bool
    /** The responses the server will give, in order. */
    var pending: seq<Response>
    /** The queries sent so far that got a response. */
    var sent: seq<Query>

    ghost predicate Valid()
      reads this
    {
      sessionOpen ==> hasSession
    }

    /** `StatcastSearch(use_session)`: a session exists exactly when asked for. */
    constructor (useSession: bool, server: seq<Response>)
      ensures Valid()
      ensures hasSession == useSession && sessionOpen == useSession
      ensures pending == server && sent == []
    {
      hasSession := useSession;
      sessionOpen := useSession;
      pending := server;
      sent := [];
    }

    /** `__exit__` and `__del__`: close the session, if there is one. */
    method Exit()
      requires Valid()
      modifies this
      ensures Valid() && !sessionOpen
      ensures hasSession == old(hasSession) && pending == old(pending) && sent == old(sent)
    {
      if hasSession {
        sessionOpen := false;
      }
    }

    /** One request: the server's next response, with the query recorded as sent. */
    method Send(query: Query) returns (resp: Response)
      requires pending != []
      modifies this
      ensures resp == old(pending)[0] && pending == old(pending)[1..] && sent == old(sent) + [query]
      ensures hasSession == old(hasSession) && sessionOpen == old(sessionOpen)
    {
      resp := pending[0];
      pending := pending[1..];
      sent := sent + [query];
    }

    /** `get_statcast_search_data`: send the query until a 200, a 524 past
        the retry budget, or another error status. */
    method GetStatcastSearchData(params: StatcastSearchParams, maxRetries: int) returns (r: Result<Table>)
      requires Valid()
      modifies this
      ensures Valid()
      ensures var o := RetryOutcome(old(pending), maxRetries, 0);
              r == o.result && pending == old(pending)[o.used..]
              && sent == old(sent) + Repeat(params.ToDict(), o.used)
      ensures hasSession == old(hasSession) && sessionOpen == old(sessionOpen)
    {
      var query := params.ToDict();
      ghost var server := pending;
      var attempt := 0;
      while true
        invariant attempt <= |server| && pending == server[attempt..]
        invariant sent == old(sent) + Repeat(query, attempt)
        invariant RetryOutcome(server, maxRetries, 0)
                  == var o := RetryOutcome(pending, maxRetries, attempt); SearchOutcome(o.result, o.used + attempt)
        invariant hasSession == old(hasSession) && sessionOpen == old(sessionOpen)
        decreases |pending|
      {
        if pending == [] {
          return Err(ConnectionError);
        }
        attempt := attempt + 1;
        var resp := Send(query);
        assert server[attempt..] == server[attempt - 1..][1..];
        if resp.status == 200 {
          return Ok(resp.content);
        } else if resp.status == StatusTimeout && attempt <= maxRetries {
          // retried
        } else if RaisesForStatus(resp.status) {
          return Err(HttpError(resp.status));
        }
      }
    }
  }

  /** `run_pitch_data_search`: individual pitches, two retries. */
  method RunPitchDataSearch(params: StatcastSearchParams, search: StatcastSearch) returns (r: Result<Table>)
    requires search.Valid()
    modifies params, search
    ensures search.Valid()
    ensures params.groupBy == "" && params.resultType == "details"
    ensures params.startDateIso == old(params.startDateIso) && params.endDateIso == old(params.endDateIso)
    ensures var o := RetryOutcome(old(search.pending), 2, 0);
            r == o.result && search.pending == old(search.pending)[o.used..]
            && search.sent == old(search.sent) + Repeat(params.ToDict(), o.used)
    ensures search.hasSession == old(search.hasSession) && search.sessionOpen == old(search.sessionOpen)
  {
    params.groupBy := "";
    params.resultType := "details";
    ghost var server := search.pending;
    ghost var sentBefore := search.sent;
    r := search.GetStatcastSearchData(params, 2);
    ghost var o := RetryOutcome(server, 2, 0);
    assert search.sent == sentBefore + Repeat(params.ToDict(), o.used);
  }

  /** `run_pitch_count_search`: pitch counts per team and date, no retries. */
  method RunPitchCountSearch(params: StatcastSearchParams, search: StatcastSearch) returns (r: Result<Table>)
    requires search.Valid()
    modifies params, search
    ensures search.Valid()
    ensures params.groupBy == "team-date" && params.resultType == ""
    ensures params.startDateIso == old(params.startDateIso) && params.endDateIso == old(params.endDateIso)
    ensures var o := RetryOutcome(old(search.pending), 0, 0);
            r == o.result && search.pending == old(search.pending)[o.used..]
            && search.sent == old(search.sent) + Repeat(params.ToDict(), o.used)
    ensures search.hasSession == old(search.hasSession) && search.sessionOpen == old(search.sessionOpen)
  {
    params.groupBy := "team-date";
    params.resultType := "";
    ghost var server := search.pending;
    ghost var sentBefore := search.sent;
    r := search.GetStatcastSearchData(params, 0);
    ghost var o := RetryOutcome(server, 0, 0);
    assert search.sent == sentBefore + Repeat(params.ToDict(), o.used);
  }
}
