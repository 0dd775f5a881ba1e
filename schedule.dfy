/** mlb/schedule.py: `Schedule.__init__`. The statsapi schedule fetch is an
    input (`fetched`, the "date" field of each game day in order) and
    `date.today()` is the parameter `today`. */
module Schedule {
  import opened Common
  import opened Dates
  import opened StatsApi

  datatype Schedule = Schedule(
    season: int,
    schedule: seq<string>,
    openingDay: Date,
    completed: seq<string>,
    mostRecent: Date)

  /** The schedule dates strictly earlier than `todayIso` (as strings), in schedule order. */
  function CompletedDates(dates: seq<string>, todayIso: string): (c: seq<string>)
    ensures |c| <= |dates|
    ensures forall x :: x in c <==> x in dates && StrLt(x, todayIso)
  {
    if dates == [] then []
    else
      assert dates == [dates[0]] + dates[1..];
      (if StrLt(dates[0], todayIso) then [dates[0]] else []) + CompletedDates(dates[1..], todayIso)
  }

  predicate StrictlyAscending(ds: seq<string>) {
    forall i, j :: 0 <= i < j < |ds| ==> StrLt(ds[i], ds[j])
  }

  /** In a schedule listed in date order, the completed dates are a prefix of it. */
  lemma {:induction false} CompletedIsPrefix(dates: seq<string>, todayIso: string)
    requires StrictlyAscending(dates)
    ensures var c := CompletedDates(dates, todayIso); c == dates[..|c|]
  {
    if dates != [] {
      var tail := dates[1..];
      var rest := CompletedDates(tail, todayIso);
      if StrLt(dates[0], todayIso) {
        AscendingTail(dates);
        CompletedIsPrefix(tail, todayIso);
        assert CompletedDates(dates, todayIso) == [dates[0]] + rest;
        assert dates[..|rest| + 1] == [dates[0]] + tail[..|rest|];
      } else {
        forall i | 0 <= i < |tail| ensures !StrLt(tail[i], todayIso) {
          if StrLt(tail[i], todayIso) {
            StrLtTransitive(dates[0], tail[i], todayIso);
          }
        }
        CompletedNone(tail, todayIso);
      }
    }
  }

  lemma AscendingTail(ds: seq<string>)
    requires ds != [] && StrictlyAscending(ds)
    ensures StrictlyAscending(ds[1..])
  {
    forall i, j | 0 <= i < j < |ds| - 1 ensures StrLt(ds[1..][i], ds[1..][j]) {
      assert ds[1..][i] == ds[i + 1] && ds[1..][j] == ds[j + 1];
    }
  }

  /** When no scheduled date is earlier than today, none is completed. */
  lemma {:induction false} CompletedNone(dates: seq<string>, todayIso: string)
    requires forall i :: 0 <= i < |dates| ==> !StrLt(dates[i], todayIso)
    ensures CompletedDates(dates, todayIso) == []
  {
    if dates != [] {
      CompletedNone(dates[1..], todayIso);
    }
  }

  /** When every scheduled date is earlier than today, every date is completed. */
  lemma {:induction false} CompletedAll(dates: seq<string>, todayIso: string)
    requires forall i :: 0 <= i < |dates| ==> StrLt(dates[i], todayIso)
    ensures CompletedDates(dates, todayIso) == dates
  {
    if dates != [] {
      CompletedAll(dates[1..], todayIso);
    }
  }

  /** `Schedule(season, game_type_code)` with the fetched schedule dates and today's date given. */
  function NewSchedule(season: int, gameTypeCode: string, thisYear: int, fetched: seq<string>, today: Date): (r: Result<Schedule>)
    requires ValidDate(today)
    ensures !IsGameTypeCode(gameTypeCode) ==> r == Err(ValueError)
    ensures !IsValidMlbSeason(season, thisYear) ==> r == Err(ValueError)
    ensures IsGameTypeCode(gameTypeCode) && IsValidMlbSeason(season, thisYear) && fetched == [] ==> r == Err(IndexError)
    ensures r.Ok? ==> fetched != [] && Some(r.value.openingDay) == ParseYmd(fetched[0])
    ensures r.Ok? ==> r.value.season == season && r.value.schedule == fetched
    ensures r.Ok? ==> forall x :: x in r.value.completed <==> x in fetched && StrLt(x, IsoFormat(today))
    ensures r.Ok? ==> r.value.completed != [] && r.value.completed == CompletedDates(fetched, IsoFormat(today))
                      && Some(r.value.mostRecent) == ParseYmd(r.value.completed[|r.value.completed| - 1])
    ensures r.Err? && fetched != [] && ParseYmd(fetched[0]).Some? && IsGameTypeCode(gameTypeCode)
            && IsValidMlbSeason(season, thisYear) && CompletedDates(fetched, IsoFormat(today)) == []
            ==> r == Err(IndexError)
  {
    if GameTypeStr(gameTypeCode) == "Unknown" then Err(ValueError)
    else if !IsValidMlbSeason(season, thisYear) then Err(ValueError)
    else if fetched == [] then Err(IndexError)
    else match ParseYmd(fetched[0])
      case None => Err(ValueError)
      case Some(opening) =>
        var completed := CompletedDates(fetched, IsoFormat(today));
        if completed == [] then Err(IndexError)
        else match ParseYmd(completed[|completed| - 1])
          case None => Err(ValueError)
          case Some(recent) => Ok(Schedule(season, fetched, opening, completed, recent))
  }

  /** The schedule dates, written out in ISO format from valid dates `ds`. */
  predicate IsoSchedule(fetched: seq<string>, ds: seq<Date>) {
    |fetched| == |ds|
    && (forall i :: 0 <= i < |ds| ==> ValidDate(ds[i]))
    && (forall i :: 0 <= i < |ds| ==> fetched[i] == IsoFormat(ds[i]))
  }

  /** After the season's last game, every date is completed and the most
      recent game date is the last scheduled date. */
  lemma AfterSeason(season: int, code: string, thisYear: int, fetched: seq<string>, ds: seq<Date>, today: Date)
    requires ValidDate(today) && IsoSchedule(fetched, ds) && fetched != []
    requires IsGameTypeCode(code) && IsValidMlbSeason(season, thisYear)
    requires forall i :: 0 <= i < |ds| ==> Before(ds[i], today)
    ensures var r := NewSchedule(season, code, thisYear, fetched, today);
            r.Ok? && r.value.completed == fetched && r.value.mostRecent == ds[|ds| - 1]
            && r.value.openingDay == ds[0]
  {
    forall i | 0 <= i < |fetched| ensures StrLt(fetched[i], IsoFormat(today)) {
      IsoFormatOrder(ds[i], today);
    }
    CompletedAll(fetched, IsoFormat(today));
    ParseIsoFormat(ds[0]);
    ParseIsoFormat(ds[|ds| - 1]);
  }

  /** In mid-season (the last scheduled date is today or later), some date
      is not yet completed and the most recent game date is not the last
      scheduled one. */
  lemma MidSeason(season: int, code: string, thisYear: int, fetched: seq<string>, ds: seq<Date>, today: Date)
    requires ValidDate(today) && IsoSchedule(fetched, ds) && fetched != []
    requires !Before(ds[|ds| - 1], today)
    ensures var r := NewSchedule(season, code, thisYear, fetched, today);
            r.Ok? ==> r.value.completed != fetched && r.value.mostRecent != ds[|ds| - 1]
  {
    var r := NewSchedule(season, code, thisYear, fetched, today);
    if r.Ok? {
      LastDateNotCompleted(fetched, ds, today, r.value.completed, r.value.mostRecent);
    }
  }

  /** When the last scheduled date is not before today, the completed dates
      leave it out, so the last completed one parses to another date. */
  lemma LastDateNotCompleted(fetched: seq<string>, ds: seq<Date>, today: Date, c: seq<string>, recent: Date)
    requires ValidDate(today) && IsoSchedule(fetched, ds) && fetched != []
    requires !Before(ds[|ds| - 1], today)
    requires c != [] && forall x :: x in c <==> x in fetched && StrLt(x, IsoFormat(today))
    requires Some(recent) == ParseYmd(c[|c| - 1])
    ensures c != fetched && recent != ds[|ds| - 1]
  {
    var last := |ds| - 1;
    IsoFormatOrder(ds[last], today);
    assert fetched[last] !in c;
    var k := IndexIn(fetched, c[|c| - 1]);
    assert ds[k] != ds[last];
    IsoParsesToItself(ds[k], ds[last]);
  }

  /** The ISO text of a date parses to no other date. */
  lemma IsoParsesToItself(d: Date, e: Date)
    requires ValidDate(d) && d != e
    ensures ParseYmd(IsoFormat(d)) != Some(e)
  {
    ParseIsoFormat(d);
  }

  /** The position of an element of a sequence. */
  lemma IndexIn(s: seq<string>, y: string) returns (k: nat)
    requires y in s
    ensures k < |s| && s[k] == y
  {
    k :| 0 <= k < |s| && s[k] == y;
  }
}
