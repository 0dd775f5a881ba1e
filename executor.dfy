/** `PitchDataDownloadManager.execute` (mlb/statcast/pitch_data.py): the walk
    over the planned dates that groups flagged dates into search windows
    under the row cap, one accumulator per search plan ("all pitches" and
    "BBE only"). The walk is specified as a fold (`Walked`) and
    implemented by `Execute` with the source's nested loops. Each call of
    `download_pitch_data` is recorded as a `Window`, so that the windows
    searched, and the files they write, can be stated. */
module Executor {
  import opened Common
  import opened Dates
  import opened Tables
  import opened FileUtils
  import opened Search
  import opened PitchData

  /** The two entries of `search_plans`. */
  datatype PlanKind = AllPitches | BbeOnly

  /** `plan_df.loc[day_num, plan["download_col"]]`. */
  predicate Flagged(row: PlanRow, kind: PlanKind) {
    if kind.AllPitches? then row.downloadAll else row.downloadBbe
  }

  /** `plan_df.loc[day_num, plan["pitch_count_col"]]`. A date flagged for BBE
      only always has a BBE count (`PlanFlags`), so the 0 is never used. */
  function CountOf(row: PlanRow, kind: PlanKind): nat {
    if kind.AllPitches? then row.pitches else if row.bbe.Some? then row.bbe.value else 0
  }

  /** A plan's `pitch_count` and its params' `start_date_iso` / `end_date_iso`. */
  datatype Acc = Acc(count: nat, start: string, end: string)

  const EmptyAcc := Acc(0, "", "")

  /** One call of `download_pitch_data`: the plan, the dates searched, the
      plan's `pitch_count` at that moment, and the table the search
      returned, or `None` when it failed. */
  datatype Window = Window(kind: PlanKind, start: string, end: string, count: nat, fetched: Option<Table>) {
    predicate Ok() {
      fetched.Some?
    }
  }

  /** The accumulator a `Window` downloaded. */
  function AccOfWindow(x: Window): Acc {
    Acc(x.count, x.start, x.end)
  }

  /** What the plans share: the server's remaining responses and the windows so far. */
  datatype Walk = Walk(server: seq<Response>, windows: seq<Window>)

  datatype PlanState = PlanState(acc: Acc, walk: Walk)

  /** Whether the next download succeeds. */
  predicate FlushOk(w: Walk) {
    RetryOutcome(w.server, 2, 0).result.Ok?
  }

  /** `download_pitch_data` for a plan's current window. */
  function Flush(kind: PlanKind, acc: Acc, w: Walk): (w': Walk)
    ensures exists x :: w'.windows == w.windows + [x]
              && x.kind == kind && x.start == acc.start && x.end == acc.end && x.count == acc.count
              && (x.Ok() <==> FlushOk(w))
  {
    var o := RetryOutcome(w.server, 2, 0);
    Walk(w.server[o.used..],
         w.windows + [Window(kind, acc.start, acc.end, acc.count, if o.result.Ok? then Some(o.result.value) else None)])
  }

  /** The flagged-date branch after the cap check: the date becomes the
      window's end, the start is set if still empty, and the last date flushes. */
  function Extend(kind: PlanKind, acc: Acc, w: Walk, row: PlanRow, isLast: bool): (s: PlanState)
    ensures s.acc.count == acc.count && s.acc.end == row.gameDate
    ensures s.acc.start == if acc.start == "" then row.gameDate else acc.start
    ensures !isLast ==> s.walk == w
    ensures isLast ==> s.walk == Flush(kind, s.acc, w)
  {
    var a := acc.(end := row.gameDate);
    var b := if a.start == "" then a.(start := a.end) else a;
    if isLast then PlanState(b, Flush(kind, b, w)) else PlanState(b, w)
  }

  /** The inner loop's body for a date the plan needs: the cap check, then `Extend`. */
  function FlaggedStep(kind: PlanKind, s: PlanState, row: PlanRow, isLast: bool): PlanState {
    var acc := s.acc;
    var cnt := CountOf(row, kind);
    if acc.count + cnt > MaxRows then
      var w1 := Flush(kind, acc, s.walk);
      if !FlushOk(s.walk) then PlanState(acc, w1)
      else Extend(kind, Acc(cnt, row.gameDate, acc.end), w1, row, isLast)
    else Extend(kind, Acc(acc.count + cnt, acc.start, acc.end), s.walk, row, isLast)
  }

  /** The inner loop's body for a date the plan does not need: an open window is downloaded and reset. */
  function GapStep(kind: PlanKind, s: PlanState): PlanState {
    if s.acc.start != "" then
      var w1 := Flush(kind, s.acc, s.walk);
      if !FlushOk(s.walk) then PlanState(s.acc, w1) else PlanState(EmptyAcc, w1)
    else s
  }

  /** The body of the inner loop (`for plan in search_plans`) for one plan and one date. */
  function PlanStep(kind: PlanKind, s: PlanState, row: PlanRow, isLast: bool): PlanState {
    if Flagged(row, kind) then FlaggedStep(kind, s, row, isLast) else GapStep(kind, s)
  }

  /** Both plans' accumulators and what they share. */
  datatype ExecState = ExecState(all: Acc, bbe: Acc, walk: Walk)

  /** One iteration of the outer loop: the "all pitches" plan, then the "BBE only" plan. */
  function DayStep(s: ExecState, plan: seq<PlanRow>, k: nat): ExecState
    requires k < |plan|
  {
    var isLast := k == |plan| - 1;
    var a := PlanStep(AllPitches, PlanState(s.all, s.walk), plan[k], isLast);
    var b := PlanStep(BbeOnly, PlanState(s.bbe, a.walk), plan[k], isLast);
    ExecState(a.acc, b.acc, b.walk)
  }

  /** The state after the first `n` dates. */
  function Walked(s0: ExecState, plan: seq<PlanRow>, n: nat): ExecState
    requires n <= |plan|
  {
    if n == 0 then s0 else DayStep(Walked(s0, plan, n - 1), plan, n - 1)
  }

  /** The files after the downloads of `windows`, in order: each successful
      one writes its table as `download_pitch_data` does; a failed one writes nothing. */
  function Written(m: DownloadManager, files: FileMap, windows: seq<Window>, today: Date): FileMap
    decreases |windows|, 1
  {
    if windows == [] then files else WrittenLast(m, files, windows, today)
  }

  /** The files after the last download of a non-empty log. */
  function WrittenLast(m: DownloadManager, files: FileMap, windows: seq<Window>, today: Date): FileMap
    requires windows != []
    decreases |windows|, 0
  {
    var before := Written(m, files, windows[..|windows| - 1], today);
    var last := windows[|windows| - 1];
    if last.fetched.Some? then WriteResults(m, before, last.kind.BbeOnly?, last.fetched.value, today) else before
  }

  /** `Written` one more window at a time. */
  lemma WrittenSnoc(m: DownloadManager, files: FileMap, ws: seq<Window>, x: Window, today: Date)
    ensures Written(m, files, ws + [x], today)
            == if x.fetched.Some? then WriteResults(m, Written(m, files, ws, today), x.kind.BbeOnly?, x.fetched.value, today)
               else Written(m, files, ws, today)
  {
    assert (ws + [x])[..|ws|] == ws;
  }

  /** The number of failed downloads in a log: `download_errors`. */
  function Failures(ws: seq<Window>): nat {
    if ws == [] then 0 else Failures(ws[..|ws| - 1]) + (if ws[|ws| - 1].Ok() then 0 else 1)
  }

  lemma {:induction false} NoFailuresAllOk(ws: seq<Window>)
    ensures Failures(ws) == 0 <==> forall i :: 0 <= i < |ws| ==> ws[i].Ok()
  {
    if ws != [] {
      NoFailuresAllOk(ws[..|ws| - 1]);
      assert forall i :: 0 <= i < |ws| - 1 ==> ws[..|ws| - 1][i] == ws[i];
    }
  }

  /** Some date needs a download. */
  predicate AnyFlagged(plan: seq<PlanRow>) {
    exists i :: 0 <= i < |plan| && (plan[i].downloadAll || plan[i].downloadBbe)
  }

  /** The start of the walk: both windows empty, no search yet. */
  function InitialState(server: seq<Response>): ExecState {
    ExecState(EmptyAcc, EmptyAcc, Walk(server, []))
  }

  /** What `execute` ends with: the error it raises, if any, and the walk's effects. */
  datatype ExecOutcome = ExecOutcome(raised: Option<Error>, files: FileMap, server: seq<Response>, windows: seq<Window>)

  /** `execute`: nothing to do returns at once; otherwise the walk runs to
      the end and a `RuntimeError` follows if any download failed. */
  function ExecuteSpec(m: DownloadManager, files: FileMap, server: seq<Response>, today: Date): ExecOutcome {
    var plan := GameDateDownloadPlan(m, files);
    if !AnyFlagged(plan) then ExecOutcome(None, files, server, [])
    else
      var w := Walked(InitialState(server), plan, |plan|).walk;
      ExecOutcome(if Failures(w.windows) > 0 then Some(RuntimeError) else None,
                  Written(m, files, w.windows, today), w.server, w.windows)
  }

  // ---------------------------------------------------------------------------------------------
  // Properties of the walk

  /** The cap is a look-ahead with a strict `>`: after a step, a plan's count
      is within the cap, or is the count of the single date that just
      overflowed, or is unchanged because that date's flush failed. */
  lemma PlanStepCap(kind: PlanKind, s: PlanState, row: PlanRow, isLast: bool)
    ensures var s' := PlanStep(kind, s, row, isLast);
            s'.acc.count <= MaxRows || s'.acc.count == CountOf(row, kind) || s'.acc == s.acc
  {
  }

  /** A plan's rows stay within the cap, unless its window is the single
      date `start` = `end` of the plan whose own count alone exceeds it. */
  predicate Capped(kind: PlanKind, acc: Acc, plan: seq<PlanRow>) {
    acc.count <= MaxRows
    || (acc.start == acc.end
        && exists i :: 0 <= i < |plan| && plan[i].gameDate == acc.start && CountOf(plan[i], kind) == acc.count)
  }

  /** Every window downloaded so far is `Capped` for its plan. */
  predicate WindowsCapped(ws: seq<Window>, plan: seq<PlanRow>) {
    forall j :: 0 <= j < |ws| ==> Capped(ws[j].kind, AccOfWindow(ws[j]), plan)
  }

  /** A plan's step keeps the earlier windows and downloads only its old or its new window. */
  lemma PlanStepWindows(kind: PlanKind, s: PlanState, row: PlanRow, isLast: bool)
    ensures var s' := PlanStep(kind, s, row, isLast);
            var n := |s.walk.windows|;
            n <= |s'.walk.windows| && s'.walk.windows[..n] == s.walk.windows
            && forall j :: n <= j < |s'.walk.windows| ==>
                 AccOfWindow(s'.walk.windows[j]) == s.acc || AccOfWindow(s'.walk.windows[j]) == s'.acc
  {
    var s' := PlanStep(kind, s, row, isLast);
    var n := |s.walk.windows|;
    if Flagged(row, kind) && s.acc.count + CountOf(row, kind) > MaxRows && FlushOk(s.walk) && isLast {
      var w1 := Flush(kind, s.acc, s.walk);
      assert |w1.windows| == n + 1 && AccOfWindow(w1.windows[n]) == s.acc;
      assert s'.walk == Flush(kind, s'.acc, w1);
      assert s'.walk.windows == w1.windows + [s'.walk.windows[n + 1]];
    }
  }

  /** One plan's step keeps its window, and every window downloaded, `Capped`. */
  lemma PlanStepKeepsCap(kind: PlanKind, s: PlanState, plan: seq<PlanRow>, k: nat, isLast: bool)
    requires k < |plan|
    requires Capped(kind, s.acc, plan) && WindowsCapped(s.walk.windows, plan)
    ensures var s' := PlanStep(kind, s, plan[k], isLast);
            Capped(kind, s'.acc, plan) && WindowsCapped(s'.walk.windows, plan)
  {
    var row := plan[k];
    var s' := PlanStep(kind, s, row, isLast);
    var n := |s.walk.windows|;
    if Flagged(row, kind) && s.acc.count + CountOf(row, kind) > MaxRows && FlushOk(s.walk) {
      assert s'.acc.start == row.gameDate && s'.acc.end == row.gameDate && s'.acc.count == CountOf(row, kind);
      assert plan[k].gameDate == s'.acc.start && CountOf(plan[k], kind) == s'.acc.count;
    }
    PlanStepWindows(kind, s, row, isLast);
    forall j | 0 <= j < |s'.walk.windows|
      ensures Capped(s'.walk.windows[j].kind, AccOfWindow(s'.walk.windows[j]), plan)
    {
      if j < n {
        assert s'.walk.windows[j] == s'.walk.windows[..n][j];
      } else {
        assert s'.walk.windows[j].kind == kind;
      }
    }
  }

  /** Both plans' windows, and every window downloaded, are `Capped`. */
  predicate StateCapped(s: ExecState, plan: seq<PlanRow>) {
    Capped(AllPitches, s.all, plan) && Capped(BbeOnly, s.bbe, plan) && WindowsCapped(s.walk.windows, plan)
  }

  /** One date keeps the walk `StateCapped`. */
  lemma DayStepKeepsCap(s: ExecState, plan: seq<PlanRow>, k: nat)
    requires k < |plan| && StateCapped(s, plan)
    ensures StateCapped(DayStep(s, plan, k), plan)
  {
    var isLast := k == |plan| - 1;
    var a := PlanStep(AllPitches, PlanState(s.all, s.walk), plan[k], isLast);
    PlanStepKeepsCap(AllPitches, PlanState(s.all, s.walk), plan, k, isLast);
    PlanStepKeepsCap(BbeOnly, PlanState(s.bbe, a.walk), plan, k, isLast);
  }

  /** The walk starts `StateCapped`: both windows are empty and nothing is downloaded yet. */
  lemma InitialCapped(server: seq<Response>, plan: seq<PlanRow>)
    ensures StateCapped(InitialState(server), plan)
  {
  }

  /** Every date of the walk keeps it `StateCapped`. */
  lemma {:induction false} WalkedCapped(server: seq<Response>, plan: seq<PlanRow>, n: nat)
    requires n <= |plan|
    ensures StateCapped(Walked(InitialState(server), plan, n), plan)
  {
    if n == 0 {
      InitialCapped(server, plan);
    } else {
      WalkedCapped(server, plan, n - 1);
      DayStepKeepsCap(Walked(InitialState(server), plan, n - 1), plan, n - 1);
    }
  }

  /** `execute` never downloads a window whose accumulated count exceeds the
      cap, except a window of a single date whose own count alone exceeds it. */
  lemma ExecuteRespectsCap(m: DownloadManager, files: FileMap, server: seq<Response>, today: Date)
    ensures var e := ExecuteSpec(m, files, server, today);
            var plan := GameDateDownloadPlan(m, files);
            forall j :: 0 <= j < |e.windows| ==>
              e.windows[j].count <= MaxRows
              || (e.windows[j].start == e.windows[j].end
                  && exists i :: 0 <= i < |plan| && plan[i].gameDate == e.windows[j].start
                                 && CountOf(plan[i], e.windows[j].kind) == e.windows[j].count)
  {
    var plan := GameDateDownloadPlan(m, files);
    WalkedCapped(server, plan, |plan|);
  }

  /** A flagged date that is not cut off by a failed flush becomes the
      window's end; a window's start is set only when it opens. */
  lemma FlaggedDateEndsWindow(kind: PlanKind, s: PlanState, row: PlanRow, isLast: bool)
    requires Flagged(row, kind)
    ensures var s' := PlanStep(kind, s, row, isLast);
            s.acc.count + CountOf(row, kind) <= MaxRows ==>
              s'.acc.end == row.gameDate
              && s'.acc.count == s.acc.count + CountOf(row, kind)
              && s'.acc.start == (if s.acc.start == "" then row.gameDate else s.acc.start)
    ensures var s' := PlanStep(kind, s, row, isLast);
            s.acc.count + CountOf(row, kind) > MaxRows && FlushOk(s.walk) ==>
              s'.acc == Acc(CountOf(row, kind), row.gameDate, row.gameDate)
              && var fl := s'.walk.windows[|s.walk.windows|];
                 fl.kind == kind && fl.start == s.acc.start && fl.end == s.acc.end && fl.Ok()
  {
  }

  /** A flush that fails on the cap check drops the date: the window stays as it was. */
  lemma FailedCapFlushSkipsDate(kind: PlanKind, s: PlanState, row: PlanRow, isLast: bool)
    requires Flagged(row, kind) && s.acc.count + CountOf(row, kind) > MaxRows && !FlushOk(s.walk)
    ensures var s' := PlanStep(kind, s, row, isLast);
            s'.acc == s.acc && s'.walk.windows == s.walk.windows + [Window(kind, s.acc.start, s.acc.end, s.acc.count, None)]
  {
  }

  /** A single date over the cap with no window open flushes a search with
      empty start and end dates before its own window opens. */
  lemma OverflowWithNoWindowSearchesUnbounded(kind: PlanKind, w: Walk, row: PlanRow, isLast: bool)
    requires Flagged(row, kind) && CountOf(row, kind) > MaxRows
    ensures var s' := PlanStep(kind, PlanState(EmptyAcc, w), row, isLast);
            s'.walk.windows[|w.windows|].start == "" && s'.walk.windows[|w.windows|].end == ""
  {
  }

  /** An unflagged date closes an open window: it is flushed and, if that
      succeeds, reset to empty with count 0. With no window open nothing happens. */
  lemma GapFlushes(kind: PlanKind, s: PlanState, row: PlanRow, isLast: bool)
    requires !Flagged(row, kind)
    ensures var s' := PlanStep(kind, s, row, isLast);
            (s.acc.start == "" ==> s' == s)
            && (s.acc.start != "" ==>
                  |s'.walk.windows| == |s.walk.windows| + 1
                  && s'.walk.windows[|s.walk.windows|].start == s.acc.start
                  && s'.walk.windows[|s.walk.windows|].end == s.acc.end
                  && s'.acc == if FlushOk(s.walk) then EmptyAcc else s.acc)
  {
  }

  /** The last date, when flagged, flushes the window it ends. */
  lemma LastDateFlushes(kind: PlanKind, s: PlanState, row: PlanRow)
    requires Flagged(row, kind)
    requires s.acc.count + CountOf(row, kind) <= MaxRows || FlushOk(s.walk)
    ensures var s' := PlanStep(kind, s, row, true);
            |s'.walk.windows| >= 1
            && s'.walk.windows[|s'.walk.windows| - 1].kind == kind
            && s'.walk.windows[|s'.walk.windows| - 1].start == s'.acc.start
            && s'.walk.windows[|s'.walk.windows| - 1].end == row.gameDate
  {
  }

  /** `execute` raises `RuntimeError` exactly when some download failed, and only after the whole walk. */
  lemma ExecuteRaisesIffSomeFailure(m: DownloadManager, files: FileMap, server: seq<Response>, today: Date)
    ensures var e := ExecuteSpec(m, files, server, today);
            (e.raised.Some? <==> exists i :: 0 <= i < |e.windows| && !e.windows[i].Ok())
            && (e.raised.Some? ==> e.raised.value == RuntimeError)
  {
    var e := ExecuteSpec(m, files, server, today);
    NoFailuresAllOk(e.windows);
  }

  /** With no date flagged, `execute` searches nothing and writes nothing. */
  lemma NothingToDownload(m: DownloadManager, files: FileMap, server: seq<Response>, today: Date)
    requires forall i :: 0 <= i < |m.counts| ==>
               ValidNonBbeFile(m, files, m.counts[i]).Some? && BbeDownloaded(BbeDownloadSummary(m, files), m.counts[i])
    ensures ExecuteSpec(m, files, server, today) == ExecOutcome(None, files, server, [])
  {
    var plan := GameDateDownloadPlan(m, files);
    assert !AnyFlagged(plan);
  }

  /** The successful downloads of a log, in order. */
  function OkWindows(ws: seq<Window>): seq<Window> {
    if ws == [] then []
    else OkWindows(ws[..|ws| - 1]) + (if ws[|ws| - 1].Ok() then [ws[|ws| - 1]] else [])
  }

  /** `OkWindows` keeps exactly the successful downloads. */
  lemma {:induction false} OkWindowsKeepsOk(ws: seq<Window>)
    ensures forall x :: x in OkWindows(ws) <==> x in ws && x.Ok()
    decreases |ws|
  {
    if ws == [] {
    } else {
      var init := ws[..|ws| - 1];
      OkWindowsKeepsOk(init);
      assert ws == init + [ws[|ws| - 1]];
    }
  }

  /** A failed download writes nothing: the files are those of the successful downloads alone. */
  lemma {:induction false} FailedWindowsWriteNothing(m: DownloadManager, files: FileMap, ws: seq<Window>, today: Date)
    ensures Written(m, files, ws, today) == Written(m, files, OkWindows(ws), today)
    decreases |ws|
  {
    if ws == [] {
    } else {
      var init := ws[..|ws| - 1];
      var last := ws[|ws| - 1];
      assert ws == init + [last];
      FailedWindowsWriteNothing(m, files, init, today);
      WrittenSnoc(m, files, init, last, today);
      if last.Ok() {
        assert OkWindows(ws) == OkWindows(init) + [last];
        WrittenSnoc(m, files, OkWindows(init), last, today);
      } else {
        assert OkWindows(ws) == OkWindows(init);
      }
    }
  }

  // ---------------------------------------------------------------------------------------------
  // The five-date example: 6000 pitches a day, every date needing all pitches

  function Day(d: string): PlanRow {
    PlanRow(d, 6000, Some(0), true, false)
  }

  /** Five dates of 6000 pitches each, with every search succeeding, are
      fetched in exactly two windows: the first four dates, then the fifth. */
  lemma FiveDaysTwoWindows(t1: Table, t2: Table, d1: string, d2: string, d3: string, d4: string, d5: string)
    requires d1 != ""
    ensures var plan := [Day(d1), Day(d2), Day(d3), Day(d4), Day(d5)];
            var server := [Response(200, t1), Response(200, t2)];
            Walked(InitialState(server), plan, 5).walk.windows
            == [Window(AllPitches, d1, d4, 24000, Some(t1)), Window(AllPitches, d5, d5, 6000, Some(t2))]
  {
    var plan := [Day(d1), Day(d2), Day(d3), Day(d4), Day(d5)];
    var server := [Response(200, t1), Response(200, t2)];
    var s0 := InitialState(server);
    assert Walked(s0, plan, 0) == s0;
    var s1 := DayStep(s0, plan, 0);
    assert s1 == ExecState(Acc(6000, d1, d1), EmptyAcc, s0.walk);
    assert Walked(s0, plan, 1) == s1;
    var s2 := DayStep(s1, plan, 1);
    assert s2 == ExecState(Acc(12000, d1, d2), EmptyAcc, s0.walk);
    assert Walked(s0, plan, 2) == s2;
    var s3 := DayStep(s2, plan, 2);
    assert s3 == ExecState(Acc(18000, d1, d3), EmptyAcc, s0.walk);
    assert Walked(s0, plan, 3) == s3;
    var s4 := DayStep(s3, plan, 3);
    assert s4 == ExecState(Acc(24000, d1, d4), EmptyAcc, s0.walk);
    assert Walked(s0, plan, 4) == s4;
    assert RetryOutcome(server, 2, 0) == SearchOutcome(Ok(t1), 1);
    var w1 := Walk([Response(200, t2)], [Window(AllPitches, d1, d4, 24000, Some(t1))]);
    assert Flush(AllPitches, s4.all, s4.walk) == w1;
    assert RetryOutcome(w1.server, 2, 0) == SearchOutcome(Ok(t2), 1);
  }

  // ---------------------------------------------------------------------------------------------
  // The imperative walk

  /** One entry of `search_plans`: which flag and count column it reads,
      its running `pitch_count`, and the search params it reuses. */
  class SearchPlan {
    const kind: PlanKind
    var pitchCount: nat
    const params: StatcastSearchParams

    constructor (kind: PlanKind, params: StatcastSearchParams)
      ensures this.kind == kind && this.params == params && pitchCount == 0
    {
      this.kind := kind;
      this.params := params;
      pitchCount := 0;
    }

    /** The accumulator this plan holds. */
    function AccOf(): Acc
      reads this, params
    {
      Acc(pitchCount, params.startDateIso, params.endDateIso)
    }

    /** A new window opened at `date` with `count` rows, keeping the old end until it is extended. */
    method OpenAt(count: nat, date: string)
      modifies this, params
      ensures AccOf() == Acc(count, date, old(AccOf()).end)
    {
      pitchCount := count;
      params.startDateIso := date;
    }

    /** The window closed: no rows, no dates. */
    method Reset()
      modifies this, params
      ensures AccOf() == EmptyAcc
    {
      pitchCount := 0;
      params.startDateIso := "";
      params.endDateIso := "";
    }

    /** The params search for the rows this plan is for. */
    ghost predicate Valid() {
      params.pitchResultTypes.battedBallEventsOnly == kind.BbeOnly?
    }
  }

  /** A call of `download_pitch_data` from `execute`, with a failure caught
      and counted in `errors` (`download_errors`). */
  method FlushPlan(m: DownloadManager, plan: SearchPlan, search: StatcastSearch, disk: Disk, today: Date,
                   errors: nat, ghost files: FileMap, ghost windows: seq<Window>)
    returns (ok: bool, errors': nat, ghost windows': seq<Window>)
    requires search.Valid() && plan.Valid()
    requires disk.files == Written(m, files, windows, today) && errors == Failures(windows)
    modifies plan.params, search, disk
    ensures search.Valid()
    ensures var w := Walk(old(search.pending), windows);
            ok == FlushOk(w) && Walk(search.pending, windows') == Flush(plan.kind, old(plan.AccOf()), w)
    ensures disk.files == Written(m, files, windows', today) && errors' == Failures(windows')
    ensures plan.AccOf() == old(plan.AccOf())
  {
    ghost var w := Walk(search.pending, windows);
    ghost var w' := Flush(plan.kind, plan.AccOf(), w);
    var err := DownloadPitchData(m, plan.params, search, disk, today);
    ok := err.None?;
    errors' := if ok then errors else errors + 1;
    windows' := w'.windows;
    WrittenSnoc(m, files, windows, windows'[|windows|], today);
    assert windows'[..|windows|] == windows;
  }

  /** A window that would grow past the cap is downloaded first and, if
      that succeeds, a new one is opened at this date; `ok` is false when the
      download failed and the date is dropped. */
  method Rollover(m: DownloadManager, plan: SearchPlan, search: StatcastSearch, disk: Disk, row: PlanRow,
                  today: Date, errors: nat, ghost files: FileMap, ghost windows: seq<Window>)
    returns (ok: bool, errors': nat, ghost windows': seq<Window>)
    requires search.Valid() && plan.Valid()
    requires disk.files == Written(m, files, windows, today) && errors == Failures(windows)
    modifies plan, plan.params, search, disk
    ensures search.Valid()
    ensures disk.files == Written(m, files, windows', today) && errors' == Failures(windows')
    ensures var w := Walk(old(search.pending), windows);
            ok == FlushOk(w) && Walk(search.pending, windows') == Flush(plan.kind, old(plan.AccOf()), w)
    ensures plan.AccOf() == if ok then Acc(CountOf(row, plan.kind), row.gameDate, old(plan.AccOf()).end) else old(plan.AccOf())
  {
    ok, errors', windows' := FlushPlan(m, plan, search, disk, today, errors, files, windows);
    if ok {
      plan.OpenAt(CountOf(row, plan.kind), row.gameDate);
    }
  }

  /** The cap check for a date the plan needs. */
  method CapCheck(m: DownloadManager, plan: SearchPlan, search: StatcastSearch, disk: Disk, row: PlanRow,
                  today: Date, errors: nat, ghost files: FileMap, ghost windows: seq<Window>)
    returns (ok: bool, errors': nat, ghost windows': seq<Window>)
    requires search.Valid() && plan.Valid()
    requires disk.files == Written(m, files, windows, today) && errors == Failures(windows)
    modifies plan, plan.params, search, disk
    ensures search.Valid()
    ensures disk.files == Written(m, files, windows', today) && errors' == Failures(windows')
    ensures var acc := old(plan.AccOf());
            var w := Walk(old(search.pending), windows);
            var cnt := CountOf(row, plan.kind);
            if acc.count + cnt > MaxRows then
              ok == FlushOk(w) && Walk(search.pending, windows') == Flush(plan.kind, acc, w)
              && plan.AccOf() == if ok then Acc(cnt, row.gameDate, acc.end) else acc
            else
              ok && Walk(search.pending, windows') == w && plan.AccOf() == Acc(acc.count + cnt, acc.start, acc.end)
  {
    var cnt := CountOf(row, plan.kind);
    if plan.pitchCount + cnt > MaxRows {
      ok, errors', windows' := Rollover(m, plan, search, disk, row, today, errors, files, windows);
    } else {
      plan.pitchCount := plan.pitchCount + cnt;
      ok, errors', windows' := true, errors, windows;
    }
  }

  /** The window's new end, and the download of the last date. */
  method ExtendWindow(m: DownloadManager, plan: SearchPlan, search: StatcastSearch, disk: Disk, row: PlanRow,
                      isLast: bool, today: Date, errors: nat, ghost files: FileMap, ghost windows: seq<Window>)
    returns (errors': nat, ghost windows': seq<Window>)
    requires search.Valid() && plan.Valid()
    requires disk.files == Written(m, files, windows, today) && errors == Failures(windows)
    modifies plan.params, search, disk
    ensures search.Valid()
    ensures disk.files == Written(m, files, windows', today) && errors' == Failures(windows')
    ensures PlanState(plan.AccOf(), Walk(search.pending, windows'))
            == Extend(plan.kind, old(plan.AccOf()), Walk(old(search.pending), windows), row, isLast)
  {
    errors', windows' := errors, windows;
    plan.params.endDateIso := row.gameDate;
    if plan.params.startDateIso == "" {
      plan.params.startDateIso := plan.params.endDateIso;
    }
    if isLast {
      var ok;
      ok, errors', windows' := FlushPlan(m, plan, search, disk, today, errors', files, windows');
    }
  }

  /** The `try` block for a date the plan needs. */
  method ExtendPlan(m: DownloadManager, plan: SearchPlan, search: StatcastSearch, disk: Disk, row: PlanRow,
                    isLast: bool, today: Date, errors: nat, ghost files: FileMap, ghost windows: seq<Window>)
    returns (errors': nat, ghost windows': seq<Window>)
    requires Flagged(row, plan.kind)
    requires search.Valid() && plan.Valid()
    requires disk.files == Written(m, files, windows, today) && errors == Failures(windows)
    modifies plan, plan.params, search, disk
    ensures search.Valid()
    ensures disk.files == Written(m, files, windows', today) && errors' == Failures(windows')
    ensures PlanState(plan.AccOf(), Walk(search.pending, windows'))
            == FlaggedStep(plan.kind, PlanState(old(plan.AccOf()), Walk(old(search.pending), windows)), row, isLast)
  {
    var ok;
    ok, errors', windows' := CapCheck(m, plan, search, disk, row, today, errors, files, windows);
    if ok {
      errors', windows' := ExtendWindow(m, plan, search, disk, row, isLast, today, errors', files, windows');
    }
  }

  /** The `try` block for a date the plan does not need: an open window is downloaded and reset. */
  method ClosePlan(m: DownloadManager, plan: SearchPlan, search: StatcastSearch, disk: Disk,
                   today: Date, errors: nat, ghost files: FileMap, ghost windows: seq<Window>)
    returns (errors': nat, ghost windows': seq<Window>)
    requires search.Valid() && plan.Valid()
    requires disk.files == Written(m, files, windows, today) && errors == Failures(windows)
    modifies plan, plan.params, search, disk
    ensures search.Valid()
    ensures disk.files == Written(m, files, windows', today) && errors' == Failures(windows')
    ensures PlanState(plan.AccOf(), Walk(search.pending, windows'))
            == GapStep(plan.kind, PlanState(old(plan.AccOf()), Walk(old(search.pending), windows)))
  {
    errors', windows' := errors, windows;
    if plan.params.startDateIso != "" {
      var ok;
      ok, errors', windows' := FlushPlan(m, plan, search, disk, today, errors', files, windows');
      if ok {
        plan.Reset();
      }
    }
  }

  /** The body of the inner loop for one plan. */
  method StepPlan(m: DownloadManager, plan: SearchPlan, search: StatcastSearch, disk: Disk, row: PlanRow,
                  isLast: bool, today: Date, errors: nat, ghost files: FileMap, ghost windows: seq<Window>)
    returns (errors': nat, ghost windows': seq<Window>)
    requires search.Valid() && plan.Valid()
    requires disk.files == Written(m, files, windows, today) && errors == Failures(windows)
    modifies plan, plan.params, search, disk
    ensures search.Valid()
    ensures disk.files == Written(m, files, windows', today) && errors' == Failures(windows')
    ensures PlanState(plan.AccOf(), Walk(search.pending, windows'))
            == PlanStep(plan.kind, PlanState(old(plan.AccOf()), Walk(old(search.pending), windows)), row, isLast)
  {
    if Flagged(row, plan.kind) {
      errors', windows' := ExtendPlan(m, plan, search, disk, row, isLast, today, errors, files, windows);
    } else {
      errors', windows' := ClosePlan(m, plan, search, disk, today, errors, files, windows);
    }
  }

  /** One iteration of the outer loop: both plans, in order. */
  method StepDay(m: DownloadManager, allPlan: SearchPlan, bbePlan: SearchPlan, search: StatcastSearch, disk: Disk,
                 plan: seq<PlanRow>, day: nat, today: Date, errors: nat, ghost files: FileMap, ghost windows: seq<Window>)
    returns (errors': nat, ghost windows': seq<Window>)
    requires day < |plan|
    requires allPlan.kind == AllPitches && bbePlan.kind == BbeOnly && allPlan.params != bbePlan.params
    requires search.Valid() && allPlan.Valid() && bbePlan.Valid()
    requires disk.files == Written(m, files, windows, today) && errors == Failures(windows)
    modifies allPlan, allPlan.params, bbePlan, bbePlan.params, search, disk
    ensures search.Valid()
    ensures disk.files == Written(m, files, windows', today) && errors' == Failures(windows')
    ensures ExecState(allPlan.AccOf(), bbePlan.AccOf(), Walk(search.pending, windows'))
            == DayStep(ExecState(old(allPlan.AccOf()), old(bbePlan.AccOf()), Walk(old(search.pending), windows)), plan, day)
  {
    var isLast := day == |plan| - 1;
    ghost var bbeAcc := bbePlan.AccOf();
    errors', windows' := StepPlan(m, allPlan, search, disk, plan[day], isLast, today, errors, files, windows);
    assert bbePlan.AccOf() == bbeAcc;
    ghost var allAcc := allPlan.AccOf();
    errors', windows' := StepPlan(m, bbePlan, search, disk, plan[day], isLast, today, errors', files, windows');
    assert allPlan.AccOf() == allAcc;
  }

  /** Whether any date needs a download, as a loop. */
  method HasWork(plan: seq<PlanRow>) returns (any: bool)
    ensures any <==> AnyFlagged(plan)
  {
    for i := 0 to |plan|
      invariant forall k :: 0 <= k < i ==> !plan[k].downloadAll && !plan[k].downloadBbe
    {
      if plan[i].downloadAll || plan[i].downloadBbe {
        return true;
      }
    }
    return false;
  }

  /** The two search plans and the loop over the planned dates, inside
      the search session: returns `download_errors` and (as a record kept by
      the model) the windows searched. */
  method RunPlans(m: DownloadManager, disk: Disk, server: seq<Response>, plan: seq<PlanRow>, today: Date,
                  ghost files: FileMap)
    returns (errors: nat, ghost windows: seq<Window>)
    requires disk.files == files
    modifies disk
    ensures var w := Walked(InitialState(server), plan, |plan|).walk;
            errors == Failures(windows) && windows == w.windows && disk.files == Written(m, files, windows, today)
  {
    var allParams := new StatcastSearchParams("", "", m.seasonTypes, PitchResultTypes(false), "", "");
    var bbeParams := new StatcastSearchParams("", "", m.seasonTypes, PitchResultTypes(true), "", "");
    var allPlan := new SearchPlan(AllPitches, allParams);
    var bbePlan := new SearchPlan(BbeOnly, bbeParams);
    errors := 0;
    windows := [];
    var search := new StatcastSearch(true, server);
    ghost var s0 := InitialState(server);
    for day := 0 to |plan|
      invariant search.Valid() && allPlan.Valid() && bbePlan.Valid()
      invariant disk.files == Written(m, files, windows, today) && errors == Failures(windows)
      invariant ExecState(allPlan.AccOf(), bbePlan.AccOf(), Walk(search.pending, windows)) == Walked(s0, plan, day)
    {
      errors, windows := StepDay(m, allPlan, bbePlan, search, disk, plan, day, today, errors, files, windows);
    }
    search.Exit();
  }

  /** `execute`, on the files of `disk`, against a server that will give the
      responses `server`. Returns the error it raises, if any, and (as a
      record kept by the model) the windows searched. */
  method Execute(m: DownloadManager, disk: Disk, server: seq<Response>, today: Date)
    returns (raised: Option<Error>, ghost windows: seq<Window>)
    modifies disk
    ensures var e := ExecuteSpec(m, old(disk.files), server, today);
            raised == e.raised && disk.files == e.files && windows == e.windows
  {
    var plan := GameDateDownloadPlan(m, disk.files);
    var any := HasWork(plan);
    if !any {
      return None, [];
    }
    var errors;
    errors, windows := RunPlans(m, disk, server, plan, today, disk.files);
    raised := if errors > 0 then Some(RuntimeError) else None;
  }
}
