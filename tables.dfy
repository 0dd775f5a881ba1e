/** Statcast pitch tables as sequences of records, and the handful of
    dataframe operations the engine applies to them: boolean-mask filters,
    `unique()` on the game_date column, per-date row counts, and
    `sort_values(by=["game_pk", "at_bat_number", "pitch_number"],
    ascending=[False, True, True])`. */
module Tables {
  import opened Common

  /** One Statcast search result row, restricted to the columns the core reads or writes.
      `woba_value`, `woba_denom` and `estimated_woba_using_speedangle` can be
      blank in the CSV, hence Option. */
  datatype PitchRow = PitchRow(
    gameDate: string,
    gamePk: int,
    atBatNumber: int,
    pitchNumber: int,
    description: string,
    events: string,
    wobaValue: Option<real>,
    wobaDenom: Option<int>,
    estimatedWoba: Option<real>)

  type Table = seq<PitchRow>

  const HitIntoPlay := "hit_into_play"

  /** A batted-ball event row. */
  predicate IsBbe(r: PitchRow) {
    r.description == HitIntoPlay
  }

  /** `a` may come before `b` in a table sorted by
      (game_pk descending, at_bat_number ascending, pitch_number ascending). */
  predicate KeyLe(a: PitchRow, b: PitchRow) {
    a.gamePk > b.gamePk
    || (a.gamePk == b.gamePk && a.atBatNumber < b.atBatNumber)
    || (a.gamePk == b.gamePk && a.atBatNumber == b.atBatNumber && a.pitchNumber <= b.pitchNumber)
  }

  predicate SortedByKey(t: Table) {
    forall i, j :: 0 <= i < j < |t| ==> KeyLe(t[i], t[j])
  }

  /** Inserts `x` after every row that does not sort strictly after it. */
  function Insert(x: PitchRow, t: Table): (r: Table)
    ensures multiset(r) == multiset(t) + multiset{x}
    ensures |r| == |t| + 1
  {
    if t == [] then [x]
    else if !KeyLe(t[0], x) then [x] + t
    else
      assert t == [t[0]] + t[1..];
      [t[0]] + Insert(x, t[1..])
  }

  /** A row that sorts before every row of a sorted table can head it. */
  lemma SortedCons(h: PitchRow, rest: Table)
    requires SortedByKey(rest)
    requires forall i :: 0 <= i < |rest| ==> KeyLe(h, rest[i])
    ensures SortedByKey([h] + rest)
  {
  }

  /** Every row of `Insert(x, t)` is `x` or a row of `t`. */
  lemma InsertMember(x: PitchRow, t: Table, y: PitchRow)
    requires y in Insert(x, t)
    ensures y == x || y in t
  {
    assert y in multiset(Insert(x, t));
  }

  lemma {:induction false} InsertSorted(x: PitchRow, t: Table)
    requires SortedByKey(t)
    ensures SortedByKey(Insert(x, t))
  {
    if t != [] && KeyLe(t[0], x) {
      var tail := t[1..];
      InsertSorted(x, tail);
      var rest := Insert(x, tail);
      forall i | 0 <= i < |rest| ensures KeyLe(t[0], rest[i]) {
        InsertMember(x, tail, rest[i]);
        if rest[i] != x {
          var k :| 0 <= k < |tail| && tail[k] == rest[i];
          assert t[k + 1] == rest[i];
        }
      }
      SortedCons(t[0], rest);
    }
  }

  /** `sort_values` on the three key columns. Rows with equal keys keep their order. */
  function SortByKey(t: Table): (r: Table)
    ensures SortedByKey(r)
    ensures multiset(r) == multiset(t)
    ensures |r| == |t|
  {
    if t == [] then []
    else
      assert t == t[..|t| - 1] + [t[|t| - 1]];
      var sorted := SortByKey(t[..|t| - 1]);
      InsertSorted(t[|t| - 1], sorted);
      Insert(t[|t| - 1], sorted)
  }

  /** `df.loc[mask]` for a row-wise mask. */
  function Filter(t: Table, keep: PitchRow -> bool): (r: Table)
    ensures |r| <= |t|
    ensures forall x :: multiset(r)[x] == if keep(x) then multiset(t)[x] else 0
    ensures forall i :: 0 <= i < |r| ==> keep(r[i]) && r[i] in t
  {
    if t == [] then []
    else
      assert t == [t[0]] + t[1..];
      (if keep(t[0]) then [t[0]] else []) + Filter(t[1..], keep)
  }

  /** Rows of `t` with the given game date. */
  function OnDate(t: Table, d: string): (r: Table)
    ensures forall i :: 0 <= i < |r| ==> r[i].gameDate == d
  {
    Filter(t, (row: PitchRow) => row.gameDate == d)
  }

  /** Number of rows per game date, as `groupby("game_date").count()` reports it. */
  function CountOnDate(t: Table, d: string): (n: nat)
    ensures n <= |t|
    ensures n == 0 <==> forall i :: 0 <= i < |t| ==> t[i].gameDate != d
  {
    var r := OnDate(t, d);
    assert forall i :: 0 <= i < |t| && t[i].gameDate == d ==> multiset(r)[t[i]] > 0;
    |r|
  }

  /** The set of game dates present in a table. */
  function DatesOf(t: Table): set<string> {
    set r | r in t :: r.gameDate
  }

  /** `df["game_date"].unique()`: the distinct game dates in order of first appearance. */
  function UniqueDates(t: Table): (ds: seq<string>)
    ensures forall i, j :: 0 <= i < j < |ds| ==> ds[i] != ds[j]
    ensures forall d :: d in ds <==> d in DatesOf(t)
  {
    if t == [] then []
    else
      var tail := UniqueDates(t[1..]);
      assert t == [t[0]] + t[1..];
      assert DatesOf(t) == {t[0].gameDate} + DatesOf(t[1..]);
      [t[0].gameDate] + Without(tail, t[0].gameDate)
  }

  function Without(ds: seq<string>, d: string): (r: seq<string>)
    ensures forall x :: x in r <==> x in ds && x != d
    ensures (forall i, j :: 0 <= i < j < |ds| ==> ds[i] != ds[j]) ==>
              (forall i, j :: 0 <= i < j < |r| ==> r[i] != r[j])
  {
    if ds == [] then []
    else if ds[0] == d then Without(ds[1..], d)
    else
      assert ds[0] !in ds[1..] ==> ds[0] !in Without(ds[1..], d);
      [ds[0]] + Without(ds[1..], d)
  }

  /** Filtering a sorted table keeps it sorted. */
  lemma {:induction false} FilterSorted(t: Table, keep: PitchRow -> bool)
    requires SortedByKey(t)
    ensures SortedByKey(Filter(t, keep))
  {
    if t != [] {
      FilterSorted(t[1..], keep);
      var rest := Filter(t[1..], keep);
      forall i | 0 <= i < |rest| ensures KeyLe(t[0], rest[i]) {
        var k :| 0 < k < |t| && t[k] == rest[i];
      }
      SortedCons(t[0], rest);
    }
  }
}
