/** mlb/utils/file_utils.py: file freshness, CSV row-count check and
    date-stamped file names, over a snapshot of the file system. */
module FileUtils {
  import opened Common
  import opened Dates
  import opened Tables

  /** A CSV file on disk: its data rows and the date `os.path.getctime` reports. */
  datatype CsvFile = CsvFile(rows: Table, created: Date)

  /** The files that exist, by path. */
  type FileMap = map<string, CsvFile>

  predicate OnOrBefore(a: Date, b: Date) {
    a == b || Before(a, b)
  }

  /** `is_file_stale`: a file is stale if it was created on or before
      `staleBy`; a file that does not exist is always stale. */
  function IsFileStale(files: FileMap, path: string, staleBy: Date): (stale: bool)
    ensures path !in files ==> stale
    ensures path in files ==> (stale <==> OnOrBefore(files[path].created, staleBy))
  {
    var created := if path in files then files[path].created else staleBy;
    !(path in files && Before(staleBy, created))
  }

  /** A file created on the cut-off date itself is stale; one created the day after is not. */
  lemma StaleBoundary(files: FileMap, path: string, staleBy: Date)
    requires path in files
    ensures files[path].created == staleBy ==> IsFileStale(files, path, staleBy)
    ensures Before(staleBy, files[path].created) ==> !IsFileStale(files, path, staleBy)
  {
  }

  /** `csv_row_count_check`: the file exists and holds exactly `rowCount` data rows. */
  function CsvRowCountCheck(files: FileMap, path: string, rowCount: int): (ok: bool)
    ensures path !in files ==> !ok
    ensures ok <==> path in files && |files[path].rows| == rowCount
  {
    path in files && |files[path].rows| == rowCount
  }

  /** Index of the last `c` in `s`, as `str.rsplit(c, 1)` finds it. */
  function LastIndexOf(s: string, c: char): (r: Option<nat>)
    ensures r.Some? ==> r.value < |s| && s[r.value] == c
                        && forall k :: r.value < k < |s| ==> s[k] != c
    ensures r.None? ==> c !in s
  {
    if s == [] then None
    else if s[|s| - 1] == c then Some(|s| - 1)
    else
      var r := LastIndexOf(s[..|s| - 1], c);
      assert s == s[..|s| - 1] + [s[|s| - 1]];
      r
  }

  /** The default `%Y%m%d` stamp `add_date_to_file_name` formats the date with. */
  function DefaultStamp(d: Date): (s: string)
    requires ValidDate(d)
    ensures |s| == 8 && AllDigits(s)
  {
    Pad4(d.year) + Pad2(d.month) + Pad2(d.day)
  }

  /** The stamp spells the date: its year, month and day, in that order. */
  lemma DefaultStampFields(d: Date)
    requires ValidDate(d)
    ensures var s := DefaultStamp(d);
            DigitsValue(s[..4]) == d.year && DigitsValue(s[4..6]) == d.month && DigitsValue(s[6..]) == d.day
  {
    var s := DefaultStamp(d);
    assert s[..4] == Pad4(d.year) && s[4..6] == Pad2(d.month) && s[6..] == Pad2(d.day);
    Pad4Value(d.year);
    Pad2Value(d.month);
    Pad2Value(d.day);
  }

  /** `i` is the position of the last dot in `s`. */
  predicate IsLastDot(s: string, i: int) {
    0 <= i < |s| && s[i] == '.' && forall k :: i < k < |s| ==> s[k] != '.'
  }

  /** `add_date_to_file_name(name, date, fmt)`, with `stamp` the result of
      `date.strftime(fmt)`: split at the last dot, insert the stamp, re-join with dots. */
  function AddDateToFileName(name: string, stamp: string): (r: string)
    ensures '.' !in name ==> r == name + "." + stamp
    ensures forall i :: IsLastDot(name, i) ==> r == name[..i] + "." + stamp + name[i..]
  {
    match LastIndexOf(name, '.')
    case None => name + "." + stamp
    case Some(i) =>
      assert forall i' :: IsLastDot(name, i') ==> i' == i;
      name[..i] + "." + stamp + name[i..]
  }

  /** A stamp without dots keeps everything before the last dot and the
      extension unchanged and becomes the new next-to-last component:
      `a.b.log` becomes `a.b.<stamp>.log`. */
  lemma AddDateKeepsExtension(name: string, stamp: string, i: int)
    requires IsLastDot(name, i)
    requires '.' !in stamp
    ensures var r := AddDateToFileName(name, stamp);
            var j := i + 1 + |stamp|;
            IsLastDot(r, j) && r[j..] == name[i..] && r[..i] == name[..i] && r[i] == '.'
            && r[i + 1..j] == stamp
  {
    var r := AddDateToFileName(name, stamp);
    var j := i + 1 + |stamp|;
    assert r == name[..i] + "." + stamp + name[i..];
    assert r[j..] == name[i..];
    forall k | j < k < |r| ensures r[k] != '.' {
      assert r[k] == name[i + (k - j)];
    }
  }

  /** A name without a dot gets the stamp as a new extension. */
  lemma AddDateNoDot(name: string, stamp: string)
    requires '.' !in name && '.' !in stamp
    ensures IsLastDot(AddDateToFileName(name, stamp), |name|)
  {
    var r := AddDateToFileName(name, stamp);
    forall k | |name| < k < |r| ensures r[k] != '.' {
      assert r[k] == stamp[k - |name| - 1];
    }
  }
}
