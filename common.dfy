/** Shared vocabulary: the Python exceptions the core raises, Option/Result
    wrappers, and the few string operations the source relies on
    (`in` on strings, `str.lower`, `str.replace`, `os.path.join`, `%d`). */
module Common {

  /** The exception classes the modelled code raises, by kind. */
  datatype Error =
    | ValueError
    | KeyError
    | IndexError
    | FileNotFoundError
    | HttpError(status: int)   // requests.HTTPError from raise_for_status
    | ConnectionError          // any other requests.RequestException
    | RuntimeError

  datatype Option<+T> = None | Some(value: T)

  datatype Result<+T> = Ok(value: T) | Err(error: Error)

  /** True for the exceptions that derive from requests.RequestException. */
  predicate IsRequestException(e: Error) {
    e.HttpError? || e.ConnectionError?
  }

  /** `sub` occurs in `s` starting at index `i`. */
  predicate OccursAt(s: string, sub: string, i: int) {
    0 <= i && i + |sub| <= |s| && s[i..i + |sub|] == sub
  }

  /** Python's `sub in s` for strings. */
  predicate ContainsSub(s: string, sub: string) {
    exists i :: 0 <= i <= |s| && OccursAt(s, sub, i)
  }

  /** ASCII lower-casing of one character. */
  function LowerChar(c: char): (r: char)
    ensures 'A' <= c <= 'Z' ==> r as int == c as int + 32
    ensures !('A' <= c <= 'Z') ==> r == c
  {
    if 'A' <= c <= 'Z' then (c as int + 32) as char else c
  }

  /** `s.lower()`, restricted to the ASCII letters. */
  function Lower(s: string): (r: string)
    ensures |r| == |s|
    ensures forall i :: 0 <= i < |s| ==> r[i] == LowerChar(s[i])
  {
    if s == [] then [] else [LowerChar(s[0])] + Lower(s[1..])
  }

  lemma {:induction false} LowerIdempotent(s: string)
    ensures Lower(Lower(s)) == Lower(s)
  {
    var l := Lower(s);
    assert forall i :: 0 <= i < |l| ==> Lower(l)[i] == l[i];
  }

  /** `s.replace(c, "")` for a one-character pattern. */
  function RemoveChar(s: string, c: char): (r: string)
    ensures multiset(r) == multiset(s)[c := 0]
    ensures c !in r
    ensures |r| <= |s|
    ensures forall x :: x != c ==> (x in r <==> x in s)
  {
    if s == [] then []
    else
      assert s == [s[0]] + s[1..];
      if s[0] == c then RemoveChar(s[1..], c)
      else [s[0]] + RemoveChar(s[1..], c)
  }

  /** `replace` works piecewise: the other characters keep their order. */
  lemma {:induction false} RemoveCharAppend(a: string, b: string, c: char)
    ensures RemoveChar(a + b, c) == RemoveChar(a, c) + RemoveChar(b, c)
  {
    if a == [] {
      assert a + b == b;
    } else {
      assert (a + b)[0] == a[0] && (a + b)[1..] == a[1..] + b;
      RemoveCharAppend(a[1..], b, c);
    }
  }

  /** `lower` works piecewise. */
  lemma LowerAppend(a: string, b: string)
    ensures Lower(a + b) == Lower(a) + Lower(b)
  {
    assert forall i :: 0 <= i < |a + b| ==> Lower(a + b)[i] == (Lower(a) + Lower(b))[i];
  }

  function DigitChar(d: nat): (c: char)
    requires d < 10
    ensures '0' <= c <= '9' && c as int == '0' as int + d
  {
    ('0' as int + d) as char
  }

  predicate IsDigit(c: char) { '0' <= c <= '9' }

  function DigitValue(c: char): (v: nat)
    requires IsDigit(c)
    ensures v < 10 && DigitChar(v) == c
  {
    c as int - '0' as int
  }

  predicate AllDigits(s: string) {
    forall i :: 0 <= i < |s| ==> IsDigit(s[i])
  }

  /** `int(s)` for a string of ASCII digits. */
  function DigitsValue(s: string): (v: nat)
    requires AllDigits(s)
  {
    if s == [] then 0 else DigitsValue(s[..|s| - 1]) * 10 + DigitValue(s[|s| - 1])
  }

  /** `f"{n}"` / `"%d" % n` for a non-negative integer: decimal digits that spell `n`. */
  function NatToString(n: nat): (r: string)
    ensures |r| >= 1 && AllDigits(r)
    ensures DigitsValue(r) == n
    decreases n
  {
    if n < 10 then [DigitChar(n)]
    else
      var r := NatToString(n / 10) + [DigitChar(n % 10)];
      assert r[..|r| - 1] == NatToString(n / 10);
      r
  }

  /** `os.path.join(dir, name)` on POSIX, for a relative `name`. */
  function PathJoin(dir: string, name: string): (r: string)
    ensures dir == "" ==> r == name
    ensures dir != "" && dir[|dir| - 1] == '/' ==> r == dir + name
    ensures dir != "" && dir[|dir| - 1] != '/' ==> r == dir + "/" + name
  {
    if dir == "" || dir[|dir| - 1] == '/' then dir + name else dir + "/" + name
  }

  /** The directory part that PathJoin puts in front of every name. */
  function JoinPrefix(dir: string): (p: string)
    ensures forall name :: PathJoin(dir, name) == p + name
  {
    if dir == "" || dir[|dir| - 1] == '/' then dir else dir + "/"
  }
}
