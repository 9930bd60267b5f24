/** The few PHP language behaviours the core leans on: values that may be
    null, errors raised as exceptions, and the string built-ins `substr`
    and `strpos`. Strings are sequences of characters. */
module Php {

  /** A PHP value that may be `null` (`None`), such as the result of looking
      up a key that an array does not hold. */
  datatype Option<+T> = None | Some(value: T)

  /** The outcome of a call that either returns a value or throws. */
  datatype Result<+T, +E> = Ok(value: T) | Err(error: E)

  /** The outcome of a call that returns nothing or throws. */
  datatype Outcome<+E> = Pass | Fail(error: E)

  /** String conversion of an optional string: PHP turns `null` into "". */
  function Str(s: Option<string>): string
  {
    match s
    case None => ""
    case Some(t) => t
  }

  function Min(a: int, b: int): int
  {
    if a <= b then a else b
  }

  /** `substr($s, $start, $length)` for non-negative offsets: the characters
      from `start`, at most `length` of them, clipped to the end of `s`
      (an empty string when `start` lies past the end, as in PHP 8; PHP 5
      and 7 return `false` there, which concatenates as "" and equals no
      string under `===`). */
  function Substr(s: string, start: nat, length: nat): (r: string)
    ensures |r| == Min(length, |s| - Min(start, |s|))
    ensures start + length <= |s| ==> r == s[start..start + length]
    ensures forall i :: 0 <= i < |r| ==> r[i] == s[start + i]
  {
    s[Min(start, |s|)..Min(start + length, |s|)]
  }

  /** `pat` occurs in `s` at position `j`. */
  predicate OccursAt(s: string, pat: string, j: int)
  {
    0 <= j && j + |pat| <= |s| && s[j..j + |pat|] == pat
  }

  /** `pat` occurs somewhere in `s`. */
  predicate Contains(s: string, pat: string)
  {
    exists j | 0 <= j <= |s| :: OccursAt(s, pat, j)
  }

  /** `strpos($s, $pat)`: the position of the first occurrence of `pat` in
      `s`, or `false` (`None`) when there is none. */
  function Strpos(s: string, pat: string): (r: Option<nat>)
    ensures r.Some? ==> OccursAt(s, pat, r.value)
    ensures r.Some? ==> forall j :: 0 <= j < r.value ==> !OccursAt(s, pat, j)
    ensures r.None? <==> !Contains(s, pat)
    decreases |s|
  {
    if |s| < |pat| then
      None
    else if s[..|pat|] == pat then
      Some(0)
    else
      match Strpos(s[1..], pat)
      case None =>
        ShiftOccurrence(s, pat);
        assert !OccursAt(s, pat, 0);
        None
      case Some(i) =>
        ShiftOccurrence(s, pat);
        assert !OccursAt(s, pat, 0);
        Some(i + 1)
  }

  /** Occurrences in `s[1..]` are the occurrences in `s` past position 0. */
  lemma ShiftOccurrence(s: string, pat: string)
    requires |s| > 0
    ensures forall j :: 1 <= j ==> (OccursAt(s, pat, j) <==> OccursAt(s[1..], pat, j - 1))
  {
  }

  /** An occurrence starts with the pattern's first character. */
  lemma OccurrenceHead(s: string, pat: string, j: int)
    requires OccursAt(s, pat, j) && |pat| > 0
    ensures s[j] == pat[0]
  {
  }

  /** Occurrences in `p + q` that start past `p` are the occurrences in
      `q`, shifted by `|p|`. */
  lemma OccurrencesPastPrefix(p: string, q: string, pat: string)
    ensures forall j :: |p| <= j ==> (OccursAt(p + q, pat, j) <==> OccursAt(q, pat, j - |p|))
  {
  }
}
