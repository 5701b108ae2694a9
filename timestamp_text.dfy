/** Cleaning of a text Timestamp column: `str.extract(r'(\d{4}-\d{2}-\d{2}.+)')`
    keeps, from each cell, the text from the first date-shaped substring that
    has at least one more character on its line up to the end of that line. */
module TimestampText {
  import opened Events

  predicate IsDigit(c: char) { '0' <= c <= '9' }

  /** `\d{4}-\d{2}-\d{2}` matches `s` at position `i`. */
  predicate DateAt(s: string, i: nat)
  {
    i + 10 <= |s| &&
    IsDigit(s[i]) && IsDigit(s[i + 1]) && IsDigit(s[i + 2]) && IsDigit(s[i + 3]) && s[i + 4] == '-' &&
    IsDigit(s[i + 5]) && IsDigit(s[i + 6]) && s[i + 7] == '-' && IsDigit(s[i + 8]) && IsDigit(s[i + 9])
  }

  /** The whole pattern matches at `i`: a date, then `.+`, whose first
      character may be anything but a line break. */
  predicate MatchAt(s: string, i: nat)
  {
    DateAt(s, i) && i + 10 < |s| && s[i + 10] != '\n'
  }

  /** The leftmost position at or after `from` where the pattern matches. */
  function FirstMatch(s: string, from: nat): (r: Option<nat>)
    requires from <= |s|
    ensures r.Some? ==> from <= r.value && MatchAt(s, r.value) && forall k :: from <= k < r.value ==> !MatchAt(s, k)
    ensures r.None? ==> forall k :: from <= k ==> !MatchAt(s, k)
    decreases |s| - from
  {
    if from + 11 > |s| then None
    else if MatchAt(s, from) then Some(from)
    else FirstMatch(s, from + 1)
  }

  /** Where the greedy `.+` starting at `j` stops: the first line break at or
      after `j`, or the end of the text. */
  function LineEnd(s: string, j: nat): (k: nat)
    requires j <= |s|
    ensures j <= k <= |s|
    ensures k < |s| ==> s[k] == '\n'
    ensures forall m :: j <= m < k ==> s[m] != '\n'
    decreases |s| - j
  {
    if j == |s| || s[j] == '\n' then j else LineEnd(s, j + 1)
  }

  /** The captured group of one cell, or None (NaN) when nothing matches. */
  function ExtractDateSuffix(s: string): (r: Option<string>)
    ensures r.None? <==> forall k :: !MatchAt(s, k)
    ensures r.Some? ==> |r.value| >= 11 && DateAt(r.value, 0) && forall m :: 0 <= m < |r.value| ==> r.value[m] != '\n'
  {
    match FirstMatch(s, 0)
    case None => None
    case Some(i) =>
      var e := LineEnd(s, i + 10);
      assert s[i..e][..10] == s[i..i + 10];
      Some(s[i..e])
  }

  /** The captured text starts at the leftmost match and runs to the end of its line. */
  lemma ExtractIsLeftmostLine(s: string)
    requires ExtractDateSuffix(s).Some?
    ensures var x := ExtractDateSuffix(s).value;
      exists i: nat :: (MatchAt(s, i) && (forall k: nat :: k < i ==> !MatchAt(s, k)) &&
        i + |x| <= |s| && x == s[i..i + |x|] && (i + |x| == |s| || s[i + |x|] == '\n'))
  {
    var i := FirstMatch(s, 0).value;
    var e := LineEnd(s, i + 10);
    var x := ExtractDateSuffix(s).value;
    assert x == s[i..e];
    assert i + |x| == e;
  }

  /** A Timestamp column as loaded: already datetimes (seconds), or text. */
  datatype TimestampColumn = Datetimes(seconds: seq<int>) | Text(cells: seq<string>)

  /** The column after cleaning: datetimes are left alone, text cells are
      replaced by their captured group (None where nothing matched). */
  datatype CleanedColumn = Kept(seconds: seq<int>) | Extracted(cells: seq<Option<string>>)

  /** `if is_object_dtype(col): col = col.astype(str).str.extract(...)`. */
  function CleanTimestamps(col: TimestampColumn): (r: CleanedColumn)
    ensures col.Datetimes? ==> r == Kept(col.seconds)
    ensures col.Text? ==> r.Extracted? && |r.cells| == |col.cells|
    ensures col.Text? ==> forall i :: 0 <= i < |col.cells| ==> r.cells[i] == ExtractDateSuffix(col.cells[i])
    ensures col.Text? ==> forall i :: 0 <= i < |col.cells| ==>
      (r.cells[i].None? <==> forall k :: !MatchAt(col.cells[i], k))
  {
    match col
    case Datetimes(secs) => Kept(secs)
    case Text(cells) => Extracted(seq(|cells|, i requires 0 <= i < |cells| => ExtractDateSuffix(cells[i])))
  }
}
