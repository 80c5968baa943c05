/** The Python string built-ins the core relies on: slicing with negative and
    out-of-range bounds, and `str.strip()` with no argument. */
module PyStr {
  import opened Wrappers

  /** Where a slice bound `i` lands in a sequence of length `len`: a negative
      bound counts from the end, and the position is clamped into [0, len]. */
  function SliceIndex(i: int, len: nat): (k: nat)
    ensures k <= len
    ensures 0 <= i <= len ==> k == i
    ensures i < 0 && 0 <= i + len ==> k == i + len
    ensures i > len ==> k == len
    ensures i + len < 0 ==> k == 0
  {
    if i < 0 then (if len + i < 0 then 0 else len + i)
    else if i > len then len
    else i
  }

  /** `s[start:stop]`, with either bound omitted when None. */
  function Slice<T>(s: seq<T>, start: Option<int>, stop: Option<int>): (r: seq<T>)
    ensures |r| <= |s|
    ensures start.None? && stop.Some? && stop.value >= 0 ==>
              r == s[..if stop.value < |s| then stop.value else |s|]
    ensures start.Some? && start.value < 0 && stop.None? ==>
              r == s[if |s| + start.value < 0 then 0 else |s| + start.value..]
  {
    var lo := if start.Some? then SliceIndex(start.value, |s|) else 0;
    var hi := if stop.Some? then SliceIndex(stop.value, |s|) else |s|;
    if lo <= hi then s[lo..hi] else []
  }

  /** `s[:k] + s[k:] == s` for every integer `k`, in range or not, negative or not. */
  lemma SliceSplit<T>(s: seq<T>, k: int)
    ensures Slice(s, None, Some(k)) + Slice(s, Some(k), None) == s
  {
    var m := SliceIndex(k, |s|);
    assert Slice(s, None, Some(k)) == s[..m];
    assert Slice(s, Some(k), None) == s[m..];
  }

  /** The characters for which Python's `str.isspace()` holds. */
  predicate IsSpace(c: char) {
    || '\t' <= c <= '\r'                  // tab, line feed, vertical tab, form feed, carriage return
    || '\U{1C}' <= c <= ' '                // the four information separators and space
    || c == '\U{85}' || c == '\U{A0}' || c == '\U{1680}'
    || '\U{2000}' <= c <= '\U{200A}'
    || c == '\U{2028}' || c == '\U{2029}' || c == '\U{202F}' || c == '\U{205F}' || c == '\U{3000}'
  }

  /** The first index at or after `i` that does not hold whitespace, or |s|. */
  function SkipSpace(s: string, i: nat): (k: nat)
    requires i <= |s|
    ensures i <= k <= |s|
    ensures k < |s| ==> !IsSpace(s[k])
    ensures forall m :: i <= m < k ==> IsSpace(s[m])
    decreases |s| - i
  {
    if i < |s| && IsSpace(s[i]) then SkipSpace(s, i + 1) else i
  }

  /** Going back from `j` but not below `lo`, the index just past the last character that is
      not whitespace, or `lo`. */
  function SkipSpaceBack(s: string, lo: nat, j: nat): (k: nat)
    requires lo <= j <= |s|
    ensures lo <= k <= j
    ensures k > lo ==> !IsSpace(s[k - 1])
    ensures forall m :: k <= m < j ==> IsSpace(s[m])
    decreases j - lo
  {
    if j > lo && IsSpace(s[j - 1]) then SkipSpaceBack(s, lo, j - 1) else j
  }

  /** `s.strip()`: whitespace removed from both ends, nothing else touched. */
  function Strip(s: string): (r: string)
    ensures |r| <= |s|
    ensures r == [] || (!IsSpace(r[0]) && !IsSpace(r[|r| - 1]))
  {
    var lo := SkipSpace(s, 0);
    s[lo..SkipSpaceBack(s, lo, |s|)]
  }

  /** A string with no whitespace at either end is its own strip, and only such a string is. */
  lemma StripFixedPoint(s: string)
    ensures Strip(s) == s <==> (s == [] || (!IsSpace(s[0]) && !IsSpace(s[|s| - 1])))
  {
    if s != [] && !IsSpace(s[0]) && !IsSpace(s[|s| - 1]) {
      assert SkipSpace(s, 0) == 0;
      assert SkipSpaceBack(s, 0, |s|) == |s|;
      assert s[0..|s|] == s;
    }
  }

  /** Stripping twice is stripping once. */
  lemma StripIdempotent(s: string)
    ensures Strip(Strip(s)) == Strip(s)
  {
    StripFixedPoint(Strip(s));
  }

  /** What `strip` keeps is a contiguous run of `s` with only whitespace around it. */
  lemma StripIsTrimmedInfix(s: string)
    ensures var lo := SkipSpace(s, 0);
            && lo + |Strip(s)| <= |s|
            && Strip(s) == s[lo..lo + |Strip(s)|]
            && (forall i :: 0 <= i < lo ==> IsSpace(s[i]))
            && (forall i :: lo + |Strip(s)| <= i < |s| ==> IsSpace(s[i]))
  {
  }
}
