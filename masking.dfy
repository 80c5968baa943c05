/** `_mask_key`: the form in which an API key may appear in log lines.
    Both services/hd_image_generation.py and services/erase_foreground.py
    carry an identical copy; it is modelled once here. */
module Masking {
  import opened Wrappers
  import opened PyStr

  /** What a missing or empty key is shown as. */
  const NoKey := "<no-key>"

  /** The number of characters shown at each end of a key. */
  const Shown := 4

  /** `key[:4] + "..." + key[-4:]`, or the placeholder for a falsy key. */
  function MaskKey(key: Option<string>): (r: string)
    ensures key.None? || key.value == [] ==> r == NoKey
    ensures key.Some? && key.value != [] ==>
              var k := key.value;
              var n := if |k| < Shown then |k| else Shown;
              && |r| == 2 * n + 3
              && r == k[..n] + "..." + k[|k| - n..]
  {
    if key.None? || key.value == [] then NoKey
    else Slice(key.value, None, Some(Shown)) + "..." + Slice(key.value, Some(-Shown), None)
  }

  /** A key of eight characters or more becomes its first four, three dots and its
      last four: eleven characters. */
  lemma MaskKeyLongKey(k: string)
    requires |k| >= 2 * Shown
    ensures |MaskKey(Some(k))| == 11
    ensures MaskKey(Some(k))[..4] == k[..4] && MaskKey(Some(k))[4..7] == "..."
    ensures MaskKey(Some(k))[7..] == k[|k| - 4..]
  {
  }

  /** A key longer than the mask cannot occur inside it. */
  lemma MaskKeyHidesLongKey(k: string)
    requires |k| > 11
    ensures var m := MaskKey(Some(k)); forall i, j :: 0 <= i <= j <= |m| ==> m[i..j] != k
  {
  }

  /** A key of at most four characters is shown whole, twice: the two slices overlap completely. */
  lemma MaskKeyShortKey(k: string)
    requires 0 < |k| <= Shown
    ensures MaskKey(Some(k)) == k + "..." + k
  {
  }

  /** The documented example: "abcd1234efgh" is shown as "abcd...efgh". */
  lemma MaskKeyExample()
    ensures MaskKey(Some("abcd1234efgh")) == "abcd...efgh"
  {
  }
}
