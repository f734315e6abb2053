/** String helpers shared by the model: Python truthiness of an optional
    `str`, `str.startswith`, and the first index of a character. */
module Strings {
  import opened Wrappers

  /** Truthiness of a Python value that is either `None` or a `str`:
      `None` and `""` are false, every other string (including `"0"`) is true. */
  predicate Truthy(s: Option<string>) {
    s.Some? && s.value != ""
  }

  predicate StartsWith(s: string, prefix: string) {
    |prefix| <= |s| && s[..|prefix|] == prefix
  }

  /** The index of the first occurrence of `c` in `s`: where
      `split('/', 1)` makes its single cut, or `None` when `c` does not occur. */
  function IndexOf(s: string, c: char): (r: Option<nat>)
    ensures r.None? <==> c !in s
    ensures r.Some? ==> r.value < |s| && s[r.value] == c && c !in s[..r.value]
  {
    if |s| == 0 then None
    else if s[0] == c then Some(0)
    else match IndexOf(s[1..], c)
      case None => None
      case Some(i) =>
        assert s[..i + 1] == [s[0]] + s[1..][..i];
        Some(i + 1)
  }

  /** The first occurrence is determined by the contents: a position holding
      `c` with no `c` before it is the one `IndexOf` reports. */
  lemma IndexOfUnique(s: string, c: char, i: nat)
    requires i < |s| && s[i] == c && c !in s[..i]
    ensures IndexOf(s, c) == Some(i)
  {
  }
}
