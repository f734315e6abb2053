/** `extract_first_time`: the inner text of the leftmost token of the form
    `[digits.digits]` in a passage, searched the way `re.search` searches the
    pattern `\[(\d+\.\d+)\]`. Digits are ASCII digits. */
module Timestamps {
  import opened Wrappers

  predicate IsDigit(c: char) {
    '0' <= c <= '9'
  }

  /** Every position in `[lo, hi)` of `text` holds a digit. */
  predicate DigitsIn(text: string, lo: nat, hi: nat)
    requires hi <= |text|
  {
    forall k | lo <= k < hi :: IsDigit(text[k])
  }

  /** One or more digits, a dot, one or more digits. */
  predicate IsTimeToken(s: string) {
    exists p | 0 < p < |s| - 1 :: s[p] == '.' && DigitsIn(s, 0, p) && DigitsIn(s, p + 1, |s|)
  }

  /** The text `"[" + s + "]"` starts at position `i`, and `s` is a time token. */
  predicate TokenAt(text: string, i: nat, s: string) {
    && i + |s| + 2 <= |text|
    && text[i] == '['
    && text[i + 1..i + 1 + |s|] == s
    && text[i + 1 + |s|] == ']'
    && IsTimeToken(s)
  }

  /** No token starts at any position in `[lo, hi)`. */
  ghost predicate NoTokenIn(text: string, lo: nat, hi: nat) {
    forall k: nat, s: string | lo <= k < hi :: !TokenAt(text, k, s)
  }

  /** Length of the maximal run of digits starting at `j` (what a greedy
      `\d+` consumes there). */
  function DigitRun(text: string, j: nat): (n: nat)
    requires j <= |text|
    ensures j + n <= |text|
    ensures DigitsIn(text, j, j + n)
    ensures j + n == |text| || !IsDigit(text[j + n])
    decreases |text| - j
  {
    if j < |text| && IsDigit(text[j]) then 1 + DigitRun(text, j + 1) else 0
  }

  /** A run of digits that ends at a non-digit or at the end is the maximal
      run. */
  lemma {:induction false} DigitRunUnique(text: string, j: nat, n: nat)
    requires j + n <= |text|
    requires DigitsIn(text, j, j + n)
    requires j + n == |text| || !IsDigit(text[j + n])
    ensures DigitRun(text, j) == n
    decreases n
  {
    if n > 0 {
      DigitRunUnique(text, j + 1, n - 1);
    }
  }

  /** Match the pattern anchored at position `i`. Because `\d` never matches
      `.` or `]`, the greedy runs leave no room for backtracking: there is at
      most one way to match at `i`. */
  function MatchAt(text: string, i: nat): (r: Option<string>)
    requires i <= |text|
    ensures r.Some? ==> TokenAt(text, i, r.value)
  {
    if i < |text| && text[i] == '[' then
      var a := DigitRun(text, i + 1);
      var dot := i + 1 + a;
      if 0 < a && dot < |text| && text[dot] == '.' then
        var b := DigitRun(text, dot + 1);
        var close := dot + 1 + b;
        if 0 < b && close < |text| && text[close] == ']' then
          var s := text[i + 1..close];
          assert IsTimeToken(s) by {
            assert forall k | 0 <= k < |s| :: s[k] == text[i + 1 + k];
            assert s[a] == '.';
          }
          Some(s)
        else None
      else None
    else None
  }

  /** `MatchAt` misses nothing: any token at `i` is the one it returns. */
  lemma MatchAtComplete(text: string, i: nat, s: string)
    requires TokenAt(text, i, s)
    ensures MatchAt(text, i) == Some(s)
  {
    var p :| 0 < p < |s| - 1 && s[p] == '.' && DigitsIn(s, 0, p) && DigitsIn(s, p + 1, |s|);
    TokenChars(text, i, s);
    assert DigitsIn(text, i + 1, i + 1 + p) by {
      forall k | i + 1 <= k < i + 1 + p ensures IsDigit(text[k]) {
        assert text[k] == s[k - i - 1];
      }
    }
    DigitRunUnique(text, i + 1, p);
    assert DigitsIn(text, i + 2 + p, i + 1 + |s|) by {
      forall k | i + 2 + p <= k < i + 1 + |s| ensures IsDigit(text[k]) {
        assert text[k] == s[k - i - 1];
      }
    }
    DigitRunUnique(text, i + 2 + p, |s| - p - 1);
    MatchAtFromRuns(text, i, p, |s| - p - 1);
  }

  /** `MatchAt` unfolded for a position where both digit runs succeed. */
  lemma MatchAtFromRuns(text: string, i: nat, a: nat, b: nat)
    requires i + a + b + 3 <= |text|
    requires text[i] == '[' && text[i + 1 + a] == '.' && text[i + 2 + a + b] == ']'
    requires 0 < a && DigitRun(text, i + 1) == a
    requires 0 < b && DigitRun(text, i + 2 + a) == b
    ensures MatchAt(text, i) == Some(text[i + 1..i + 2 + a + b])
  {
  }

  /** The characters of a token at `i`, position by position. */
  lemma TokenChars(text: string, i: nat, s: string)
    requires TokenAt(text, i, s)
    ensures forall k | 0 <= k < |s| :: text[i + 1 + k] == s[k]
  {
    var t := text[i + 1..i + 1 + |s|];
    assert forall k | 0 <= k < |s| :: text[i + 1 + k] == t[k];
  }

  lemma NoMatchNoToken(text: string, i: nat)
    requires i <= |text| && MatchAt(text, i).None?
    ensures forall s :: !TokenAt(text, i, s)
  {
    forall s | TokenAt(text, i, s) ensures false {
      MatchAtComplete(text, i, s);
    }
  }

  /** A position holds at most one token. */
  lemma TokenAtDeterministic(text: string, i: nat, s: string, t: string)
    requires TokenAt(text, i, s) && TokenAt(text, i, t)
    ensures s == t
  {
    MatchAtComplete(text, i, s);
    MatchAtComplete(text, i, t);
  }

  /** The leftmost token at or after position `i`. */
  function FirstTimeFrom(text: string, i: nat): (r: Option<string>)
    requires i <= |text|
    ensures r.None? ==> NoTokenIn(text, i, |text| + 1)
    ensures r.Some? ==> exists j | i <= j < |text| :: TokenAt(text, j, r.value) && NoTokenIn(text, i, j)
    decreases |text| - i
  {
    if i == |text| then None
    else match MatchAt(text, i)
      case Some(s) => Some(s)
      case None =>
        NoMatchNoToken(text, i);
        FirstTimeFrom(text, i + 1)
  }

  /** The search from `i` returns the token at the leftmost position at or
      after `i` that holds one. */
  lemma {:induction false} FirstTimeFromLeftmost(text: string, i: nat, j: nat, s: string)
    requires i <= j && TokenAt(text, j, s) && NoTokenIn(text, i, j)
    ensures FirstTimeFrom(text, i) == Some(s)
    decreases j - i
  {
    if i == j {
      MatchAtComplete(text, i, s);
    } else {
      assert MatchAt(text, i).None?;
      assert FirstTimeFrom(text, i) == FirstTimeFrom(text, i + 1);
      FirstTimeFromLeftmost(text, i + 1, j, s);
    }
  }

  lemma FirstTimeFromLeftmostAll(text: string)
    ensures forall j: nat, s: string | TokenAt(text, j, s) && NoTokenIn(text, 0, j) :: FirstTimeFrom(text, 0) == Some(s)
  {
    forall j: nat, s: string | TokenAt(text, j, s) && NoTokenIn(text, 0, j) ensures FirstTimeFrom(text, 0) == Some(s) {
      FirstTimeFromLeftmost(text, 0, j, s);
    }
  }

  /** `extract_first_time`: the inner text of the leftmost `[d+.d+]` token,
      or `None` when the text holds none. The last two clauses together say
      the result is exactly the token at the leftmost position holding one. */
  function ExtractFirstTime(text: string): (r: Option<string>)
    ensures r.None? <==> NoTokenIn(text, 0, |text| + 1)
    ensures r.Some? ==> IsTimeToken(r.value)
    ensures r.Some? ==> exists j | 0 <= j < |text| :: TokenAt(text, j, r.value) && NoTokenIn(text, 0, j)
    ensures forall j: nat, s: string | TokenAt(text, j, s) && NoTokenIn(text, 0, j) :: r == Some(s)
  {
    FirstTimeFromLeftmostAll(text);
    FirstTimeFrom(text, 0)
  }

  lemma TimeTokenWitness(s: string, p: nat)
    requires 0 < p < |s| - 1 && s[p] == '.' && DigitsIn(s, 0, p) && DigitsIn(s, p + 1, |s|)
    ensures IsTimeToken(s)
  {
  }

  /** A bracketed decimal is found: `[42.50]` gives `42.50`. */
  lemma ExtractsBracketedDecimal()
    ensures ExtractFirstTime("at [42.50] in the call") == Some("42.50")
  {
    var text := "at [42.50] in the call";
    var s := "42.50";
    assert forall k | 0 <= k < 3 :: text[k] != '[';
    assert text[3] == '[' && text[4] == '4' && text[5] == '2' && text[6] == '.' && text[7] == '5' && text[8] == '0'
      && text[9] == ']';
    assert s[0] == '4' && s[1] == '2' && s[2] == '.' && s[3] == '5' && s[4] == '0';
    assert text[4..9] == s;
    TimeTokenWitness(s, 2);
    assert TokenAt(text, 3, s);
    assert NoTokenIn(text, 0, 3);
    FirstTimeFromLeftmost(text, 0, 3, s);
  }

  /** Integers and dotted triples in brackets are not time tokens. */
  lemma RejectsNonDecimals()
    ensures ExtractFirstTime("[123]") == None
    ensures ExtractFirstTime("[1.2.3]") == None
  {
  }

  /** A later token is found past an earlier near miss. */
  lemma SkipsNearMiss()
    ensures ExtractFirstTime("[1.2.3] [4.5]") == Some("4.5")
  {
    var text := "[1.2.3] [4.5]";
    var s := "4.5";
    assert forall k | 1 <= k < 8 :: text[k] != '[';
    assert text[8] == '[' && text[9] == '4' && text[10] == '.' && text[11] == '5' && text[12] == ']';
    assert s[0] == '4' && s[1] == '.' && s[2] == '5';
    assert text[9..12] == s;
    TimeTokenWitness(s, 1);
    assert TokenAt(text, 8, s);
    assert MatchAt(text, 0).None?;
    NoMatchNoToken(text, 0);
    assert NoTokenIn(text, 0, 8);
    FirstTimeFromLeftmost(text, 0, 8, s);
  }
}
