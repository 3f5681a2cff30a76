/** The string built-ins the background script relies on, over `string` = `seq<char>`. */
module Text {

  predicate IsDigit(c: char) {
    '0' <= c <= '9'
  }

  predicate AllDigits(s: string) {
    forall k :: 0 <= k < |s| ==> IsDigit(s[k])
  }

  /** `p` occurs in `s` starting at index `i`. */
  predicate OccursAt(s: string, p: string, i: int) {
    0 <= i && i + |p| <= |s| && s[i..i + |p|] == p
  }

  /** `s.includes(p)`. */
  predicate Contains(s: string, p: string) {
    exists i :: 0 <= i <= |s| && OccursAt(s, p, i)
  }

  /**
   * `s.split('?')[0]`: everything before the first `?`, or all of `s` when it has none.
   * The three ensures clauses determine the result.
   */
  function StripQuery(s: string): (r: string)
    ensures r <= s
    ensures '?' !in r
    ensures |r| < |s| ==> s[|r|] == '?'
  {
    if s == [] || s[0] == '?' then []
    else
      var rest := StripQuery(s[1..]);
      assert s == [s[0]] + s[1..];
      [s[0]] + rest
  }

  /**
   * Length of the maximal run of digits that starts at index `i`: what a greedy `\d+` (or `\d*`)
   * consumes there.
   */
  function DigitRun(s: string, i: nat): (n: nat)
    requires i <= |s|
    ensures i + n <= |s|
    ensures forall k :: i <= k < i + n ==> IsDigit(s[k])
    ensures i + n == |s| || !IsDigit(s[i + n])
    decreases |s| - i
  {
    if i < |s| && IsDigit(s[i]) then 1 + DigitRun(s, i + 1) else 0
  }

  /** A string without `?` is its own query-stripped prefix, whatever query is appended to it. */
  lemma StripQueryOfQuery(u: string, query: string)
    requires '?' !in u
    ensures StripQuery(u) == u
    ensures StripQuery(u + "?" + query) == u
  {
    var s := u + "?" + query;
    assert s[..|u|] == u && s[|u|] == '?';
  }

  /** Stripping the query twice is stripping it once. */
  lemma StripQueryIdempotent(s: string)
    ensures StripQuery(StripQuery(s)) == StripQuery(s)
  {
  }

  /** A pattern with a character that `s` lacks occurs nowhere in `s`. */
  lemma MissingCharacterRulesOut(s: string, p: string, j: nat)
    requires j < |p| && p[j] !in s
    ensures !Contains(s, p)
  {
    forall i | 0 <= i <= |s|
      ensures !OccursAt(s, p, i)
    {
      if i + |p| <= |s| {
        assert s[i + j] in s;
        assert s[i..i + |p|][j] == s[i + j] != p[j];
      }
    }
  }
}
