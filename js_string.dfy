/**
 * The JavaScript string operations the webhook validators rely on:
 * `toLowerCase`, `indexOf` and `replace` with a string pattern, and the
 * truthiness test `!x` on a value that is a string or `undefined`.
 */
module JsString {
  import opened Wrappers

  /** `x` is truthy: defined and not the empty string. */
  predicate Truthy(x: Option<string>) {
    x.Some? && x.value != ""
  }

  /** Lower-casing of one character; only the ASCII letters A-Z change. */
  function LowerChar(c: char): char {
    if 'A' <= c <= 'Z' then (c as int + 32) as char else c
  }

  /** Upper-casing of one character; only the ASCII letters a-z change. */
  function UpperChar(c: char): char {
    if 'a' <= c <= 'z' then (c as int - 32) as char else c
  }

  /**
   * `s.toLowerCase()` restricted to ASCII folding: the same length, each
   * character lower-cased. JavaScript also folds non-ASCII letters, some of
   * them into two code units; none of those folds into an ASCII letter of
   * `get` or `post`.
   */
  function ToLowerCase(s: string): (r: string)
    ensures |r| == |s|
    ensures forall i :: 0 <= i < |s| ==> r[i] == LowerChar(s[i])
  {
    if s == [] then [] else [LowerChar(s[0])] + ToLowerCase(s[1..])
  }

  /**
   * ASCII upper-casing: the same length, each character upper-cased. No call
   * of the webhook makes it; it describes a header that carries the digest in
   * upper-case hex.
   */
  function ToUpperCase(s: string): (r: string)
    ensures |r| == |s|
    ensures forall i :: 0 <= i < |s| ==> r[i] == UpperChar(s[i])
  {
    if s == [] then [] else [UpperChar(s[0])] + ToUpperCase(s[1..])
  }

  /**
   * `s` spells the lower-case ASCII word `w` with each letter in either case:
   * the independent reading of `s.toLowerCase() === w`.
   */
  predicate SpellsIgnoringCase(s: string, w: string) {
    |s| == |w| && forall i :: 0 <= i < |s| ==> s[i] == w[i] || s[i] == UpperChar(w[i])
  }

  /** Only `w` itself and its upper-case form lower-case to the ASCII letter `w`. */
  lemma LowerCharInverse(c: char, w: char)
    requires 'a' <= w <= 'z'
    ensures LowerChar(c) == w <==> c == w || c == UpperChar(w)
  {
  }

  /** Comparing `s.toLowerCase()` with a lower-case word accepts exactly its case variants. */
  lemma ToLowerCaseMatches(s: string, w: string)
    requires forall i :: 0 <= i < |w| ==> 'a' <= w[i] <= 'z'
    ensures ToLowerCase(s) == w <==> SpellsIgnoringCase(s, w)
  {
    var l := ToLowerCase(s);
    if SpellsIgnoringCase(s, w) {
      forall i | 0 <= i < |s| ensures l[i] == w[i] {
        LowerCharInverse(s[i], w[i]);
      }
    }
    if l == w {
      forall i | 0 <= i < |s| ensures s[i] == w[i] || s[i] == UpperChar(w[i]) {
        LowerCharInverse(s[i], w[i]);
      }
    }
  }

  /** `pat` occurs in `s` starting at index `j`. */
  predicate OccursAt(s: string, pat: string, j: nat) {
    j + |pat| <= |s| && s[j..j + |pat|] == pat
  }

  /** `s.indexOf(pat)`: the first index at which `pat` occurs, or None for -1. */
  function IndexOf(s: string, pat: string): (r: Option<nat>)
    ensures r.Some? ==> OccursAt(s, pat, r.value)
    ensures r.Some? ==> forall j: nat :: j < r.value ==> !OccursAt(s, pat, j)
    ensures r.None? ==> forall j: nat :: !OccursAt(s, pat, j)
    decreases |s|
  {
    if |s| < |pat| then None
    else if s[..|pat|] == pat then Some(0)
    else
      var rest := IndexOf(s[1..], pat);
      OccursAtTail(s, pat);
      assert !OccursAt(s, pat, 0) by { assert s[0..|pat|] == s[..|pat|]; }
      if rest.None? then None else Some(rest.value + 1)
  }

  /** An occurrence at index j > 0 of `s` is an occurrence at index j - 1 of `s[1..]`. */
  lemma OccursAtTail(s: string, pat: string)
    requires |s| > 0
    ensures forall j: nat :: 0 < j ==> (OccursAt(s, pat, j) <==> OccursAt(s[1..], pat, j - 1))
  {
    forall j: nat | 0 < j ensures OccursAt(s, pat, j) <==> OccursAt(s[1..], pat, j - 1) {
      if j + |pat| <= |s| {
        assert s[1..][j - 1..j - 1 + |pat|] == s[j..j + |pat|];
      }
    }
  }

  /**
   * `s.replace(pat, "")`: with a string pattern JavaScript replaces only the
   * first occurrence, wherever it is; a string without `pat` is returned as is.
   */
  function RemoveFirst(s: string, pat: string): (r: string)
    ensures IndexOf(s, pat).None? ==> r == s
    ensures IndexOf(s, pat).Some? ==>
      var i := IndexOf(s, pat).value; |r| == |s| - |pat| && s == r[..i] + pat + r[i..]
  {
    match IndexOf(s, pat)
    case None => s
    case Some(i) => s[..i] + s[i + |pat|..]
  }

  /** Removing a pattern that `s` starts with leaves the rest of `s`. */
  lemma RemoveFirstOfPrefix(pat: string, rest: string)
    ensures RemoveFirst(pat + rest, pat) == rest
  {
    var s := pat + rest;
    assert OccursAt(s, pat, 0) by { assert s[0..|pat|] == pat; }
    assert IndexOf(s, pat) == Some(0);
  }
}
