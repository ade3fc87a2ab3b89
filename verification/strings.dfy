/**
 * Substring search and JavaScript's `String.prototype.replace` with a string
 * pattern, which replaces the FIRST occurrence only (or nothing, if the
 * pattern does not occur).
 */
module Strings {
  import opened Wrappers

  /** `p` occurs in `s` starting at index `i`. */
  predicate OccursAt(s: string, p: string, i: nat) {
    i + |p| <= |s| && s[i..i + |p|] == p
  }

  ghost predicate Occurs(s: string, p: string) {
    exists i: nat :: OccursAt(s, p, i)
  }

  /** `i` is where `p` occurs first in `s`: the reference definition the search is checked against. */
  ghost predicate IsFirstOccurrence(s: string, p: string, i: nat) {
    OccursAt(s, p, i) && forall j: nat :: j < i ==> !OccursAt(s, p, j)
  }

  /** Left-to-right search for `p` in `s`, starting at index `k`. */
  function IndexOfFrom(s: string, p: string, k: nat): (r: Option<nat>)
    decreases |s| - k
    ensures r.Some? ==> k <= r.value && OccursAt(s, p, r.value)
    ensures r.Some? ==> forall j: nat :: k <= j < r.value ==> !OccursAt(s, p, j)
    ensures r.None? ==> forall j: nat :: k <= j ==> !OccursAt(s, p, j)
  {
    if |s| < k + |p| then None
    else if s[k..k + |p|] == p then Some(k)
    else IndexOfFrom(s, p, k + 1)
  }

  /** `String.prototype.indexOf`, with `None` for -1. */
  function IndexOf(s: string, p: string): (r: Option<nat>)
    ensures r.Some? <==> Occurs(s, p)
    ensures r.Some? ==> IsFirstOccurrence(s, p, r.value)
  {
    IndexOfFrom(s, p, 0)
  }

  /** `s.replace(p, rep)` for a string pattern `p` and a replacement without `$` patterns. */
  function ReplaceFirst(s: string, p: string, rep: string): (r: string)
    ensures !Occurs(s, p) ==> r == s
    ensures forall i: nat :: IsFirstOccurrence(s, p, i) ==> r == s[..i] + rep + s[i + |p|..]
  {
    match IndexOf(s, p)
    case None => s
    case Some(i) => s[..i] + rep + s[i + |p|..]
  }

  /** Replacing grows or shrinks the string by the size difference exactly when the pattern occurs. */
  lemma ReplaceFirstLength(s: string, p: string, rep: string)
    ensures |ReplaceFirst(s, p, rep)| == if Occurs(s, p) then |s| - |p| + |rep| else |s|
  {
  }

  /** Only the first of two occurrences is replaced: `replace` is not a replace-all. */
  lemma ReplaceFirstLeavesLaterOccurrences()
    ensures ReplaceFirst("@everyone @everyone", "@everyone", "@ everyone") == "@ everyone @everyone"
  {
    var s := "@everyone @everyone";
    assert OccursAt(s, "@everyone", 0);
    assert IsFirstOccurrence(s, "@everyone", 0);
    assert s[9..] == " @everyone";
  }

  /** Two characters that `p` starts with are found where `p` occurs. */
  lemma OccursAtStart(s: string, p: string, i: nat)
    requires OccursAt(s, p, i) && |p| >= 2
    ensures s[i] == p[0] && s[i + 1] == p[1]
  {
  }
}
