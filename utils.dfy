/** `find_all_substrings`: every non-overlapping occurrence of a substring,
    leftmost first, found by repeated `str.find`. The generator becomes a
    method that collects what it would yield. */
module Utils {

  /** `sub` occurs in `source` at position `p`. */
  predicate OccursAt(source: string, sub: string, p: int)
  {
    0 <= p && p + |sub| <= |source| && source[p..p + |sub|] == sub
  }

  /** `source.find(sub, start)`: the lowest occurrence at or after `start`,
      or -1 when there is none. */
  function Find(source: string, sub: string, start: nat): (r: int)
    ensures r == -1 || (start <= r && OccursAt(source, sub, r))
    ensures r == -1 ==> forall p :: start <= p ==> !OccursAt(source, sub, p)
    ensures r != -1 ==> forall p :: start <= p < r ==> !OccursAt(source, sub, p)
    decreases |source| - start
  {
    if start + |sub| > |source| then -1
    else if source[start..start + |sub|] == sub then start
    else Find(source, sub, start + 1)
  }

  /** Where the search resumes after the first `n` positions were yielded. */
  function Resume(positions: seq<nat>, sub: string, n: nat): nat
    requires n <= |positions|
  {
    if n == 0 then 0 else positions[n - 1] + |sub|
  }

  /** No occurrence starts between the place the search resumed and the
      position it then yielded. */
  predicate NoneSkipped(source: string, sub: string, positions: seq<nat>)
  {
    forall k, p :: 0 <= k < |positions| && Resume(positions, sub, k) <= p < positions[k]
                   ==> !OccursAt(source, sub, p)
  }

  /** `find_all_substrings(source, sub)`, for a non-empty `sub`. Every
      position is an occurrence, each one starts at or after the end of the
      one before, none was skipped, and none starts after the end of the
      last. */
  method FindAllSubstrings(source: string, sub: string) returns (positions: seq<nat>)
    requires |sub| > 0
    ensures forall k :: 0 <= k < |positions| ==> OccursAt(source, sub, positions[k])
    ensures forall k :: 0 < k < |positions| ==> positions[k - 1] + |sub| <= positions[k]
    ensures NoneSkipped(source, sub, positions)
    ensures forall p :: Resume(positions, sub, |positions|) <= p ==> !OccursAt(source, sub, p)
  {
    positions := [];
    var start: int := 0;
    while true
      invariant 0 <= start <= |source|
      invariant start == Resume(positions, sub, |positions|)
      invariant forall k :: 0 <= k < |positions| ==> OccursAt(source, sub, positions[k])
      invariant forall k :: 0 < k < |positions| ==> positions[k - 1] + |sub| <= positions[k]
      invariant NoneSkipped(source, sub, positions)
      decreases |source| - start
    {
      start := Find(source, sub, start);
      if start == -1 {
        return;
      }
      assert forall k :: 0 <= k < |positions| ==> Resume(positions + [start], sub, k) == Resume(positions, sub, k);
      positions := positions + [start];
      start := start + |sub|;
    }
  }

  /** The yielded positions cover every occurrence: each occurrence is one
      of them or starts inside one of them. */
  lemma EveryOccurrenceCovered(source: string, sub: string, positions: seq<nat>, p: int)
    requires forall k :: 0 < k < |positions| ==> positions[k - 1] + |sub| <= positions[k]
    requires NoneSkipped(source, sub, positions)
    requires forall q :: Resume(positions, sub, |positions|) <= q ==> !OccursAt(source, sub, q)
    requires OccursAt(source, sub, p)
    ensures exists k :: 0 <= k < |positions| && positions[k] <= p < positions[k] + |sub|
  {
    CoveredBeforeResume(source, sub, positions, p);
  }

  /** An occurrence before the point where the search resumes lies inside
      one of the yielded positions. */
  lemma {:induction false} CoveredBeforeResume(source: string, sub: string, positions: seq<nat>, p: int)
    requires NoneSkipped(source, sub, positions)
    requires OccursAt(source, sub, p) && p < Resume(positions, sub, |positions|)
    ensures exists k :: 0 <= k < |positions| && positions[k] <= p < positions[k] + |sub|
  {
    var n := |positions|;
    if p < positions[n - 1] {
      var init := positions[..n - 1];
      assert forall k :: 0 <= k < n - 1 ==> Resume(init, sub, k) == Resume(positions, sub, k);
      assert NoneSkipped(source, sub, init);
      CoveredBeforeResume(source, sub, init, p);
      var k :| 0 <= k < n - 1 && init[k] <= p < init[k] + |sub|;
      assert positions[k] == init[k];
    }
  }
}
