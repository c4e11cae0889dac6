/**
 * The four selection rules of the search, stated on the list of candidate
 * stations independently of how ties in the sorts are broken, and the lemmas
 * that connect them to "first element of the sorted list".
 */
module Selection {
  import opened Stations
  import opened Sorting

  /** How many of the nearest stations the "nearest and cheapest" rule considers. */
  const NearestGroupSize: nat := 15

  function Min(a: int, b: int): int { if a <= b then a else b }

  /** `x` lies strictly within distance `d` (or within or at `d`, when `inclusive`). */
  predicate Within(x: Station, d: real, inclusive: bool) {
    if inclusive then x.distancia <= d else x.distancia < d
  }

  /** The number of stations of `s` within distance `d`. */
  function CountWithin(s: seq<Station>, d: real, inclusive: bool): (n: nat)
    ensures n <= |s|
  {
    if s == [] then 0
    else (if Within(s[0], d, inclusive) then 1 else 0) + CountWithin(s[1..], d, inclusive)
  }

  /** Rule for `nearest` alone and for no flag: no candidate is closer. */
  ghost predicate IsNearest(candidates: seq<Station>, s: Station) {
    s in candidates && forall x :: x in candidates ==> s.distancia <= x.distancia
  }

  /** Rule for `cheapest` alone: no candidate is cheaper. */
  ghost predicate IsCheapest(candidates: seq<Station>, s: Station) {
    s in candidates && forall x :: x in candidates ==> s.precio <= x.precio
  }

  /** `s` is one of the first 15 stations of `t` and no dearer than any of them. */
  ghost predicate CheapestOfFirst(t: seq<Station>, s: Station) {
    var m := Min(NearestGroupSize, |t|);
    s in t[..m] && forall j :: 0 <= j < m ==> s.precio <= t[j].precio
  }

  /**
   * Rule for `nearest` and `cheapest` together: some ordering of the
   * candidates by distance (ties broken in any way) has `s` among its first 15
   * and no dearer than the others of those 15.
   */
  ghost predicate IsCheapestOfNearest(candidates: seq<Station>, s: Station) {
    s in candidates &&
    exists t :: multiset(t) == multiset(candidates) && SortedBy(t, ByDistance) && CheapestOfFirst(t, s)
  }

  /**
   * A weaker rule that needs no ordering: fewer than 15 candidates are strictly
   * closer than `s`, and `s` is no dearer than any candidate that every
   * distance ordering puts among the first 15 (one with at most 15 candidates
   * at its distance or closer).
   */
  ghost predicate WithinCountRule(candidates: seq<Station>, s: Station) {
    s in candidates &&
    CountWithin(candidates, s.distancia, false) < NearestGroupSize &&
    forall x :: x in candidates && CountWithin(candidates, x.distancia, true) <= NearestGroupSize ==>
      s.precio <= x.precio
  }

  /** The station the search may return for the given flags. */
  ghost predicate Chosen(candidates: seq<Station>, s: Station, nearest: bool, cheapest: bool) {
    if nearest && cheapest then IsCheapestOfNearest(candidates, s)
    else if cheapest then IsCheapest(candidates, s)
    else IsNearest(candidates, s)
  }

  // ---------------------------------------------------------------------------
  // Counting

  lemma {:induction false} CountAppend(a: seq<Station>, b: seq<Station>, d: real, inclusive: bool)
    ensures CountWithin(a + b, d, inclusive) == CountWithin(a, d, inclusive) + CountWithin(b, d, inclusive)
  {
    if a != [] {
      assert (a + b)[1..] == a[1..] + b;
      CountAppend(a[1..], b, d, inclusive);
    } else {
      assert a + b == b;
    }
  }

  /** Taking the station at index `k` out of a list, and what that does to the count. */
  lemma RemoveAt(u: seq<Station>, k: nat, d: real, inclusive: bool)
    requires k < |u|
    ensures multiset(u[..k] + u[k + 1..]) == multiset(u) - multiset{u[k]}
    ensures CountWithin(u, d, inclusive)
         == CountWithin(u[..k] + u[k + 1..], d, inclusive) + (if Within(u[k], d, inclusive) then 1 else 0)
  {
    assert u == u[..k] + [u[k]] + u[k + 1..];
    assert multiset(u) == multiset(u[..k]) + multiset{u[k]} + multiset(u[k + 1..]);
    CountAppend(u[..k] + [u[k]], u[k + 1..], d, inclusive);
    CountAppend(u[..k], [u[k]], d, inclusive);
    CountAppend(u[..k], u[k + 1..], d, inclusive);
  }

  /** The count depends only on which stations there are, not on their order. */
  lemma {:induction false} CountPermutation(t: seq<Station>, u: seq<Station>, d: real, inclusive: bool)
    requires multiset(t) == multiset(u)
    ensures CountWithin(t, d, inclusive) == CountWithin(u, d, inclusive)
    decreases |t|
  {
    if t != [] {
      assert t == [t[0]] + t[1..];
      assert multiset(t[1..]) == multiset(t) - multiset{t[0]};
      assert t[0] in multiset(u);
      var k :| 0 <= k < |u| && u[k] == t[0];
      RemoveAt(u, k, d, inclusive);
      CountPermutation(t[1..], u[..k] + u[k + 1..], d, inclusive);
    }
  }

  lemma {:induction false} CountAllWithin(s: seq<Station>, d: real, inclusive: bool)
    requires forall x :: x in s ==> Within(x, d, inclusive)
    ensures CountWithin(s, d, inclusive) == |s|
  {
    if s != [] {
      CountAllWithin(s[1..], d, inclusive);
    }
  }

  lemma {:induction false} CountNoneWithin(s: seq<Station>, d: real, inclusive: bool)
    requires forall x :: x in s ==> !Within(x, d, inclusive)
    ensures CountWithin(s, d, inclusive) == 0
  {
    if s != [] {
      CountNoneWithin(s[1..], d, inclusive);
    }
  }

  /**
   * In a distance-sorted list, at most `i` stations are strictly closer than
   * the one at index `i`, and at least `i + 1` are at its distance or closer.
   */
  lemma SortedPositionCounts(t: seq<Station>, i: nat)
    requires SortedBy(t, ByDistance) && i < |t|
    ensures CountWithin(t, t[i].distancia, false) <= i
    ensures CountWithin(t, t[i].distancia, true) >= i + 1
  {
    var d := t[i].distancia;
    assert t == t[..i] + t[i..];
    CountAppend(t[..i], t[i..], d, false);
    CountNoneWithin(t[i..], d, false);
    assert t == t[..i + 1] + t[i + 1..];
    CountAppend(t[..i + 1], t[i + 1..], d, true);
    CountAllWithin(t[..i + 1], d, true);
  }

  // ---------------------------------------------------------------------------
  // From sorted lists to the rules

  /** The head of a sorted rearrangement of the candidates has the least key among them. */
  lemma SortedHeadIsLeast(candidates: seq<Station>, t: seq<Station>, k: SortKey)
    requires multiset(t) == multiset(candidates) && SortedBy(t, k) && t != []
    ensures t[0] in candidates
    ensures forall x :: x in candidates ==> Key(t[0], k) <= Key(x, k)
  {
    assert t[0] in multiset(candidates);
    forall x | x in candidates
      ensures Key(t[0], k) <= Key(x, k)
    {
      assert x in multiset(t);
      var j :| 0 <= j < |t| && t[j] == x;
    }
  }

  /**
   * The "nearest and cheapest" choice obeys the counting rule: fewer than 15
   * candidates are strictly closer, and it is no dearer than any candidate
   * every distance ordering puts among the first 15.
   */
  lemma CheapestOfNearestCounts(candidates: seq<Station>, s: Station)
    requires IsCheapestOfNearest(candidates, s)
    ensures WithinCountRule(candidates, s)
  {
    var t :| multiset(t) == multiset(candidates) && SortedBy(t, ByDistance) && CheapestOfFirst(t, s);
    var i :| 0 <= i < Min(NearestGroupSize, |t|) && t[i] == s;
    assert s in multiset(candidates);
    CountPermutation(t, candidates, s.distancia, false);
    SortedPositionCounts(t, i);
    forall x | x in candidates && CountWithin(candidates, x.distancia, true) <= NearestGroupSize
      ensures s.precio <= x.precio
    {
      assert x in multiset(t);
      var k :| 0 <= k < |t| && t[k] == x;
      CountPermutation(t, candidates, x.distancia, true);
      SortedPositionCounts(t, k);
    }
  }
}
