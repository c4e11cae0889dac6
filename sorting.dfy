/**
 * `list.sort(key=...)` on a list of result stations, keyed on the distance or
 * on the price, done in place as an insertion sort.
 */
module Sorting {
  import opened Stations

  datatype SortKey = ByDistance | ByPrice

  /** The sort key: `x['distancia(lineal)']` or `x['precios<product>']`. */
  function Key(s: Station, k: SortKey): real {
    match k
    case ByDistance => s.distancia
    case ByPrice => s.precio as real
  }

  predicate SortedBy(s: seq<Station>, k: SortKey) {
    forall i, j :: 0 <= i < j < |s| ==> Key(s[i], k) <= Key(s[j], k)
  }

  /** Sorts `a` in place by key `k`: afterwards it is sorted and holds the same stations. */
  method SortBy(a: array<Station>, k: SortKey)
    modifies a
    ensures SortedBy(a[..], k)
    ensures multiset(a[..]) == multiset(old(a[..]))
  {
    for i := 0 to a.Length
      invariant SortedBy(a[..i], k)
      invariant multiset(a[..]) == multiset(old(a[..]))
    {
      Insert(a, i, k);
    }
    assert a[..a.Length] == a[..];
  }

  /** Moves `a[i]` down into the sorted prefix `a[..i]`, leaving `a[..i + 1]` sorted and `a[i + 1..]` as it was. */
  method Insert(a: array<Station>, i: nat, k: SortKey)
    requires i < a.Length && SortedBy(a[..i], k)
    modifies a
    ensures SortedBy(a[..i + 1], k)
    ensures a[i + 1..] == old(a[i + 1..])
    ensures multiset(a[..]) == multiset(old(a[..]))
  {
    var j := i;
    SortedExceptStart(a[..], i, k);
    while j > 0 && Key(a[j - 1], k) > Key(a[j], k)
      invariant 0 <= j <= i
      invariant SortedExcept(a[..], i + 1, j, k)
      invariant a[i + 1..] == old(a[i + 1..])
      invariant multiset(a[..]) == multiset(old(a[..]))
    {
      SwapDown(a, i + 1, j, k);
      j := j - 1;
    }
    SortedExceptDone(a[..], i + 1, j, k);
  }

  /** One step of Insert: the out-of-order element at `j` changes places with its left neighbour. */
  method SwapDown(a: array<Station>, n: nat, j: nat, k: SortKey)
    requires SortedExcept(a[..], n, j, k) && 0 < j && Key(a[j - 1], k) > Key(a[j], k)
    modifies a
    ensures a[..] == old(a[..])[j - 1 := old(a[j])][j := old(a[j - 1])]
    ensures SortedExcept(a[..], n, j - 1, k)
    ensures a[n..] == old(a[n..])
    ensures multiset(a[..]) == multiset(old(a[..]))
  {
    SwapStep(a[..], n, j, k);
    Swap(a, j - 1, j);
  }

  /** `s[..n]` is sorted by `k` except that pairs whose second element is at `j` may be out of order. */
  ghost predicate SortedExcept(s: seq<Station>, n: nat, j: nat, k: SortKey) {
    j < n <= |s| && forall p, q :: 0 <= p < q < n && q != j ==> Key(s[p], k) <= Key(s[q], k)
  }

  lemma SortedExceptStart(s: seq<Station>, i: nat, k: SortKey)
    requires i < |s| && SortedBy(s[..i], k)
    ensures SortedExcept(s, i + 1, i, k)
  {
    forall p, q | 0 <= p < q < i + 1 && q != i
      ensures Key(s[p], k) <= Key(s[q], k)
    {
      assert s[p] == s[..i][p] && s[q] == s[..i][q];
    }
  }

  /** Exchanging the out-of-order element at `j` with its left neighbour moves the exception to `j - 1`. */
  lemma SwapStep(s: seq<Station>, n: nat, j: nat, k: SortKey)
    requires SortedExcept(s, n, j, k) && 0 < j && Key(s[j - 1], k) > Key(s[j], k)
    ensures var t := s[j - 1 := s[j]][j := s[j - 1]];
      SortedExcept(t, n, j - 1, k) && t[n..] == s[n..] && multiset(t) == multiset(s)
  {
    var t := s[j - 1 := s[j]][j := s[j - 1]];
    forall p, q | 0 <= p < q < n && q != j - 1
      ensures Key(t[p], k) <= Key(t[q], k)
    {
      if q == j && p < j - 1 {
        assert Key(s[p], k) <= Key(s[j - 1], k);
      } else if p == j - 1 {
        if q > j {
          assert Key(s[j - 1], k) <= Key(s[q], k);
        }
      } else if p == j {
        assert Key(s[j - 1], k) <= Key(s[q], k);
      }
    }
    assert t[n..] == s[n..];
  }

  /** Once the element at `j` is no smaller than its left neighbour, the whole prefix is sorted. */
  lemma SortedExceptDone(s: seq<Station>, n: nat, j: nat, k: SortKey)
    requires SortedExcept(s, n, j, k) && (j == 0 || Key(s[j - 1], k) <= Key(s[j], k))
    ensures SortedBy(s[..n], k)
  {
    forall p, q | 0 <= p < q < n
      ensures Key(s[p], k) <= Key(s[q], k)
    {
      if q == j && p < j - 1 {
        assert Key(s[p], k) <= Key(s[j - 1], k);
      }
    }
  }

  /** Exchanges two elements. */
  method Swap(a: array<Station>, i: nat, j: nat)
    requires i < a.Length && j < a.Length
    modifies a
    ensures a[..] == old(a[..])[i := old(a[j])][j := old(a[i])]
    ensures multiset(a[..]) == multiset(old(a[..]))
  {
    a[i], a[j] := a[j], a[i];
  }
}
