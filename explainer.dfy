/** The top-allocations selection of `ExplainerAgent.run` in
    backend/app/explainer_agent.py: the positive entries of a solution, by
    value from largest to smallest, at most five of them. */
module Explainer {
  import opened Sorting

  /** A `(category, amount)` item of the solution dict, in insertion order. */
  type Allocation = (string, int)

  /** The sort key that makes an ascending stable sort put larger amounts first. */
  function Descending(a: Allocation): int { -a.1 }

  /** `[(k, v) for k, v in solution.items() if v > 0]`. */
  function Positive(solution: seq<Allocation>): (r: seq<Allocation>)
    ensures forall a :: a in r <==> a in solution && a.1 > 0
    ensures multiset(r) <= multiset(solution)
    ensures forall i :: 0 <= i < |r| ==> r[i].1 > 0
  {
    if solution == [] then []
    else
      var init, last := solution[..|solution| - 1], solution[|solution| - 1];
      assert solution == init + [last];
      Positive(init) + (if last.1 > 0 then [last] else [])
  }

  const TopCount: nat := 5

  /** A prefix of the positive entries sorted by decreasing amount keeps
      every property the selection promises. */
  lemma SelectionFacts(pos: seq<Allocation>, sorted: seq<Allocation>, n: nat)
    requires forall i :: 0 <= i < |pos| ==> pos[i].1 > 0
    requires SortedBy(sorted, Descending) && multiset(sorted) == multiset(pos)
    requires n <= |sorted|
    ensures forall i :: 0 <= i < n ==> sorted[..n][i].1 > 0
    ensures forall i, j :: 0 <= i < j < n ==> sorted[..n][i].1 >= sorted[..n][j].1
    ensures multiset(sorted[..n]) <= multiset(pos)
  {
    assert sorted == sorted[..n] + sorted[n..];
    forall i | 0 <= i < n ensures sorted[..n][i].1 > 0 {
      assert sorted[i] in multiset(pos);
    }
  }

  /** `sorted(positive, key=lambda x: x[1], reverse=True)[:5]`. A reversed
      Python sort is still stable, so it is the stable ascending sort on the
      negated amount. */
  function TopAllocations(solution: seq<Allocation>): (r: seq<Allocation>)
    ensures |r| <= TopCount
    ensures |r| == if |Positive(solution)| < TopCount then |Positive(solution)| else TopCount
    ensures forall i :: 0 <= i < |r| ==> r[i].1 > 0
    ensures forall i, j :: 0 <= i < j < |r| ==> r[i].1 >= r[j].1
    ensures multiset(r) <= multiset(Positive(solution))
  {
    var pos := Positive(solution);
    var sorted := SortBy(pos, Descending);
    var n := if |sorted| < TopCount then |sorted| else TopCount;
    SelectionFacts(pos, sorted, n);
    sorted[..n]
  }

  /** Every positive entry left out is no larger than the smallest one
      selected, and nothing is left out when there are at most five. */
  lemma LeftOutAreSmaller(solution: seq<Allocation>)
    ensures var r := TopAllocations(solution);
      forall a :: a in solution && a.1 > 0 && a !in r ==> |r| == TopCount && a.1 <= r[|r| - 1].1
  {
    forall a | a in solution && a.1 > 0 && a !in TopAllocations(solution) {
      LeftOut(solution, a);
    }
  }

  lemma LeftOut(solution: seq<Allocation>, a: Allocation)
    requires a in solution && a.1 > 0 && a !in TopAllocations(solution)
    ensures var r := TopAllocations(solution);
      |r| == TopCount && a.1 <= r[|r| - 1].1
  {
    var sorted := SortBy(Positive(solution), Descending);
    var r := TopAllocations(solution);
    TopIsPrefix(solution);
    assert a in multiset(sorted);
    OutsidePrefix(sorted, |r|, a);
  }

  /** An entry of a sorted list that is not in a prefix comes after it, so
      its amount is at most the prefix's last one. */
  lemma OutsidePrefix(sorted: seq<Allocation>, n: nat, a: Allocation)
    requires SortedBy(sorted, Descending) && n <= |sorted|
    requires a in sorted && a !in sorted[..n]
    ensures n < |sorted| && (n > 0 ==> a.1 <= sorted[n - 1].1)
  {
    var k :| 0 <= k < |sorted| && sorted[k] == a;
    if n > 0 {
      assert Descending(sorted[n - 1]) <= Descending(sorted[k]);
    }
  }

  /** Among entries of equal amount the selection keeps the solution's
      order: for every sort key `k` (the amount `-k`), the selected entries
      with that key are the first entries with that key in the solution. */
  lemma EqualAmountsKeepOrder(solution: seq<Allocation>, k: int)
    ensures |WithKey(TopAllocations(solution), Descending, k)| <= |WithKey(Positive(solution), Descending, k)|
    ensures WithKey(TopAllocations(solution), Descending, k)
            == WithKey(Positive(solution), Descending, k)[..|WithKey(TopAllocations(solution), Descending, k)|]
    ensures |WithKey(TopAllocations(solution), Descending, k)| <= |WithKey(solution, Descending, k)|
    ensures WithKey(TopAllocations(solution), Descending, k)
            == WithKey(solution, Descending, k)[..|WithKey(TopAllocations(solution), Descending, k)|]
  {
    var pos := Positive(solution);
    var top := TopAllocations(solution);
    TopIsPrefix(solution);
    PrefixSelection(pos, SortBy(pos, Descending), top, k);
    if k < 0 {
      PositiveKeepsOrder(solution, k);
    } else {
      WithKeyAbsent(top, Descending, k);
    }
  }

  /** Dropping the entries that are not positive keeps the order of the rest:
      for a key of a positive amount, the entries with that key are the same
      before and after. */
  lemma {:induction false} PositiveKeepsOrder(solution: seq<Allocation>, k: int)
    requires k < 0
    ensures WithKey(Positive(solution), Descending, k) == WithKey(solution, Descending, k)
  {
    if solution != [] {
      var init, last := solution[..|solution| - 1], solution[|solution| - 1];
      assert solution == init + [last];
      PositiveKeepsOrder(init, k);
      var tail := if last.1 > 0 then [last] else [];
      WithKeyConcat(Positive(init), tail, Descending, k);
      WithKeyConcat(init, [last], Descending, k);
      assert [last][1..] == [];
      if last.1 <= 0 {
        assert WithKey([last], Descending, k) == [];
      }
    }
  }

  lemma PrefixSelection(pos: seq<Allocation>, sorted: seq<Allocation>, top: seq<Allocation>, k: int)
    requires |top| <= |sorted| && top == sorted[..|top|]
    requires WithKey(sorted, Descending, k) == WithKey(pos, Descending, k)
    ensures |WithKey(top, Descending, k)| <= |WithKey(pos, Descending, k)|
    ensures WithKey(top, Descending, k) == WithKey(pos, Descending, k)[..|WithKey(top, Descending, k)|]
  {
    PrefixWithKey(sorted, |top|, Descending, k);
  }

  lemma TopIsPrefix(solution: seq<Allocation>)
    ensures var sorted := SortBy(Positive(solution), Descending);
      |TopAllocations(solution)| <= |sorted| && TopAllocations(solution) == sorted[..|TopAllocations(solution)|]
  {
  }
}
