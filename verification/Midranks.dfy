/**
 Ranks with ties, as used for rank correlation: equal values share the middle of the
 positions they occupy.
 */
module Midranks {
  import Counting

  function Below(values: seq<real>, x: real): nat {
    if values == [] then 0 else Below(values[..|values| - 1], x) + if values[|values| - 1] < x then 1 else 0
  }

  function Equal(values: seq<real>, x: real): nat {
    if values == [] then 0 else Equal(values[..|values| - 1], x) + if values[|values| - 1] == x then 1 else 0
  }

  function Above(values: seq<real>, x: real): nat {
    if values == [] then 0 else Above(values[..|values| - 1], x) + if values[|values| - 1] > x then 1 else 0
  }

  /** The number of smaller values, plus half the number of other equal ones. */
  function Midrank(values: seq<real>, x: real): real {
    Below(values, x) as real + (Equal(values, x) as real - 1.0) / 2.0
  }

  // ---------------------------------------------------------------- sorting positions

  /** The values at the given positions. */
  function At(values: seq<real>, order: seq<nat>): (r: seq<real>)
    requires forall k :: 0 <= k < |order| ==> order[k] < |values|
    ensures |r| == |order| && forall k :: 0 <= k < |r| ==> r[k] == values[order[k]]
  {
    seq(|order|, k requires 0 <= k < |order| => values[order[k]])
  }

  predicate Sorted(s: seq<real>) {
    forall a, b :: 0 <= a < b < |s| ==> s[a] <= s[b]
  }

  lemma {:induction false} CountsAppend(a: seq<real>, b: seq<real>, x: real)
    ensures Below(a + b, x) == Below(a, x) + Below(b, x)
    ensures Equal(a + b, x) == Equal(a, x) + Equal(b, x)
    ensures Above(a + b, x) == Above(a, x) + Above(b, x)
  {
    if b == [] {
      assert a + b == a;
    } else {
      assert (a + b)[..|a + b| - 1] == a + b[..|b| - 1];
      CountsAppend(a, b[..|b| - 1], x);
    }
  }

  /** order lists positions below n, none twice, in ascending order of value. */
  predicate Ordered(values: seq<real>, order: seq<nat>, n: nat) {
    && n <= |values|
    && (forall k :: 0 <= k < |order| ==> order[k] < n)
    && (forall a, b :: 0 <= a < b < |order| ==> order[a] != order[b])
    && (forall a, b :: 0 <= a < b < |order| ==> values[order[a]] <= values[order[b]])
  }

  /** Where the entries of a list go when x is inserted. */
  lemma Inserted(order: seq<nat>, at: nat, x: nat, k: nat)
    requires at <= |order| && k <= |order|
    ensures (order[..at] + [x] + order[at..])[k] == if k < at then order[k] else if k == at then x else order[k - 1]
  {
  }

  lemma InsertKeepsOrder(values: seq<real>, order: seq<nat>, n: nat, at: nat)
    requires Ordered(values, order, n) && n < |values| && at <= |order|
    requires at > 0 ==> values[order[at - 1]] <= values[n]
    requires forall k :: at <= k < |order| ==> values[order[k]] > values[n]
    ensures Ordered(values, order[..at] + [n] + order[at..], n + 1)
  {
    var longer := order[..at] + [n] + order[at..];
    forall k | 0 <= k < |longer| ensures longer[k] < n + 1 {
      Inserted(order, at, n, k);
    }
    forall k | 0 <= k < at ensures values[order[k]] <= values[n] {
      assert k < at - 1 ==> values[order[k]] <= values[order[at - 1]];
    }
    forall a, b | 0 <= a < b < |longer|
      ensures longer[a] != longer[b] && values[longer[a]] <= values[longer[b]]
    {
      Inserted(order, at, n, a);
      Inserted(order, at, n, b);
    }
  }

  /** The same values are listed as stand before position n. */
  ghost predicate SameCounts(values: seq<real>, order: seq<nat>, n: nat)
    requires Ordered(values, order, n)
  {
    forall x ::
      && Below(At(values, order), x) == Below(values[..n], x)
      && Equal(At(values, order), x) == Equal(values[..n], x)
  }

  lemma InsertKeepsCounts(values: seq<real>, order: seq<nat>, n: nat, at: nat)
    requires Ordered(values, order, n) && n < |values| && at <= |order| && SameCounts(values, order, n)
    requires Ordered(values, order[..at] + [n] + order[at..], n + 1)
    ensures SameCounts(values, order[..at] + [n] + order[at..], n + 1)
  {
    var s := At(values, order);
    var s' := At(values, order[..at] + [n] + order[at..]);
    assert s' == s[..at] + [values[n]] + s[at..];
    assert s == s[..at] + s[at..];
    assert values[..n + 1][..n] == values[..n];
    forall x ensures Below(s', x) == Below(values[..n + 1], x) && Equal(s', x) == Equal(values[..n + 1], x) {
      InsertedCounts(s[..at], s[at..], values[n], x);
    }
  }

  lemma NothingCounted(values: seq<real>)
    ensures SameCounts(values, [], 0)
  {
  }

  /** All positions of values, in ascending order of value. */
  method SortedOrder(values: seq<real>) returns (order: seq<nat>)
    ensures |order| == |values| && Ordered(values, order, |values|) && SameCounts(values, order, |values|)
  {
    hide SameCounts;
    NothingCounted(values);
    order := [];
    for i := 0 to |values|
      invariant |order| == i && Ordered(values, order, i) && SameCounts(values, order, i)
    {
      var at := i;
      while at > 0 && values[order[at - 1]] > values[i]
        invariant 0 <= at <= i
        invariant forall k :: at <= k < i ==> values[order[k]] > values[i]
      {
        at := at - 1;
      }
      InsertKeepsOrder(values, order, i, at);
      InsertKeepsCounts(values, order, i, at);
      order := order[..at] + [i] + order[at..];
    }
  }

  lemma InsertedCounts(left: seq<real>, right: seq<real>, y: real, x: real)
    ensures Below(left + [y] + right, x) == Below(left + right, x) + if y < x then 1 else 0
    ensures Equal(left + [y] + right, x) == Equal(left + right, x) + if y == x then 1 else 0
  {
    CountsAppend(left + [y], right, x);
    CountsAppend(left, [y], x);
    CountsAppend(left, right, x);
    assert [y][..0] == [];
  }

  // ---------------------------------------------------------------- the ranking loop

  lemma {:induction false} AllSmaller(s: seq<real>, x: real)
    requires forall k :: 0 <= k < |s| ==> s[k] < x
    ensures Below(s, x) == |s| && Equal(s, x) == 0
  {
    if s != [] { AllSmaller(s[..|s| - 1], x); }
  }

  lemma {:induction false} AllEqual(s: seq<real>, x: real)
    requires forall k :: 0 <= k < |s| ==> s[k] == x
    ensures Below(s, x) == 0 && Equal(s, x) == |s|
  {
    if s != [] { AllEqual(s[..|s| - 1], x); }
  }

  lemma {:induction false} AllGreater(s: seq<real>, x: real)
    requires forall k :: 0 <= k < |s| ==> s[k] > x
    ensures Below(s, x) == 0 && Equal(s, x) == 0
  {
    if s != [] { AllGreater(s[..|s| - 1], x); }
  }

  /** Around a block of equal values, all smaller ones before and all greater ones after. */
  lemma PartCounts(before: seq<real>, block: seq<real>, after: seq<real>, x: real)
    requires forall k :: 0 <= k < |before| ==> before[k] < x
    requires forall k :: 0 <= k < |block| ==> block[k] == x
    requires forall k :: 0 <= k < |after| ==> after[k] > x
    ensures Below(before + block + after, x) == |before| && Equal(before + block + after, x) == |block|
  {
    AllSmaller(before, x);
    AllEqual(block, x);
    AllGreater(after, x);
    CountsAppend(before + block, after, x);
    CountsAppend(before, block, x);
  }

  /** A maximal block of equal values in a sorted list shows both counts. */
  lemma BlockCounts(s: seq<real>, cursor: nat, end: nat)
    requires Sorted(s) && cursor < end <= |s|
    requires forall k :: cursor <= k < end ==> s[k] == s[cursor]
    requires forall k :: 0 <= k < cursor ==> s[k] < s[cursor]
    requires end < |s| ==> s[end] != s[cursor]
    ensures Below(s, s[cursor]) == cursor && Equal(s, s[cursor]) == end - cursor
  {
    hide Below, Equal;
    var x := s[cursor];
    forall k | end <= k < |s| ensures s[k] > x {
      assert s[cursor] <= s[end] && (end < k ==> s[end] <= s[k]);
    }
    PartCounts(s[..cursor], s[cursor..end], s[end..], x);
    assert s == s[..cursor] + s[cursor..end] + s[end..];
  }

  lemma BlockRank(values: seq<real>, order: seq<nat>, cursor: nat, end: nat)
    requires Ordered(values, order, |values|) && SameCounts(values, order, |values|) && cursor < end <= |order|
    requires forall k :: cursor <= k < end ==> At(values, order)[k] == At(values, order)[cursor]
    requires forall k :: 0 <= k < cursor ==> At(values, order)[k] < At(values, order)[cursor]
    requires end < |order| ==> At(values, order)[end] != At(values, order)[cursor]
    ensures Midrank(values, values[order[cursor]]) == (cursor + end - 1) as real / 2.0
  {
    hide Below, Equal;
    BlockCounts(At(values, order), cursor, end);
    assert values[..|values|] == values;
  }

  /** Every value gets its midrank. */
  method Ranks(values: seq<real>) returns (result: seq<real>)
    ensures |result| == |values|
    ensures forall i :: 0 <= i < |values| ==> result[i] == Midrank(values, values[i])
  {
    hide Midrank, SameCounts;
    var order := SortedOrder(values);
    ghost var s := At(values, order);
    result := seq(|values|, _ => 0.0);
    var cursor := 0;
    while cursor < |order|
      invariant 0 <= cursor <= |order| && |result| == |values|
      invariant forall k :: 0 <= k < cursor ==> result[order[k]] == Midrank(values, values[order[k]])
      invariant forall a, b :: 0 <= a < cursor <= b < |order| ==> s[a] < s[b]
    {
      var end := cursor + 1;
      while end < |order| && values[order[end]] == values[order[cursor]]
        invariant cursor < end <= |order|
        invariant forall k :: cursor <= k < end ==> s[k] == s[cursor]
      {
        end := end + 1;
      }
      var rank := (cursor + end - 1) as real / 2.0;
      BlockRank(values, order, cursor, end);
      for k := cursor to end
        invariant |result| == |values|
        invariant forall m :: 0 <= m < k ==> result[order[m]] == Midrank(values, values[order[m]])
      {
        result := result[order[k] := rank];
      }
      cursor := end;
    }
    Counting.NoneMissing(order, |values|);
    forall i | 0 <= i < |values| ensures result[i] == Midrank(values, values[i]) {
      assert i in order;
    }
  }

  // ---------------------------------------------------------------- what midranks are for

  lemma {:induction false} BelowCoversEqual(values: seq<real>, x: real, y: real)
    requires x < y
    ensures Below(values, x) + Equal(values, x) <= Below(values, y)
  {
    if values != [] { BelowCoversEqual(values[..|values| - 1], x, y); }
  }

  lemma {:induction false} PresentCounts(values: seq<real>, x: real)
    requires x in values
    ensures Equal(values, x) >= 1
  {
    if values[|values| - 1] != x {
      assert values == values[..|values| - 1] + [values[|values| - 1]];
      PresentCounts(values[..|values| - 1], x);
    }
  }

  /** Ranks order the values of a list exactly as the values are ordered. */
  lemma MidranksKeepOrder(values: seq<real>, x: real, y: real)
    requires x in values && y in values
    ensures x < y <==> Midrank(values, x) < Midrank(values, y)
    ensures x == y <==> Midrank(values, x) == Midrank(values, y)
  {
    PresentCounts(values, x);
    PresentCounts(values, y);
    if x < y { BelowCoversEqual(values, x, y); }
    if y < x { BelowCoversEqual(values, y, x); }
  }

  function RankSum(values: seq<real>, of: seq<real>): real {
    if of == [] then 0.0 else RankSum(values, of[..|of| - 1]) + Midrank(values, of[|of| - 1])
  }

  lemma {:induction false} OneMoreValue(values: seq<real>, y: real, of: seq<real>)
    ensures RankSum(values + [y], of) == RankSum(values, of) + Above(of, y) as real + Equal(of, y) as real / 2.0
  {
    if of != [] {
      OneMoreValue(values, y, of[..|of| - 1]);
      assert (values + [y])[..|values|] == values;
    }
  }

  lemma {:induction false} CountsAddUp(values: seq<real>, x: real)
    ensures Below(values, x) + Equal(values, x) + Above(values, x) == |values|
  {
    if values != [] { CountsAddUp(values[..|values| - 1], x); }
  }

  /** Ties do not change the sum of all ranks. */
  lemma {:induction false} RanksSum(values: seq<real>)
    ensures RankSum(values, values) == (|values| * (|values| - 1)) as real / 2.0
  {
    if values != [] {
      var n := |values|;
      var fewer, y := values[..n - 1], values[n - 1];
      assert values == fewer + [y];
      RanksSum(fewer);
      OneMoreValue(fewer, y, fewer);
      CountsAddUp(fewer, y);
      assert Midrank(values, y) == Below(fewer, y) as real + Equal(fewer, y) as real / 2.0;
      assert n * (n - 1) == (n - 1) * (n - 2) + 2 * (n - 1);
    }
  }
}
