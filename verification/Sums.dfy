/** Sums over a sequence of what a function gives for its items. */
module Sums {
  function Sum<T>(items: seq<T>, weight: T -> nat): nat {
    if items == [] then 0 else weight(items[0]) + Sum(items[1..], weight)
  }

  lemma {:induction false} SumUpdate<T>(items: seq<T>, weight: T -> nat, i: nat, item: T)
    requires i < |items|
    ensures Sum(items[i := item], weight) == Sum(items, weight) - weight(items[i]) + weight(item)
  {
    if i > 0 {
      SumUpdate(items[1..], weight, i - 1, item);
      assert items[i := item][1..] == items[1..][i - 1 := item];
    } else {
      assert items[i := item][1..] == items[1..];
    }
  }

  lemma {:induction false} SumOfNothing<T>(items: seq<T>, weight: T -> nat)
    requires forall i | 0 <= i < |items| :: weight(items[i]) == 0
    ensures Sum(items, weight) == 0
  {
    if items != [] { SumOfNothing(items[1..], weight); }
  }
}
