/** Cardinalities of finite sets, for termination arguments. */
module Sets {

  lemma {:induction false} NotLarger<T>(big: set<T>, small: set<T>)
    requires small <= big
    ensures |small| <= |big|
    decreases |small|
  {
    if small != {} {
      var x :| x in small;
      NotLarger(big - {x}, small - {x});
    }
  }

  lemma Smaller<T>(big: set<T>, small: set<T>)
    requires small < big
    ensures |small| < |big|
  {
    var x :| x in big && x !in small;
    NotLarger(big - {x}, small);
  }

  /** Distinct members of a set are no more than the set has. */
  lemma {:induction false} DistinctFit<T>(items: seq<T>, all: set<T>)
    requires forall i, j | 0 <= i < j < |items| :: items[i] != items[j]
    requires forall x | x in items :: x in all
    ensures |items| <= |all|
    decreases items
  {
    if items != [] {
      var last, init := items[|items| - 1], items[..|items| - 1];
      forall x | x in init ensures x in all - {last} {
        var i :| 0 <= i < |init| && init[i] == x;
        assert items[i] == x && items[i] != items[|items| - 1];
      }
      DistinctFit(init, all - {last});
    }
  }
}
