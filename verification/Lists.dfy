/** Lists without repetition, as the gateway keeps scopes, hosts and environments. */
module Lists {

  /** `[...new Set(items)]`: the first occurrence of each item, in order. */
  function Unique<T(==)>(items: seq<T>): (r: seq<T>)
    ensures |r| <= |items|
  {
    if items == [] then []
    else
      var front, last := Unique(items[..|items| - 1]), items[|items| - 1];
      if last in front then front else front + [last]
  }

  ghost predicate NoRepeats<T>(items: seq<T>) {
    forall i, j :: 0 <= i < j < |items| ==> items[i] != items[j]
  }

  predicate Within<T(==)>(items: seq<T>, others: seq<T>) {
    forall x <- items :: x in others
  }

  ghost predicate Apart<T>(items: seq<T>, others: seq<T>) {
    forall x <- items :: x !in others
  }

  lemma {:induction false} UniqueLaws<T>(items: seq<T>)
    ensures NoRepeats(Unique(items))
    ensures forall x :: x in Unique(items) <==> x in items
  {
    if items != [] {
      var n := |items| - 1;
      UniqueLaws(items[..n]);
      assert items == items[..n] + [items[n]];
    }
  }

  lemma {:induction false} UniqueFixed<T>(items: seq<T>)
    requires NoRepeats(items)
    ensures Unique(items) == items
  {
    if items != [] {
      var n := |items| - 1;
      UniqueFixed(items[..n]);
      assert items == items[..n] + [items[n]];
    }
  }

  /** `items.filter((x) => !others.includes(x))` */
  function Without<T(==)>(items: seq<T>, others: seq<T>): (r: seq<T>)
    ensures |r| <= |items|
  {
    if items == [] then []
    else
      var front, last := Without(items[..|items| - 1], others), items[|items| - 1];
      if last in others then front else front + [last]
  }

  lemma {:induction false} WithoutLaws<T>(items: seq<T>, others: seq<T>)
    ensures forall x :: x in Without(items, others) <==> x in items && x !in others
    ensures NoRepeats(items) ==> NoRepeats(Without(items, others))
  {
    if items != [] {
      var n := |items| - 1;
      WithoutLaws(items[..n], others);
      assert items == items[..n] + [items[n]];
    }
  }

  lemma {:induction false} SubsetCount<T>(a: set<T>, b: set<T>)
    requires a <= b
    ensures |a| <= |b|
  {
    if x :| x in a {
      SubsetCount(a - {x}, b - {x});
    }
  }
}
