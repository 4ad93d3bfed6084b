/** ORDER BY over keys that tell rows apart: there is exactly one ordered list. */
module Ordering {

  /** Up to three sort expressions, all ascending; a descending one is negated. */
  datatype Key = Key(first: real, second: int, third: int)

  predicate Less(a: Key, b: Key) {
    || a.first < b.first
    || (a.first == b.first && a.second < b.second)
    || (a.first == b.first && a.second == b.second && a.third < b.third)
  }

  ghost predicate Sorted<T(!new)>(list: seq<T>, key: T -> Key) {
    forall i, j :: 0 <= i < j < |list| ==> Less(key(list[i]), key(list[j]))
  }

  /** What ORDER BY promises: no row stands before one with a smaller key. */
  ghost predicate InOrder<T(!new)>(list: seq<T>, key: T -> Key) {
    forall i, j :: 0 <= i < j < |list| ==> !Less(key(list[j]), key(list[i]))
  }

  ghost predicate KeysDiffer<T(!new)>(list: seq<T>, key: T -> Key) {
    forall i, j :: 0 <= i < j < |list| ==> key(list[i]) != key(list[j])
  }

  lemma InOrderIsSorted<T(!new)>(list: seq<T>, key: T -> Key)
    requires InOrder(list, key) && KeysDiffer(list, key)
    ensures Sorted(list, key)
  {
  }

  ghost predicate SameRows<T(!new)>(a: seq<T>, b: seq<T>) {
    forall x :: x in a <==> x in b
  }

  /** Two executions of the query over the same rows return the same list. */
  lemma {:induction false} SortedUnique<T(!new)>(a: seq<T>, b: seq<T>, key: T -> Key)
    requires Sorted(a, key) && Sorted(b, key) && SameRows(a, b)
    ensures a == b
  {
    BothHaveRows(a, b);
    BothHaveRows(b, a);
    if a != [] {
      SameHead(a, b, key);
      SameTail(a, b, key);
      SameTail(b, a, key);
      SortedUnique(a[1..], b[1..], key);
    }
  }

  lemma BothHaveRows<T(!new)>(a: seq<T>, b: seq<T>)
    requires SameRows(a, b)
    ensures a != [] ==> b != []
  {
    if a != [] {
      assert a[0] in b;
    }
  }

  lemma SameHead<T(!new)>(a: seq<T>, b: seq<T>, key: T -> Key)
    requires Sorted(a, key) && Sorted(b, key) && SameRows(a, b) && a != [] && b != []
    ensures a[0] == b[0]
  {
    assert a[0] in b && b[0] in a;
    var j :| 0 <= j < |b| && b[j] == a[0];
    var i :| 0 <= i < |a| && a[i] == b[0];
    assert i > 0 ==> Less(key(a[0]), key(b[0]));
    assert j > 0 ==> Less(key(b[0]), key(a[0]));
  }

  lemma SameTail<T(!new)>(a: seq<T>, b: seq<T>, key: T -> Key)
    requires Sorted(a, key) && Sorted(b, key) && SameRows(a, b) && a != [] && b != [] && a[0] == b[0]
    ensures Sorted(a[1..], key)
    ensures forall x :: x in a[1..] ==> x in b[1..]
  {
    forall x | x in a[1..]
      ensures x in b[1..]
    {
      var i :| 0 <= i < |a[1..]| && a[1..][i] == x;
      assert a[i + 1] == x && Less(key(a[0]), key(x));
      assert x in a && x in b;
      var j :| 0 <= j < |b| && b[j] == x;
      assert b[1..][j - 1] == x;
    }
  }
}
