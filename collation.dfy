/**
 * SQLite's default BINARY collation on TEXT values, and ORDER BY on one text
 * column. BINARY compares the UTF-8 bytes, which orders strings exactly as
 * comparing their code points one by one does, a proper prefix first.
 */
module Collation {

  /** a sorts before b or equals it. */
  predicate TextLe(a: string, b: string) {
    |a| == 0 || (|b| > 0 && (a[0] < b[0] || (a[0] == b[0] && TextLe(a[1..], b[1..]))))
  }

  lemma {:induction false} TextLeReflexive(a: string)
    ensures TextLe(a, a)
  {
    if |a| > 0 {
      TextLeReflexive(a[1..]);
    }
  }

  lemma {:induction false} TextLeTotal(a: string, b: string)
    ensures TextLe(a, b) || TextLe(b, a)
  {
    if |a| > 0 && |b| > 0 && a[0] == b[0] {
      TextLeTotal(a[1..], b[1..]);
    }
  }

  lemma {:induction false} TextLeTransitive(a: string, b: string, c: string)
    requires TextLe(a, b) && TextLe(b, c)
    ensures TextLe(a, c)
  {
    if |a| > 0 && a[0] == b[0] && b[0] == c[0] {
      TextLeTransitive(a[1..], b[1..], c[1..]);
    }
  }

  lemma {:induction false} TextLeAntisymmetric(a: string, b: string)
    requires TextLe(a, b) && TextLe(b, a)
    ensures a == b
  {
    if |a| > 0 {
      TextLeAntisymmetric(a[1..], b[1..]);
      assert a == [a[0]] + a[1..] && b == [b[0]] + b[1..];
    }
  }

  /** x may come before y in the result of ORDER BY key ASC, or DESC when descending. */
  predicate Precedes<T>(x: T, y: T, key: T -> string, descending: bool) {
    if descending then TextLe(key(y), key(x)) else TextLe(key(x), key(y))
  }

  predicate SortedBy<T>(xs: seq<T>, key: T -> string, descending: bool) {
    forall i, j | 0 <= i < j < |xs| :: Precedes(xs[i], xs[j], key, descending)
  }

  lemma PrecedesTotal<T>(x: T, y: T, key: T -> string, descending: bool)
    ensures Precedes(x, y, key, descending) || Precedes(y, x, key, descending)
  {
    TextLeTotal(key(x), key(y));
  }

  lemma PrecedesTransitive<T>(x: T, y: T, z: T, key: T -> string, descending: bool)
    requires Precedes(x, y, key, descending) && Precedes(y, z, key, descending)
    ensures Precedes(x, z, key, descending)
  {
    if descending {
      TextLeTransitive(key(z), key(y), key(x));
    } else {
      TextLeTransitive(key(x), key(y), key(z));
    }
  }

  /** A sorted sequence stays sorted when an element that precedes all of it goes in front. */
  lemma SortedCons<T>(h: T, t: seq<T>, key: T -> string, descending: bool)
    requires SortedBy(t, key, descending)
    requires forall j | 0 <= j < |t| :: Precedes(h, t[j], key, descending)
    ensures SortedBy([h] + t, key, descending)
  {
  }

  /** What precedes every element of a sequence precedes every element of any reordering of it. */
  lemma PrecedesPermutation<T>(h: T, ys: seq<T>, zs: seq<T>, key: T -> string, descending: bool)
    requires multiset(ys) == multiset(zs)
    requires forall k | 0 <= k < |zs| :: Precedes(h, zs[k], key, descending)
    ensures forall j | 0 <= j < |ys| :: Precedes(h, ys[j], key, descending)
  {
    forall j | 0 <= j < |ys| ensures Precedes(h, ys[j], key, descending) {
      assert ys[j] in multiset(ys);
      var k :| 0 <= k < |zs| && zs[k] == ys[j];
    }
  }

  /** Puts x in front of the first element it may precede, or at the end. */
  function Insert<T>(x: T, xs: seq<T>, key: T -> string, descending: bool): seq<T> {
    if xs == [] then [x]
    else if Precedes(x, xs[0], key, descending) then [x] + xs
    else [xs[0]] + Insert(x, xs[1..], key, descending)
  }

  /** Inserting into a sorted sequence keeps it sorted and adds exactly x. */
  lemma {:induction false} InsertSpec<T>(x: T, xs: seq<T>, key: T -> string, descending: bool)
    requires SortedBy(xs, key, descending)
    ensures SortedBy(Insert(x, xs, key, descending), key, descending)
    ensures multiset(Insert(x, xs, key, descending)) == multiset(xs) + multiset{x}
  {
    if xs == [] {
    } else if Precedes(x, xs[0], key, descending) {
      InsertFront(x, xs, key, descending);
    } else {
      InsertSpec(x, xs[1..], key, descending);
      InsertBehind(x, xs, Insert(x, xs[1..], key, descending), key, descending);
    }
  }

  lemma InsertFront<T>(x: T, xs: seq<T>, key: T -> string, descending: bool)
    requires SortedBy(xs, key, descending) && xs != []
    requires Precedes(x, xs[0], key, descending)
    ensures SortedBy([x] + xs, key, descending)
  {
    forall j | 0 < j < |xs| ensures Precedes(x, xs[j], key, descending) {
      PrecedesTransitive(x, xs[0], xs[j], key, descending);
    }
    SortedCons(x, xs, key, descending);
  }

  lemma InsertBehind<T>(x: T, xs: seq<T>, rest: seq<T>, key: T -> string, descending: bool)
    requires SortedBy(xs, key, descending) && xs != []
    requires !Precedes(x, xs[0], key, descending)
    requires SortedBy(rest, key, descending)
    requires multiset(rest) == multiset(xs[1..]) + multiset{x}
    ensures SortedBy([xs[0]] + rest, key, descending)
    ensures multiset([xs[0]] + rest) == multiset(xs) + multiset{x}
  {
    PrecedesTotal(x, xs[0], key, descending);
    var zs := xs[1..] + [x];
    assert multiset(zs) == multiset(rest);
    assert forall k | 0 <= k < |zs| :: Precedes(xs[0], zs[k], key, descending) by {
      forall k | 0 <= k < |zs| ensures Precedes(xs[0], zs[k], key, descending) {
        if k < |xs| - 1 {
          assert zs[k] == xs[k + 1];
        }
      }
    }
    PrecedesPermutation(xs[0], rest, zs, key, descending);
    SortedCons(xs[0], rest, key, descending);
    assert xs == [xs[0]] + xs[1..];
  }

  /** The rows of `ORDER BY key` (ASC, or DESC when descending); rows with equal keys in some order. */
  function Sort<T>(xs: seq<T>, key: T -> string, descending: bool): seq<T> {
    if xs == [] then []
    else Insert(xs[0], Sort(xs[1..], key, descending), key, descending)
  }

  /** Sorting yields a sorted reordering of its input. */
  lemma {:induction false} SortSpec<T>(xs: seq<T>, key: T -> string, descending: bool)
    ensures SortedBy(Sort(xs, key, descending), key, descending)
    ensures multiset(Sort(xs, key, descending)) == multiset(xs)
  {
    if xs != [] {
      SortSpec(xs[1..], key, descending);
      InsertSpec(xs[0], Sort(xs[1..], key, descending), key, descending);
      assert xs == [xs[0]] + xs[1..];
    }
  }
}
