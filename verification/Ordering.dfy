/** Stable sorting by a comparison, and the order of strings. */
module Ordering {

  /** "Not after" is transitive and total: what a comparison must be to sort by. */
  ghost predicate WeakOrder<T(!new)>(less: (T, T) -> bool) {
    && (forall a, b :: less(a, b) ==> !less(b, a))
    && (forall a, b, c :: !less(b, a) && !less(c, b) ==> !less(c, a))
  }

  predicate Sorted<T>(less: (T, T) -> bool, xs: seq<T>) {
    forall i, j :: 0 <= i < j < |xs| ==> !less(xs[j], xs[i])
  }

  /** Insert behind everything that is not greater. */
  function Insert<T>(less: (T, T) -> bool, xs: seq<T>, x: T): seq<T> {
    if xs == [] || !less(x, xs[|xs| - 1]) then xs + [x]
    else Insert(less, xs[..|xs| - 1], x) + [xs[|xs| - 1]]
  }

  function Sort<T>(less: (T, T) -> bool, xs: seq<T>): seq<T> {
    if xs == [] then [] else Insert(less, Sort(less, xs[..|xs| - 1]), xs[|xs| - 1])
  }

  lemma {:induction false} InsertElements<T>(less: (T, T) -> bool, xs: seq<T>, x: T)
    ensures multiset(Insert(less, xs, x)) == multiset(xs) + multiset{x}
    ensures |Insert(less, xs, x)| == |xs| + 1
  {
    if xs != [] && less(x, xs[|xs| - 1]) {
      InsertElements(less, xs[..|xs| - 1], x);
      assert xs == xs[..|xs| - 1] + [xs[|xs| - 1]];
    }
  }

  lemma {:induction false} InsertSorted<T(!new)>(less: (T, T) -> bool, xs: seq<T>, x: T)
    requires WeakOrder(less) && Sorted(less, xs)
    ensures Sorted(less, Insert(less, xs, x))
  {
    if xs != [] {
      var init, last := xs[..|xs| - 1], xs[|xs| - 1];
      if less(x, last) {
        InsertSorted(less, init, x);
        InsertElements(less, init, x);
        var ys := Insert(less, init, x);
        forall i | 0 <= i < |ys| ensures !less(last, ys[i]) {
          assert ys[i] in multiset(ys);
          if ys[i] != x {
            assert ys[i] in multiset(init);
            var j :| 0 <= j < |init| && init[j] == ys[i];
          }
        }
      } else {
        forall i | 0 <= i < |xs| ensures !less(x, xs[i]) {
          assert i < |xs| - 1 ==> !less(last, xs[i]);
        }
      }
    }
  }

  /** Sorting orders the elements and neither adds nor drops any. */
  lemma {:induction false} SortCorrect<T(!new)>(less: (T, T) -> bool, xs: seq<T>)
    requires WeakOrder(less)
    ensures Sorted(less, Sort(less, xs))
    ensures multiset(Sort(less, xs)) == multiset(xs) && |Sort(less, xs)| == |xs|
  {
    if xs != [] {
      var init, last := xs[..|xs| - 1], xs[|xs| - 1];
      SortCorrect(less, init);
      InsertSorted(less, Sort(less, init), last);
      InsertElements(less, Sort(less, init), last);
      assert xs == init + [last];
    }
  }

  /** Whatever the comparison, sorting keeps the elements. */
  lemma {:induction false} SortElements<T>(less: (T, T) -> bool, xs: seq<T>)
    ensures multiset(Sort(less, xs)) == multiset(xs) && |Sort(less, xs)| == |xs|
  {
    if xs != [] {
      var init, last := xs[..|xs| - 1], xs[|xs| - 1];
      SortElements(less, init);
      InsertElements(less, Sort(less, init), last);
      assert xs == init + [last];
    }
  }

  /** What is sorted stays as it is. */
  lemma {:induction false} SortUnchanged<T>(less: (T, T) -> bool, xs: seq<T>)
    requires Sorted(less, xs)
    ensures Sort(less, xs) == xs
  {
    if xs != [] {
      var init, last := xs[..|xs| - 1], xs[|xs| - 1];
      SortUnchanged(less, init);
      InsertLast(less, xs);
      assert Sort(less, xs) == Insert(less, Sort(less, init), last);
    }
  }

  lemma InsertLast<T>(less: (T, T) -> bool, xs: seq<T>)
    requires Sorted(less, xs) && xs != []
    ensures Insert(less, xs[..|xs| - 1], xs[|xs| - 1]) == xs
    ensures Sorted(less, xs[..|xs| - 1])
  {
  }

  // ---------------------------------------------------------------------------
  // Strings
  // ---------------------------------------------------------------------------

  /** Byte-wise order of ASCII strings. */
  predicate TextLess(a: string, b: string) {
    if b == "" then false
    else if a == "" then true
    else a[0] < b[0] || (a[0] == b[0] && TextLess(a[1..], b[1..]))
  }

  lemma {:induction false} TextLessAsymmetric(a: string, b: string)
    ensures !(TextLess(a, b) && TextLess(b, a))
  {
    if a != "" && b != "" {
      TextLessAsymmetric(a[1..], b[1..]);
    }
  }

  lemma {:induction false} TextLessTotal(a: string, b: string)
    ensures a != b ==> TextLess(a, b) || TextLess(b, a)
  {
    if a != "" && b != "" {
      TextLessTotal(a[1..], b[1..]);
      assert a == [a[0]] + a[1..] && b == [b[0]] + b[1..];
    }
  }

  lemma {:induction false} TextLessTransitive(a: string, b: string, c: string)
    requires !TextLess(b, a) && !TextLess(c, b)
    ensures !TextLess(c, a)
  {
    if a != "" && b != "" && c != "" {
      if a[0] == b[0] && b[0] == c[0] {
        TextLessTransitive(a[1..], b[1..], c[1..]);
      }
    }
  }
}
