/** Order-preserving list operations of java.util that the services use: filtering, removeAll, distinct. */
module Lists {

  /** xs can be obtained from ys by deleting elements: the order of what remains is preserved. */
  predicate IsSubsequence<T(==)>(xs: seq<T>, ys: seq<T>)
    decreases |ys|
  {
    if xs == [] then true
    else if ys == [] then false
    else if xs[0] == ys[0] then IsSubsequence(xs[1..], ys[1..])
    else IsSubsequence(xs, ys[1..])
  }

  /** Putting one more element in front of ys keeps xs a subsequence. */
  lemma {:induction false} SubsequenceOfTail<T>(xs: seq<T>, ys: seq<T>, y: T)
    requires IsSubsequence(xs, ys)
    ensures IsSubsequence(xs, [y] + ys)
    decreases |ys|, 1
  {
    var zs := [y] + ys;
    assert zs[1..] == ys;
    if xs != [] && xs[0] == y {
      SubsequenceDropHead(xs, ys);
    }
  }

  lemma {:induction false} SubsequenceDropHead<T>(xs: seq<T>, ys: seq<T>)
    requires xs != [] && IsSubsequence(xs, ys)
    ensures IsSubsequence(xs[1..], ys)
    decreases |ys|, 0
  {
    assert ys == [ys[0]] + ys[1..];
    if xs[0] == ys[0] {
      SubsequenceOfTail(xs[1..], ys[1..], ys[0]);
    } else {
      SubsequenceDropHead(xs, ys[1..]);
      SubsequenceOfTail(xs[1..], ys[1..], ys[0]);
    }
  }

  /** ArrayList.removeAll(c) on a copy of xs: every element equal to some element of c is dropped. */
  function Without<T(==)>(xs: seq<T>, c: seq<T>): seq<T> {
    if xs == [] then []
    else if xs[0] in c then Without(xs[1..], c)
    else [xs[0]] + Without(xs[1..], c)
  }

  /**
   * What removeAll leaves: exactly the elements of xs that are not in c, each as often as in xs,
   * in their original order.
   */
  lemma {:induction false} WithoutSpec<T>(xs: seq<T>, c: seq<T>)
    ensures IsSubsequence(Without(xs, c), xs)
    ensures forall x :: x in Without(xs, c) <==> x in xs && x !in c
    ensures forall x :: multiset(Without(xs, c))[x] == if x in c then 0 else multiset(xs)[x]
  {
    if xs != [] {
      WithoutSpec(xs[1..], c);
      assert xs == [xs[0]] + xs[1..];
      if xs[0] in c {
        SubsequenceOfTail(Without(xs[1..], c), xs[1..], xs[0]);
      } else {
        var r := [xs[0]] + Without(xs[1..], c);
        assert r[1..] == Without(xs[1..], c);
        assert xs[1..] == xs[1..];
      }
    }
  }

  /** removeAll over one more element: the element stays exactly when it is not in c. */
  lemma {:induction false} WithoutSnoc<T>(xs: seq<T>, x: T, c: seq<T>)
    ensures Without(xs + [x], c) == Without(xs, c) + (if x in c then [] else [x])
  {
    if xs == [] {
      assert xs + [x] == [x];
      assert [x][1..] == [];
    } else {
      assert (xs + [x])[0] == xs[0];
      assert (xs + [x])[1..] == xs[1..] + [x];
      WithoutSnoc(xs[1..], x, c);
    }
  }

  /** No element occurs twice. */
  predicate NoDuplicates<T(==)>(xs: seq<T>) {
    forall i, j :: 0 <= i < j < |xs| ==> xs[i] != xs[j]
  }

  /** Every element of a subsequence occurs in the sequence it was taken from. */
  lemma {:induction false} SubsequenceMembers<T>(xs: seq<T>, ys: seq<T>)
    requires IsSubsequence(xs, ys)
    ensures forall x :: x in xs ==> x in ys
    decreases |ys|
  {
    if xs != [] {
      if xs[0] == ys[0] {
        SubsequenceMembers(xs[1..], ys[1..]);
        assert xs == [xs[0]] + xs[1..];
      } else {
        SubsequenceMembers(xs, ys[1..]);
      }
    }
  }

  /** Deleting elements from a list without duplicates cannot create one. */
  lemma {:induction false} SubsequenceNoDuplicates<T>(xs: seq<T>, ys: seq<T>)
    requires IsSubsequence(xs, ys) && NoDuplicates(ys)
    ensures NoDuplicates(xs)
    decreases |ys|
  {
    if xs != [] {
      assert NoDuplicates(ys[1..]) by {
        assert forall i, j :: 0 <= i < j < |ys| - 1 ==> ys[1..][i] == ys[i + 1] && ys[1..][j] == ys[j + 1];
      }
      if xs[0] == ys[0] {
        SubsequenceNoDuplicates(xs[1..], ys[1..]);
        SubsequenceMembers(xs[1..], ys[1..]);
        assert ys[0] !in ys[1..] by {
          assert forall j :: 0 <= j < |ys| - 1 ==> ys[1..][j] == ys[j + 1];
        }
        assert forall j :: 0 < j < |xs| ==> xs[j] == xs[1..][j - 1] && xs[j] in xs[1..];
      } else {
        SubsequenceNoDuplicates(xs, ys[1..]);
      }
    }
  }

  /** Stream.distinct() on an ordered stream: the first occurrence of each element is kept. */
  function Distinct<T(==)>(xs: seq<T>): seq<T> {
    DistinctAfter(xs, [])
  }

  /** The distinct elements of xs that are not already in seen, in first-occurrence order. */
  function DistinctAfter<T(==)>(xs: seq<T>, seen: seq<T>): seq<T> {
    if xs == [] then []
    else if xs[0] in seen then DistinctAfter(xs[1..], seen)
    else [xs[0]] + DistinctAfter(xs[1..], seen + [xs[0]])
  }

  lemma {:induction false} DistinctAfterSpec<T>(xs: seq<T>, seen: seq<T>)
    ensures NoDuplicates(DistinctAfter(xs, seen))
    ensures forall x :: x in DistinctAfter(xs, seen) <==> x in xs && x !in seen
    ensures IsSubsequence(DistinctAfter(xs, seen), xs)
  {
    if xs != [] {
      assert xs == [xs[0]] + xs[1..];
      if xs[0] in seen {
        DistinctAfterSpec(xs[1..], seen);
        SubsequenceOfTail(DistinctAfter(xs[1..], seen), xs[1..], xs[0]);
      } else {
        var rest := DistinctAfter(xs[1..], seen + [xs[0]]);
        DistinctAfterSpec(xs[1..], seen + [xs[0]]);
        var r := [xs[0]] + rest;
        assert r[1..] == rest;
        assert xs[0] !in rest;
        assert forall j :: 0 < j < |r| ==> r[j] == rest[j - 1];
      }
    }
  }

  /**
   * distinct() keeps exactly one copy of every element: the result has no duplicates, the same
   * elements as xs, and is a subsequence of xs. DistinctSnoc fixes the order.
   */
  lemma DistinctSpec<T>(xs: seq<T>)
    ensures NoDuplicates(Distinct(xs))
    ensures forall x :: x in Distinct(xs) <==> x in xs
    ensures IsSubsequence(Distinct(xs), xs)
    ensures Distinct(xs) == [] <==> xs == []
  {
    DistinctAfterSpec(xs, []);
    if xs != [] {
      assert xs[0] in Distinct(xs);
    }
  }

  /** Appending x to the input appends x to the distinct elements unless x occurred already. */
  lemma {:induction false} DistinctAfterSnoc<T>(xs: seq<T>, x: T, seen: seq<T>)
    ensures DistinctAfter(xs + [x], seen) == DistinctAfter(xs, seen) + (if x in xs || x in seen then [] else [x])
    decreases |xs|
  {
    if xs == [] {
      assert xs + [x] == [x] && [x][1..] == [];
    } else {
      assert (xs + [x])[0] == xs[0] && (xs + [x])[1..] == xs[1..] + [x];
      assert x in xs <==> x == xs[0] || x in xs[1..];
      if xs[0] in seen {
        DistinctAfterSnoc(xs[1..], x, seen);
      } else {
        DistinctAfterSnoc(xs[1..], x, seen + [xs[0]]);
      }
    }
  }

  /**
   * distinct() keeps the order of first occurrence: with Distinct([]) == [], this determines the
   * result of every input, one element at a time.
   */
  lemma DistinctSnoc<T>(xs: seq<T>, x: T)
    ensures Distinct(xs + [x]) == Distinct(xs) + (if x in xs then [] else [x])
  {
    DistinctAfterSnoc(xs, x, []);
  }
}
