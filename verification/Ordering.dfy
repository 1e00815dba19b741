/**
 Sorting with a comparison function, as slices.SortFunc promises it: the result is a sorted
 permutation, and nothing is said about the order of elements that compare equal.
 */
module Ordering {

  /** Swapping the arguments flips the sign. */
  ghost predicate Flips<T>(cmp: (T, T) -> int, x: T, y: T) {
    cmp(x, y) <= 0 <==> cmp(y, x) >= 0
  }

  ghost predicate Chains<T>(cmp: (T, T) -> int, x: T, y: T, z: T) {
    cmp(x, y) <= 0 && cmp(y, z) <= 0 ==> cmp(x, z) <= 0
  }

  /** What SortFunc asks of its comparison. */
  ghost predicate TotalPreorder<T(!new)>(cmp: (T, T) -> int) {
    && (forall x, y :: Flips(cmp, x, y))
    && (forall x, y, z :: Chains(cmp, x, y, z))
  }

  ghost predicate Sorted<T>(cmp: (T, T) -> int, s: seq<T>) {
    forall i, j :: 0 <= i < j < |s| ==> cmp(s[i], s[j]) <= 0
  }

  ghost predicate Permutation<T>(s: seq<T>, t: seq<T>) {
    multiset(s) == multiset(t)
  }

  /** Elements that compare equal are equal. */
  ghost predicate TiesAgree<T>(cmp: (T, T) -> int, s: seq<T>) {
    forall i, j :: 0 <= i < j < |s| && cmp(s[i], s[j]) == 0 ==> s[i] == s[j]
  }

  function Map<A, B>(f: A -> B, s: seq<A>): (r: seq<B>)
    ensures |r| == |s| && forall i :: 0 <= i < |s| ==> r[i] == f(s[i])
  {
    if s == [] then [] else [f(s[0])] + Map(f, s[1..])
  }

  /** Sorting the images of the input, in some order that the comparison accepts. */
  ghost predicate SortedImage<A, B>(f: A -> B, cmp: (B, B) -> int, input: seq<A>, output: seq<B>) {
    Sorted(cmp, output) && Permutation(output, Map(f, input))
  }

  // ----- the sort -----

  /** The prefix is sorted except that the element at `j` may still be too small for its place. */
  ghost predicate SortedBut<T>(cmp: (T, T) -> int, s: seq<T>, j: nat) {
    && (forall p, q :: 0 <= p < q < |s| && q != j ==> cmp(s[p], s[q]) <= 0)
    && (forall q :: j < q < |s| && j < |s| ==> cmp(s[j], s[q]) <= 0)
  }

  lemma {:induction false} SwapKeeps<T>(s: seq<T>, i: nat, j: nat)
    requires i < |s| && j < |s|
    ensures Permutation(s, s[i := s[j]][j := s[i]])
  {
  }

  /** Moving the element one place to the left keeps the rest of the prefix sorted. */
  lemma {:induction false} StepLeft<T(!new)>(cmp: (T, T) -> int, s: seq<T>, j: nat)
    requires TotalPreorder(cmp)
    requires 1 <= j < |s| && SortedBut(cmp, s, j) && cmp(s[j - 1], s[j]) > 0
    ensures SortedBut(cmp, s[j - 1 := s[j]][j := s[j - 1]], j - 1)
  {
    var t := s[j - 1 := s[j]][j := s[j - 1]];
    forall p, q | 0 <= p < q < |t| && q != j - 1
      ensures cmp(t[p], t[q]) <= 0
    {
      if q == j && p == j - 1 {
        assert Flips(cmp, s[j], s[j - 1]);
      }
    }
    assert Flips(cmp, s[j], s[j - 1]);
  }

  lemma {:induction false} PlaceFound<T(!new)>(cmp: (T, T) -> int, s: seq<T>, j: nat)
    requires TotalPreorder(cmp)
    requires j < |s| && SortedBut(cmp, s, j) && (j == 0 || cmp(s[j - 1], s[j]) <= 0)
    ensures Sorted(cmp, s)
  {
    forall p | 0 <= p < j
      ensures cmp(s[p], s[j]) <= 0
    {
      if p < j - 1 {
        assert Chains(cmp, s[p], s[j - 1], s[j]);
      }
    }
  }

  method SortFunc<T(!new)>(a: array<T>, cmp: (T, T) -> int)
    requires TotalPreorder(cmp)
    modifies a
    ensures Sorted(cmp, a[..]) && Permutation(a[..], old(a[..]))
  {
    var n := 0;
    while n < a.Length
      invariant 0 <= n <= a.Length
      invariant Sorted(cmp, a[..n])
      invariant Permutation(a[..], old(a[..]))
    {
      InsertLast(a, n, cmp);
      n := n + 1;
    }
    assert a[..n] == a[..];
  }

  /** Moves a[n] left to its place in the sorted prefix before it. */
  method InsertLast<T(!new)>(a: array<T>, n: nat, cmp: (T, T) -> int)
    requires TotalPreorder(cmp)
    requires n < a.Length && Sorted(cmp, a[..n])
    modifies a
    ensures Sorted(cmp, a[..n + 1]) && Permutation(a[..], old(a[..]))
  {
    var j := n;
    while j > 0 && cmp(a[j - 1], a[j]) > 0
      invariant 0 <= j <= n
      invariant SortedBut(cmp, a[..n + 1], j)
      invariant Permutation(a[..], old(a[..]))
    {
      ghost var prefix, all := a[..n + 1], a[..];
      StepLeft(cmp, prefix, j);
      SwapKeeps(all, j - 1, j);
      a[j - 1], a[j] := a[j], a[j - 1];
      assert a[..] == all[j - 1 := all[j]][j := all[j - 1]];
      assert a[..n + 1] == prefix[j - 1 := prefix[j]][j := prefix[j - 1]];
      j := j - 1;
    }
    PlaceFound(cmp, a[..n + 1], j);
  }

  // ----- when the order is canonical -----

  /** Two sorted permutations of one another are the same sequence, if ties agree. */
  lemma {:induction false} SortedUnique<T(!new)>(cmp: (T, T) -> int, s: seq<T>, t: seq<T>)
    requires TotalPreorder(cmp)
    requires Sorted(cmp, s) && Sorted(cmp, t) && Permutation(s, t) && TiesAgree(cmp, s)
    ensures s == t
  {
    SameLength(s, t);
    if s != [] {
      FirstAgree(cmp, s, t);
      Tails(s, t);
      SortedUnique(cmp, s[1..], t[1..]);
      assert s == [s[0]] + s[1..] && t == [t[0]] + t[1..];
    }
  }

  lemma {:induction false} SameLength<T>(s: seq<T>, t: seq<T>)
    requires Permutation(s, t)
    ensures |s| == |t|
  {
    assert |multiset(s)| == |multiset(t)|;
  }

  lemma {:induction false} Tails<T>(s: seq<T>, t: seq<T>)
    requires s != [] && t != [] && s[0] == t[0] && Permutation(s, t)
    ensures Permutation(s[1..], t[1..])
  {
    assert s == [s[0]] + s[1..] && t == [t[0]] + t[1..];
    assert multiset(s[1..]) == multiset(s) - multiset{s[0]};
    assert multiset(t[1..]) == multiset(t) - multiset{t[0]};
  }

  lemma {:induction false} FirstAgree<T(!new)>(cmp: (T, T) -> int, s: seq<T>, t: seq<T>)
    requires TotalPreorder(cmp) && s != [] && t != []
    requires Sorted(cmp, s) && Sorted(cmp, t) && Permutation(s, t) && TiesAgree(cmp, s)
    ensures s[0] == t[0]
  {
    assert s[0] in multiset(t) && t[0] in multiset(s);
    var i :| 0 <= i < |t| && t[i] == s[0];
    var j :| 0 <= j < |s| && s[j] == t[0];
    assert Flips(cmp, s[0], t[0]) && Flips(cmp, t[0], s[0]);
  }

  /** Swapping two elements that compare equal leaves a sorted sequence sorted. */
  lemma {:induction false} SwapTie<T(!new)>(cmp: (T, T) -> int, s: seq<T>, i: nat, j: nat)
    requires TotalPreorder(cmp)
    requires Sorted(cmp, s) && i < j < |s| && cmp(s[i], s[j]) == 0
    ensures Sorted(cmp, s[i := s[j]][j := s[i]])
  {
    var t := s[i := s[j]][j := s[i]];
    forall p, q | 0 <= p < q < |t|
      ensures cmp(t[p], t[q]) <= 0
    {
      BetweenTies(cmp, s, i, j, p);
      BetweenTies(cmp, s, i, j, q);
    }
  }

  /** What comes before the later of two ties is at most either; what comes after the earlier is at least either. */
  lemma {:induction false} BetweenTies<T(!new)>(cmp: (T, T) -> int, s: seq<T>, i: nat, j: nat, p: nat)
    requires TotalPreorder(cmp)
    requires Sorted(cmp, s) && i < j < |s| && cmp(s[i], s[j]) == 0 && p < |s|
    ensures p <= j ==> cmp(s[p], s[i]) <= 0 && cmp(s[p], s[j]) <= 0
    ensures i <= p ==> cmp(s[i], s[p]) <= 0 && cmp(s[j], s[p]) <= 0
  {
    assert Flips(cmp, s[i], s[j]) && Flips(cmp, s[j], s[i]) && Flips(cmp, s[i], s[i]) && Flips(cmp, s[j], s[j]);
    assert Chains(cmp, s[p], s[j], s[i]) && Chains(cmp, s[j], s[i], s[p]);
  }

  lemma {:induction false} MapKeepsPermutation<A, B>(f: A -> B, s: seq<A>, t: seq<A>)
    requires Permutation(s, t)
    ensures Permutation(Map(f, s), Map(f, t))
  {
    SameLength(s, t);
    if s != [] {
      assert s[0] in multiset(t);
      var k :| 0 <= k < |t| && t[k] == s[0];
      var front := [t[k]] + (t[..k] + t[k + 1..]);
      ToFront(t, k);
      Tails(s, front);
      assert front[1..] == t[..k] + t[k + 1..];
      MapKeepsPermutation(f, s[1..], front[1..]);
      var image := Map(f, t);
      ToFront(image, k);
      assert Map(f, front[1..]) == image[..k] + image[k + 1..];
    }
  }

  lemma {:induction false} ToFront<T>(t: seq<T>, k: nat)
    requires k < |t|
    ensures Permutation(t, [t[k]] + (t[..k] + t[k + 1..]))
  {
    assert t == t[..k] + [t[k]] + t[k + 1..];
  }

  /**
   The output is the only one possible, whatever order the input came in and however the sort treats
   ties, exactly when the elements that tie are equal.
   */
  lemma {:induction false} CanonicalExactlyWhen<A(!new), B(!new)>(f: A -> B, cmp: (B, B) -> int, input: seq<A>,
                                                  output: seq<B>)
    requires TotalPreorder(cmp) && SortedImage(f, cmp, input, output)
    ensures (forall i2, o2 :: Permutation(input, i2) && SortedImage(f, cmp, i2, o2) ==> o2 == output)
            <==> TiesAgree(cmp, output)
  {
    if TiesAgree(cmp, output) {
      forall i2, o2 | Permutation(input, i2) && SortedImage(f, cmp, i2, o2)
        ensures o2 == output
      {
        MapKeepsPermutation(f, input, i2);
        SortedUnique(cmp, output, o2);
      }
    } else {
      AnotherOrder(f, cmp, input, output);
    }
  }

  lemma {:induction false} AnotherOrder<A, B(!new)>(f: A -> B, cmp: (B, B) -> int, input: seq<A>, output: seq<B>)
    requires TotalPreorder(cmp) && SortedImage(f, cmp, input, output) && !TiesAgree(cmp, output)
    ensures exists other :: SortedImage(f, cmp, input, other) && other != output
  {
    var i, j :| 0 <= i < j < |output| && cmp(output[i], output[j]) == 0 && output[i] != output[j];
    var other := output[i := output[j]][j := output[i]];
    SwapTie(cmp, output, i, j);
    SwapKeeps(output, i, j);
    assert other[i] != output[i];
    assert SortedImage(f, cmp, input, other);
  }

  /** Sorting a slice: the array the slice stands for is sorted in place. */
  method SortSlice<T(!new)>(s: seq<T>, cmp: (T, T) -> int) returns (r: seq<T>)
    requires TotalPreorder(cmp)
    ensures Sorted(cmp, r) && Permutation(r, s)
  {
    var a := new T[|s|](i requires 0 <= i < |s| => s[i]);
    assert a[..] == s;
    SortFunc(a, cmp);
    r := a[..];
  }

  // ----- cmp.Compare on strings, byte by byte -----

  function CompareStrings(a: string, b: string): (r: int)
    ensures -1 <= r <= 1
  {
    if a == [] then if b == [] then 0 else -1
    else if b == [] then 1
    else if a[0] < b[0] then -1
    else if a[0] > b[0] then 1
    else CompareStrings(a[1..], b[1..])
  }

  function CompareInts(a: int, b: int): (r: int)
    ensures -1 <= r <= 1
  {
    if a < b then -1 else if a > b then 1 else 0
  }

  /** Lexicographic order, by the first difference: at position k one string ends or has the smaller character. */
  predicate DiffersAt(a: string, b: string, k: nat) {
    && k <= |a| && k < |b| && a[..k] == b[..k]
    && (k == |a| || a[k] < b[k])
  }

  ghost predicate Before(a: string, b: string) {
    exists k: nat :: DiffersAt(a, b, k)
  }

  lemma {:induction false} BeforeAfterHead(a: string, b: string)
    requires a != [] && b != [] && a[0] == b[0]
    ensures Before(a, b) <==> Before(a[1..], b[1..])
  {
    if k: nat :| DiffersAt(a, b, k) {
      assert k > 0;
      assert a[1..][..k - 1] == a[..k][1..] && b[1..][..k - 1] == b[..k][1..];
      assert DiffersAt(a[1..], b[1..], k - 1);
    }
    if k: nat :| DiffersAt(a[1..], b[1..], k) {
      assert a[..k + 1] == [a[0]] + a[1..][..k] && b[..k + 1] == [b[0]] + b[1..][..k];
      assert DiffersAt(a, b, k + 1);
    }
  }

  /** The comparison's sign is the lexicographic order. */
  lemma {:induction false} StringsAreOrdered(a: string, b: string)
    ensures CompareStrings(a, b) < 0 <==> Before(a, b)
  {
    if a != [] && b != [] && a[0] == b[0] {
      BeforeAfterHead(a, b);
      StringsAreOrdered(a[1..], b[1..]);
    } else if b != [] && (a == [] || a[0] < b[0]) {
      assert DiffersAt(a, b, 0);
    } else if k: nat :| DiffersAt(a, b, k) {
      if k > 0 {
        assert a[..k][0] == b[..k][0];
      }
    }
  }

  lemma {:induction false} StringsFlip(a: string, b: string)
    ensures CompareStrings(a, b) == -CompareStrings(b, a)
    ensures CompareStrings(a, b) == 0 <==> a == b
  {
    if a != [] && b != [] && a[0] == b[0] {
      StringsFlip(a[1..], b[1..]);
      assert a == [a[0]] + a[1..] && b == [b[0]] + b[1..];
    }
  }

  lemma {:induction false} StringsTransitive(a: string, b: string, c: string)
    requires CompareStrings(a, b) <= 0 && CompareStrings(b, c) <= 0
    ensures CompareStrings(a, c) <= 0
    ensures CompareStrings(a, c) == 0 ==> CompareStrings(a, b) == 0
  {
    if a != [] && b != [] && c != [] && a[0] == b[0] == c[0] {
      StringsTransitive(a[1..], b[1..], c[1..]);
    }
  }
}
