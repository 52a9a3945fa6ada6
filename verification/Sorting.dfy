// Lexicographic order and sorting, for the places where the program compares
// or prints collections after std::sort.
module Sorting {

  // The order std::string and std::array use, on the codes of their elements.
  predicate LexLeq(a: seq<int>, b: seq<int>) {
    a == [] || (b != [] && (a[0] < b[0] || (a[0] == b[0] && LexLeq(a[1..], b[1..]))))
  }

  lemma LexTotal(a: seq<int>, b: seq<int>)
    ensures LexLeq(a, b) || LexLeq(b, a)
  {
  }

  lemma {:induction false} LexAntisymmetric(a: seq<int>, b: seq<int>)
    requires LexLeq(a, b) && LexLeq(b, a)
    ensures a == b
  {
    if a != [] {
      LexAntisymmetric(a[1..], b[1..]);
      assert a == [a[0]] + a[1..] && b == [b[0]] + b[1..];
    }
  }

  lemma {:induction false} LexTransitive(a: seq<int>, b: seq<int>, c: seq<int>)
    requires LexLeq(a, b) && LexLeq(b, c)
    ensures LexLeq(a, c)
  {
    if a != [] && a[0] == b[0] && b[0] == c[0] {
      LexTransitive(a[1..], b[1..], c[1..]);
    }
  }

  function Codes(s: string): (r: seq<int>)
    ensures |r| == |s| && forall i :: 0 <= i < |s| ==> r[i] == s[i] as int
  {
    seq(|s|, i requires 0 <= i < |s| => s[i] as int)
  }

  predicate StringLess(a: string, b: string) {
    !LexLeq(Codes(b), Codes(a))
  }

  lemma CodesInjective(a: string, b: string)
    requires Codes(a) == Codes(b)
    ensures a == b
  {
    forall i | 0 <= i < |a|
      ensures a[i] == b[i]
    {
      assert Codes(a)[i] == Codes(b)[i];
    }
  }

  function Insert<T>(key: T -> seq<int>, x: T, xs: seq<T>): seq<T> {
    if xs == [] then [x]
    else if LexLeq(key(x), key(xs[0])) then [x] + xs
    else [xs[0]] + Insert(key, x, xs[1..])
  }

  function Sort<T>(key: T -> seq<int>, xs: seq<T>): seq<T> {
    if xs == [] then [] else Insert(key, xs[0], Sort(key, xs[1..]))
  }

  ghost predicate Sorted<T>(key: T -> seq<int>, xs: seq<T>) {
    forall i, j :: 0 <= i < j < |xs| ==> LexLeq(key(xs[i]), key(xs[j]))
  }

  lemma {:induction false} InsertPermutes<T>(key: T -> seq<int>, x: T, xs: seq<T>)
    ensures multiset(Insert(key, x, xs)) == multiset([x]) + multiset(xs)
  {
    if xs != [] {
      assert xs == [xs[0]] + xs[1..];
      if !LexLeq(key(x), key(xs[0])) {
        InsertPermutes(key, x, xs[1..]);
      }
    }
  }

  lemma {:induction false} SortPermutes<T>(key: T -> seq<int>, xs: seq<T>)
    ensures multiset(Sort(key, xs)) == multiset(xs)
  {
    if xs != [] {
      SortPermutes(key, xs[1..]);
      InsertPermutes(key, xs[0], Sort(key, xs[1..]));
      assert xs == [xs[0]] + xs[1..];
    }
  }

  lemma {:induction false} InsertSorted<T>(key: T -> seq<int>, x: T, xs: seq<T>)
    requires Sorted(key, xs)
    ensures Sorted(key, Insert(key, x, xs))
  {
    if xs == [] {
    } else if LexLeq(key(x), key(xs[0])) {
      forall j | 0 <= j < |xs|
        ensures LexLeq(key(x), key(xs[j]))
      {
        if j > 0 {
          LexTransitive(key(x), key(xs[0]), key(xs[j]));
        }
      }
    } else {
      InsertSorted(key, x, xs[1..]);
      InsertPermutes(key, x, xs[1..]);
      LexTotal(key(x), key(xs[0]));
      var rest := Insert(key, x, xs[1..]);
      forall j | 0 <= j < |rest|
        ensures LexLeq(key(xs[0]), key(rest[j]))
      {
        assert rest[j] in multiset(rest);
        if rest[j] != x {
          assert rest[j] in multiset(xs[1..]);
          var k :| 0 <= k < |xs[1..]| && xs[1..][k] == rest[j];
          assert xs[k + 1] == rest[j];
        }
      }
    }
  }

  lemma {:induction false} SortSorts<T>(key: T -> seq<int>, xs: seq<T>)
    ensures Sorted(key, Sort(key, xs))
  {
    if xs != [] {
      SortSorts(key, xs[1..]);
      InsertSorted(key, xs[0], Sort(key, xs[1..]));
    }
  }

  // Different elements have different keys.
  ghost predicate Distinguishes<T(!new)>(key: T -> seq<int>, xs: seq<T>) {
    forall x, y :: x in xs && y in xs && key(x) == key(y) ==> x == y
  }

  lemma HeadsAgree<T(!new)>(key: T -> seq<int>, xs: seq<T>, ys: seq<T>)
    requires Sorted(key, xs) && Sorted(key, ys) && multiset(xs) == multiset(ys) && Distinguishes(key, xs)
    requires xs != []
    ensures ys != [] && xs[0] == ys[0]
  {
    assert xs[0] in multiset(ys);
    assert ys[0] in multiset(xs);
    LeastFirst(key, xs, ys[0]);
    LeastFirst(key, ys, xs[0]);
    LexAntisymmetric(key(xs[0]), key(ys[0]));
  }

  lemma TailMultiset<T>(xs: seq<T>)
    requires xs != []
    ensures multiset(xs[1..]) == multiset(xs) - multiset([xs[0]])
  {
    assert xs == [xs[0]] + xs[1..];
  }

  lemma TailSorted<T(!new)>(key: T -> seq<int>, xs: seq<T>)
    requires Sorted(key, xs) && xs != []
    ensures Sorted(key, xs[1..])
  {
  }

  // Sorting by a key that tells the elements apart leaves one order only.
  lemma {:induction false} SortedUnique<T(!new)>(key: T -> seq<int>, xs: seq<T>, ys: seq<T>)
    requires Sorted(key, xs) && Sorted(key, ys) && multiset(xs) == multiset(ys) && Distinguishes(key, xs)
    ensures xs == ys
  {
    if xs == [] {
      assert |multiset(ys)| == 0;
    } else {
      HeadsAgree(key, xs, ys);
      TailMultiset(xs);
      TailMultiset(ys);
      TailSorted(key, xs);
      TailSorted(key, ys);
      assert Distinguishes(key, xs[1..]);
      SortedUnique(key, xs[1..], ys[1..]);
      assert xs == [xs[0]] + xs[1..] && ys == [ys[0]] + ys[1..];
    }
  }

  lemma LeastFirst<T>(key: T -> seq<int>, xs: seq<T>, x: T)
    requires Sorted(key, xs) && x in xs
    ensures LexLeq(key(xs[0]), key(x))
  {
    if x == xs[0] {
      LexTotal(key(x), key(x));
    }
  }

  lemma SortCanonical<T(!new)>(key: T -> seq<int>, xs: seq<T>, ys: seq<T>)
    requires Distinguishes(key, xs)
    ensures Sort(key, xs) == Sort(key, ys) <==> multiset(xs) == multiset(ys)
  {
    SortPermutes(key, xs);
    SortPermutes(key, ys);
    SortSorts(key, xs);
    SortSorts(key, ys);
    if multiset(xs) == multiset(ys) {
      assert forall x :: x in Sort(key, xs) ==> x in multiset(xs);
      assert forall x :: x in Sort(key, xs) ==> x in xs;
      SortedUnique(key, Sort(key, xs), Sort(key, ys));
    }
  }
}
