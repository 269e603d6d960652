/** `Array.prototype.sort` with a comparison function: the stable sort, and when its result is independent of the input order. */
module StableSort {

  ghost predicate Ordering<T(!new)>(cmp: (T, T) -> int) {
    && (forall a, b :: cmp(a, b) == -cmp(b, a))
    && (forall a, b, c :: cmp(a, b) <= 0 && cmp(b, c) <= 0 ==> cmp(a, c) <= 0)
  }

  predicate Sorted<T>(s: seq<T>, cmp: (T, T) -> int) {
    forall i, j :: 0 <= i < j < |s| ==> cmp(s[i], s[j]) <= 0
  }

  /** Before the first element that is not smaller. */
  function Insert<T>(x: T, s: seq<T>, cmp: (T, T) -> int): seq<T> {
    if |s| == 0 || cmp(x, s[0]) <= 0 then [x] + s else [s[0]] + Insert(x, s[1..], cmp)
  }

  function Sort<T>(s: seq<T>, cmp: (T, T) -> int): seq<T> {
    if |s| == 0 then [] else Insert(s[0], Sort(s[1..], cmp), cmp)
  }

  lemma {:induction false} InsertElements<T>(x: T, s: seq<T>, cmp: (T, T) -> int)
    ensures multiset(Insert(x, s, cmp)) == multiset{x} + multiset(s)
    ensures forall i :: 0 <= i < |Insert(x, s, cmp)| ==> Insert(x, s, cmp)[i] == x || Insert(x, s, cmp)[i] in s
  {
    if |s| > 0 {
      assert s == [s[0]] + s[1..];
      InsertElements(x, s[1..], cmp);
    }
  }

  lemma Chain<T(!new)>(a: T, b: T, c: T, cmp: (T, T) -> int)
    requires Ordering(cmp) && cmp(b, a) >= 0 && cmp(b, c) <= 0
    ensures cmp(a, c) <= 0
  {
    assert cmp(a, b) == -cmp(b, a);
  }

  lemma {:induction false} InsertSorted<T(!new)>(x: T, s: seq<T>, cmp: (T, T) -> int)
    requires Ordering(cmp) && Sorted(s, cmp)
    ensures Sorted(Insert(x, s, cmp), cmp)
  {
    if |s| > 0 && cmp(x, s[0]) > 0 {
      InsertSorted(x, s[1..], cmp);
      InsertElements(x, s[1..], cmp);
      Flip(x, s[0], cmp);
      hide Ordering;
      var rest := Insert(x, s[1..], cmp);
      assert forall j :: 0 <= j < |rest| ==> cmp(s[0], rest[j]) <= 0;
    } else if |s| > 0 {
      forall j | 0 <= j < |s| ensures cmp(x, s[j]) <= 0 {
        if j > 0 {
          Flip(x, s[0], cmp);
          Flip(s[0], x, cmp);
          Chain(x, s[0], s[j], cmp);
        }
      }
      hide Ordering;
    }
  }

  lemma Flip<T(!new)>(a: T, b: T, cmp: (T, T) -> int)
    requires Ordering(cmp)
    ensures cmp(b, a) == -cmp(a, b)
  {
  }

  lemma {:induction false} SortSorts<T(!new)>(s: seq<T>, cmp: (T, T) -> int)
    requires Ordering(cmp)
    ensures Sorted(Sort(s, cmp), cmp)
    ensures multiset(Sort(s, cmp)) == multiset(s)
    ensures forall x :: x in Sort(s, cmp) <==> x in s
  {
    hide Ordering;
    if |s| > 0 {
      SortSorts(s[1..], cmp);
      InsertSorted(s[0], Sort(s[1..], cmp), cmp);
      InsertElements(s[0], Sort(s[1..], cmp), cmp);
      assert s == [s[0]] + s[1..];
    }
    SameMembers(Sort(s, cmp), s);
  }

  lemma SameMembers<T>(a: seq<T>, b: seq<T>)
    requires multiset(a) == multiset(b)
    ensures forall x :: x in a <==> x in b
  {
    forall x
      ensures x in a <==> x in b
    {
      assert x in multiset(a) <==> x in multiset(b);
    }
  }

  /** Different elements that the comparison cannot tell apart. */
  predicate Tied<T(==)>(a: T, b: T, cmp: (T, T) -> int) {
    a != b && cmp(a, b) == 0
  }

  predicate NoTies<T(==)>(s: seq<T>, cmp: (T, T) -> int) {
    forall a, b :: a in s && b in s ==> !Tied(a, b, cmp)
  }

  lemma HeadIsLeast<T(!new)>(s: seq<T>, x: T, cmp: (T, T) -> int)
    requires Ordering(cmp) && Sorted(s, cmp) && x in s
    ensures cmp(s[0], x) <= 0
  {
    var i :| 0 <= i < |s| && s[i] == x;
  }

  lemma TailsAgree<T>(a: seq<T>, b: seq<T>)
    requires |a| > 0 && |b| > 0 && a[0] == b[0] && multiset(a) == multiset(b)
    ensures multiset(a[1..]) == multiset(b[1..])
    ensures a[1..] == b[1..] ==> a == b
  {
    assert a == [a[0]] + a[1..] && b == [b[0]] + b[1..];
    assert multiset(a[1..]) == multiset(a) - multiset{a[0]};
    assert multiset(b[1..]) == multiset(b) - multiset{b[0]};
  }

  lemma {:induction false} SortedUnique<T(!new)>(a: seq<T>, b: seq<T>, cmp: (T, T) -> int)
    requires Ordering(cmp) && Sorted(a, cmp) && Sorted(b, cmp) && multiset(a) == multiset(b)
    requires NoTies(a, cmp)
    ensures a == b
  {
    hide Ordering;
    assert |a| == |multiset(a)| == |multiset(b)| == |b|;
    if |a| > 0 {
      HeadsAgree(a, b, cmp);
      TailsAgree(a, b);
      SortedUnique(a[1..], b[1..], cmp);
    }
  }

  lemma HeadsAgree<T(!new)>(a: seq<T>, b: seq<T>, cmp: (T, T) -> int)
    requires Ordering(cmp) && Sorted(a, cmp) && Sorted(b, cmp) && multiset(a) == multiset(b)
    requires NoTies(a, cmp) && |a| > 0 && |b| > 0
    ensures a[0] == b[0]
  {
    assert a[0] in multiset(b) && b[0] in multiset(a);
    HeadIsLeast(a, b[0], cmp);
    HeadIsLeast(b, a[0], cmp);
    assert !Tied(a[0], b[0], cmp);
  }

  /** The elements that compare equal to `x`, in their order. */
  function Class<T>(s: seq<T>, x: T, cmp: (T, T) -> int): seq<T> {
    if |s| == 0 then []
    else (if cmp(s[0], x) == 0 then [s[0]] else []) + Class(s[1..], x, cmp)
  }

  lemma {:induction false} InsertClass<T(!new)>(c: T, s: seq<T>, x: T, cmp: (T, T) -> int)
    requires Ordering(cmp)
    ensures Class(Insert(c, s, cmp), x, cmp) == Class([c] + s, x, cmp)
  {
    assert ([c] + s)[1..] == s;
    if |s| > 0 && cmp(c, s[0]) > 0 {
      InsertClass(c, s[1..], x, cmp);
      assert ([c] + s[1..])[1..] == s[1..];
      assert ([s[0]] + Insert(c, s[1..], cmp))[1..] == Insert(c, s[1..], cmp);
      assert forall y :: cmp(c, x) == 0 && cmp(x, y) == 0 ==> cmp(c, y) <= 0;
    }
  }

  /** The sort is stable. */
  lemma {:induction false} SortClass<T(!new)>(s: seq<T>, x: T, cmp: (T, T) -> int)
    requires Ordering(cmp)
    ensures Class(Sort(s, cmp), x, cmp) == Class(s, x, cmp)
  {
    if |s| > 0 {
      SortClass(s[1..], x, cmp);
      InsertClass(s[0], Sort(s[1..], cmp), x, cmp);
      assert ([s[0]] + Sort(s[1..], cmp))[1..] == Sort(s[1..], cmp);
    }
  }

  ghost function SomeOrder<T>(m: multiset<T>): (r: seq<T>)
    ensures multiset(r) == m
    decreases |m|
  {
    if |m| == 0 then []
    else
      var x :| x in m;
      [x] + SomeOrder(m - multiset{x})
  }

  /** Two listings of the same elements, told apart by the sort. */
  lemma TiedOrders<T(!new)>(s: seq<T>, a: T, b: T, cmp: (T, T) -> int) returns (one: seq<T>, two: seq<T>)
    requires Ordering(cmp) && a in s && b in s && Tied(a, b, cmp)
    ensures multiset(one) == multiset(s) == multiset(two)
    ensures Sort(one, cmp) != Sort(two, cmp)
  {
    one, two := TwoOrders(s, a, b);
    FirstOfClass(one[1..], a, cmp);
    FirstOfClass(two[1..], b, cmp);
    assert one == [a] + one[1..] && two == [b] + two[1..];
    SortClass(one, a, cmp);
    SortClass(two, a, cmp);
    ClassOfTied(two, a, b, cmp);
  }

  lemma TwoOrders<T>(s: seq<T>, a: T, b: T) returns (one: seq<T>, two: seq<T>)
    requires a in s && b in s && a != b
    ensures multiset(one) == multiset(s) == multiset(two)
    ensures |one| > 0 && one[0] == a && |two| > 0 && two[0] == b
  {
    var m := multiset(s);
    assert a in m && b in m;
    var rest := m - multiset{a} - multiset{b};
    TakeTwo(m, a, b);
    var others := SomeOrder(rest);
    one, two := [a] + ([b] + others), [b] + ([a] + others);
    PairElements(a, b, others);
    PairSwapped(a, b, others);
  }

  lemma TakeTwo<T>(m: multiset<T>, a: T, b: T)
    requires a in m && b in m && a != b
    ensures m == multiset{a} + multiset{b} + (m - multiset{a} - multiset{b})
  {
  }

  lemma PairSwapped<T>(a: T, b: T, others: seq<T>)
    ensures multiset([b] + ([a] + others)) == multiset([a] + ([b] + others))
  {
    PairElements(a, b, others);
    PairElements(b, a, others);
  }

  lemma PairElements<T>(a: T, b: T, others: seq<T>)
    ensures multiset([a] + ([b] + others)) == multiset{a} + multiset{b} + multiset(others)
  {
    assert multiset([b] + others) == multiset{b} + multiset(others);
  }

  lemma FirstOfClass<T(!new)>(s: seq<T>, x: T, cmp: (T, T) -> int)
    requires Ordering(cmp)
    ensures |Class([x] + s, x, cmp)| > 0 && Class([x] + s, x, cmp)[0] == x
  {
  }

  lemma {:induction false} ClassOfTied<T(!new)>(s: seq<T>, a: T, b: T, cmp: (T, T) -> int)
    requires Ordering(cmp) && cmp(a, b) == 0
    ensures Class(s, a, cmp) == Class(s, b, cmp)
  {
    if |s| > 0 {
      ClassOfTied(s[1..], a, b, cmp);
      assert forall y :: cmp(y, a) <= 0 && cmp(a, b) <= 0 ==> cmp(y, b) <= 0;
      assert forall y :: cmp(y, b) <= 0 && cmp(b, a) <= 0 ==> cmp(y, a) <= 0;
      assert forall y :: cmp(a, y) <= 0 && cmp(b, a) <= 0 ==> cmp(b, y) <= 0;
      assert forall y :: cmp(b, y) <= 0 && cmp(a, b) <= 0 ==> cmp(a, y) <= 0;
    }
  }

  ghost predicate OrderIndependent<T(!new)>(s: seq<T>, cmp: (T, T) -> int) {
    forall other :: multiset(other) == multiset(s) ==> Sort(other, cmp) == Sort(s, cmp)
  }

  /** The sorted sequence is independent of the order of the input exactly when no two different elements tie. */
  lemma SortPermutation<T(!new)>(s: seq<T>, cmp: (T, T) -> int)
    requires Ordering(cmp)
    ensures NoTies(s, cmp) <==> OrderIndependent(s, cmp)
  {
    SortSorts(s, cmp);
    if NoTies(s, cmp) {
      forall other | multiset(other) == multiset(s)
        ensures Sort(other, cmp) == Sort(s, cmp)
      {
        SortSorts(other, cmp);
        SortedUnique(Sort(s, cmp), Sort(other, cmp), cmp);
      }
    } else {
      var a, b :| a in s && b in s && Tied(a, b, cmp);
      var one, two := TiedOrders(s, a, b, cmp);
    }
  }
}
