/** Concatenation of a list of lists. */
module Sequences {

  function Flatten<T>(ss: seq<seq<T>>): seq<T> {
    if |ss| == 0 then [] else Flatten(ss[..|ss| - 1]) + ss[|ss| - 1]
  }

  lemma {:induction false} FlattenMember<T>(ss: seq<seq<T>>, x: T)
    ensures x in Flatten(ss) <==> exists m :: 0 <= m < |ss| && x in ss[m]
  {
    if |ss| > 0 {
      var n := |ss| - 1;
      assert x in Flatten(ss) <==> x in Flatten(ss[..n]) || x in ss[n];
      FlattenMember(ss[..n], x);
      assert forall m :: 0 <= m < n ==> ss[..n][m] == ss[m];
    }
  }

  lemma FlattenSnoc<T>(ss: seq<seq<T>>, last: seq<T>)
    ensures Flatten(ss + [last]) == Flatten(ss) + last
  {
    assert (ss + [last])[..|ss|] == ss;
  }

  lemma {:induction false} FlattenAppend<T>(a: seq<seq<T>>, b: seq<seq<T>>)
    ensures Flatten(a + b) == Flatten(a) + Flatten(b)
  {
    if |b| == 0 {
      assert a + b == a;
      assert Flatten(a) + [] == Flatten(a);
    } else {
      var n := |b| - 1;
      FlattenAppend(a, b[..n]);
      assert a + b == a + b[..n] + [b[n]];
      FlattenSnoc(a + b[..n], b[n]);
      assert Flatten(a) + Flatten(b[..n]) + b[n] == Flatten(a) + (Flatten(b[..n]) + b[n]);
    }
  }

  lemma FlattenCons<T>(first: seq<T>, rest: seq<seq<T>>)
    ensures Flatten([first] + rest) == first + Flatten(rest)
  {
    FlattenAppend([first], rest);
    assert [] + [first] == [first];
    FlattenSnoc([], first);
    assert [] + first == first;
  }

  predicate Ascending(s: seq<nat>) {
    forall a, b :: 0 <= a < b < |s| ==> s[a] < s[b]
  }

  function Count(s: seq<nat>, i: nat): nat {
    multiset(s)[i]
  }

  lemma CountAppend(a: seq<nat>, b: seq<nat>, i: nat)
    ensures Count(a + b, i) == Count(a, i) + Count(b, i)
  {
  }

  /** The numbers below `n`, each exactly once. */
  ghost predicate EachOnce(s: seq<nat>, n: nat) {
    forall i: nat :: Count(s, i) == if i < n then 1 else 0
  }

  /** What survives each appended element survives all of them. */
  lemma {:induction false} AppendedOneByOne<T(!new)>(good: seq<T> -> bool, fits: T -> bool, s: seq<T>, more: seq<T>)
    requires good(s) && forall k :: 0 <= k < |more| ==> fits(more[k])
    requires forall t, x :: good(t) && fits(x) ==> good(t + [x])
    ensures good(s + more)
  {
    if |more| == 0 {
      assert s + more == s;
    } else {
      var n := |more| - 1;
      AppendedOneByOne(good, fits, s, more[..n]);
      assert s + more[..n] + [more[n]] == s + more;
    }
  }

  lemma {:induction false} CountInFlatten(ss: seq<seq<nat>>, a: nat, b: nat, x: nat)
    requires a < b < |ss|
    ensures Count(Flatten(ss), x) >= Count(ss[a], x) + Count(ss[b], x)
    ensures Count(Flatten(ss), x) >= Count(ss[a], x)
  {
    var n := |ss| - 1;
    assert Count(Flatten(ss), x) == Count(Flatten(ss[..n]), x) + Count(ss[n], x);
    if b < n {
      CountInFlatten(ss[..n], a, b, x);
    } else {
      CountMember(ss[..n], a, x);
    }
  }

  lemma {:induction false} CountMember(ss: seq<seq<nat>>, a: nat, x: nat)
    requires a < |ss|
    ensures Count(Flatten(ss), x) >= Count(ss[a], x)
  {
    var n := |ss| - 1;
    assert Count(Flatten(ss), x) == Count(Flatten(ss[..n]), x) + Count(ss[n], x);
    if a < n { CountMember(ss[..n], a, x); }
  }

  /** Lists that together hold each number once share none. */
  lemma EachOnceDisjoint(ss: seq<seq<nat>>, n: nat, a: nat, b: nat, x: nat)
    requires EachOnce(Flatten(ss), n) && a < b < |ss| && x in ss[a]
    ensures x !in ss[b]
  {
    CountInFlatten(ss, a, b, x);
    assert Count(Flatten(ss), x) <= 1;
  }
}
