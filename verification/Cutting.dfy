/** Cutting a text into pieces from the front, where a rule gives the length of the first piece, and when doing it in two
    parts is the same as doing it at once. */
module Cutting {
  import opened Strings

  datatype Pieces<T> = Pieces(sequences: seq<seq<T>>, remainder: seq<T>)

  type Rule<!T> = seq<T> -> Option<nat>

  predicate Sensible<T(!new)>(rule: Rule<T>, s: seq<T>) {
    rule(s).Some? ==> 0 < rule(s).value <= |s|
  }

  /** None from the rule leaves the rest; so would a senseless length. */
  function Cut<T>(rule: Rule<T>, s: seq<T>): Pieces<T>
    decreases |s|
  {
    if |s| == 0 then Pieces([], [])
    else if rule(s).None? || rule(s).value == 0 || rule(s).value > |s| then Pieces([], s)
    else
      var rest := Cut(rule, s[rule(s).value..]);
      Pieces([s[..rule(s).value]] + rest.sequences, rest.remainder)
  }

  ghost predicate SensibleRule<T(!new)>(rule: Rule<T>) {
    forall s :: |s| > 0 ==> Sensible(rule, s)
  }

  /** More text never changes a piece, except after the text `special`. */
  ghost predicate Extends<T(!new)>(rule: Rule<T>, special: seq<T>, b: seq<T>) {
    && |special| > 0 && rule(special) == Some(|special|)
    && forall s :: KeepsPiece(rule, special, s, b)
  }

  predicate KeepsPiece<T(==, !new)>(rule: Rule<T>, special: seq<T>, s: seq<T>, b: seq<T>) {
    |s| > 0 && rule(s).Some? && s != special ==> rule(s + b) == rule(s)
  }

  predicate EndsIn<T(==)>(first: Pieces<T>, special: seq<T>) {
    first.remainder == [] && |first.sequences| > 0 && first.sequences[|first.sequences| - 1] == special
  }

  lemma {:induction false} CutConserves<T>(rule: Rule<T>, s: seq<T>)
    ensures Joined(Cut(rule, s).sequences) + Cut(rule, s).remainder == s
    decreases |s|
  {
    hide Joined;
    if |s| > 0 && rule(s).Some? && 0 < rule(s).value <= |s| {
      var n := rule(s).value;
      var front, back := s[..n], s[n..];
      var rest := Cut(rule, back);
      assert Cut(rule, s) == Pieces([front] + rest.sequences, rest.remainder);
      hide Cut;
      CutConserves(rule, back);
      JoinedMore(front, rest);
      assert s == front + back;
    } else {
      assert Cut(rule, s) == Pieces([], s);
      hide Cut;
      JoinedNone(s);
    }
  }

  lemma JoinedNone<T>(rest: seq<T>)
    ensures Joined([]) + rest == rest
  {
  }

  lemma JoinedMore<T>(first: seq<T>, rest: Pieces<T>)
    ensures Joined([first] + rest.sequences) + rest.remainder == first + (Joined(rest.sequences) + rest.remainder)
  {
    assert ([first] + rest.sequences)[1..] == rest.sequences;
  }

  function Joined<T>(ss: seq<seq<T>>): seq<T> {
    if |ss| == 0 then [] else ss[0] + Joined(ss[1..])
  }

  lemma CutStep<T(!new)>(rule: Rule<T>, a: seq<T>, b: seq<T>)
    requires |a| > 0 && rule(a).Some? && 0 < rule(a).value <= |a| && rule(a + b) == rule(a)
    ensures var n := rule(a).value;
            && Cut(rule, a + b).sequences == [a[..n]] + Cut(rule, a[n..] + b).sequences
            && Cut(rule, a + b).remainder == Cut(rule, a[n..] + b).remainder
  {
    var n := rule(a).value;
    assert (a + b)[n..] == a[n..] + b && (a + b)[..n] == a[..n];
  }

  lemma WholeSpecial<T(!new)>(rule: Rule<T>, special: seq<T>)
    requires |special| > 0 && rule(special) == Some(|special|)
    ensures Cut(rule, special) == Pieces([special], [])
  {
    assert special[..|special|] == special && special[|special|..] == [];
  }

  /** Cutting the rest of the first part and then the second part. */
  function Twice<T>(rule: Rule<T>, first: Pieces<T>, b: seq<T>): Pieces<T> {
    var second := Cut(rule, first.remainder + b);
    Pieces(first.sequences + second.sequences, second.remainder)
  }

  lemma TwiceStep<T>(rule: Rule<T>, piece: seq<T>, rest: Pieces<T>, b: seq<T>)
    ensures Twice(rule, Pieces([piece] + rest.sequences, rest.remainder), b) ==
            Pieces([piece] + Twice(rule, rest, b).sequences, Twice(rule, rest, b).remainder)
  {
    var second := Cut(rule, rest.remainder + b);
    assert [piece] + (rest.sequences + second.sequences) == [piece] + rest.sequences + second.sequences;
  }

  lemma TwiceNothing<T>(rule: Rule<T>, a: seq<T>, b: seq<T>)
    ensures Twice(rule, Pieces([], a), b) == Cut(rule, a + b)
  {
    assert [] + Cut(rule, a + b).sequences == Cut(rule, a + b).sequences;
  }

  lemma {:induction false} CutTwice<T(!new)>(rule: Rule<T>, special: seq<T>, a: seq<T>, b: seq<T>)
    requires SensibleRule(rule) && Extends(rule, special, b)
    requires EndsIn(Cut(rule, a), special) ==> rule(special + b) == rule(special)
    ensures Cut(rule, a + b) == Twice(rule, Cut(rule, a), b)
    decreases |a|
  {
    if |a| == 0 || rule(a).None? {
      assert Cut(rule, a) == Pieces([], a);
      TwiceNothing(rule, a, b);
    } else {
      assert Sensible(rule, a);
      var n := rule(a).value;
      if a == special { WholeSpecial(rule, special); }
      assert KeepsPiece(rule, special, a, b);
      CutTwice(rule, special, a[n..], b);
      CutStep(rule, a, b);
      TwiceStep(rule, a[..n], Cut(rule, a[n..]), b);
    }
  }

  /** Where the pair was cut as a whole, the text as a whole has another piece. */
  lemma {:induction false} CutDiffers<T(!new)>(rule: Rule<T>, special: seq<T>, a: seq<T>, b: seq<T>, piece: seq<T>)
    requires SensibleRule(rule) && Extends(rule, special, b)
    requires EndsIn(Cut(rule, a), special)
    requires |Cut(rule, special + b).sequences| > 0 && Cut(rule, special + b).sequences[0] == piece
    ensures var first := Cut(rule, a).sequences; var all := Cut(rule, a + b).sequences; var n := |first| - 1;
            |all| > n && all[..n] == first[..n] && all[n] == piece
    decreases |a|
  {
    assert Sensible(rule, a);
    var n := rule(a).value;
    var rest := Cut(rule, a[n..]);
    if |rest.sequences| == 0 {
      assert rest.remainder == [];
      CutConserves(rule, a[n..]);
      assert a == a[..n] == special;
    } else {
      if a == special { WholeSpecial(rule, special); }
      assert KeepsPiece(rule, special, a, b);
      CutDiffers(rule, special, a[n..], b, piece);
      CutStep(rule, a, b);
      var first, all := Cut(rule, a).sequences, Cut(rule, a + b).sequences;
      var more := Cut(rule, a[n..] + b).sequences;
      assert first == [a[..n]] + rest.sequences && all == [a[..n]] + more;
      assert all[..|first| - 1] == [a[..n]] + more[..|rest.sequences| - 1];
    }
  }
}
