/** Source-ordered levels over an arbitrary clash relation between calls: "one level after the latest earlier clash". */
module Levelling {
  import opened Sequences

  type Relation = (nat, nat) -> bool

  /** One more than the highest level among the first `k` calls that clash with call `j`; 0 if there is none. */
  function LevelAbove(clash: Relation, j: nat, k: nat): nat
    requires k <= j
    decreases j, k
  {
    if k == 0 then 0
    else
      var rest := LevelAbove(clash, j, k - 1);
      if clash(k - 1, j) && LevelOf(clash, k - 1) + 1 > rest then LevelOf(clash, k - 1) + 1 else rest
  }

  function LevelOf(clash: Relation, j: nat): nat
    decreases j, j + 1
  {
    LevelAbove(clash, j, j)
  }

  lemma {:induction false} LevelAboveBounds(clash: Relation, j: nat, k: nat)
    requires k <= j
    ensures forall i :: 0 <= i < k && clash(i, j) ==> LevelOf(clash, i) < LevelAbove(clash, j, k)
    ensures LevelAbove(clash, j, k) > 0 ==>
              exists i :: 0 <= i < k && clash(i, j) && LevelOf(clash, i) + 1 == LevelAbove(clash, j, k)
  {
    if k > 0 {
      LevelAboveBounds(clash, j, k - 1);
    }
  }

  /** A call sits one level above some call it clashes with, and above all of them. */
  lemma LevelUnique(clash: Relation, j: nat, level: nat)
    ensures level == LevelOf(clash, j) <==>
            && (forall i :: 0 <= i < j && clash(i, j) ==> LevelOf(clash, i) < level)
            && (level > 0 ==> exists i :: 0 <= i < j && clash(i, j) && LevelOf(clash, i) + 1 == level)
  {
    LevelAboveBounds(clash, j, j);
  }

  // ---------------------------------------------------------------- longest chains

  /** Calls in source order, each clashing with the next. */
  ghost predicate IsChain(clash: Relation, chain: seq<nat>) {
    && |chain| > 0
    && forall m :: 0 < m < |chain| ==> chain[m - 1] < chain[m] && clash(chain[m - 1], chain[m])
  }

  lemma {:induction false} ChainBound(clash: Relation, chain: seq<nat>)
    requires IsChain(clash, chain)
    ensures |chain| <= LevelOf(clash, chain[|chain| - 1]) + 1
  {
    var m := |chain| - 1;
    if m > 0 {
      ChainBound(clash, chain[..m]);
      LevelUnique(clash, chain[m], LevelOf(clash, chain[m]));
    }
  }

  lemma {:induction false} LongestChain(clash: Relation, j: nat) returns (chain: seq<nat>)
    ensures IsChain(clash, chain) && chain[|chain| - 1] == j && |chain| == LevelOf(clash, j) + 1
    decreases j
  {
    chain := [j];
    LevelUnique(clash, j, LevelOf(clash, j));
    if LevelOf(clash, j) > 0 {
      var i :| 0 <= i < j && clash(i, j) && LevelOf(clash, i) + 1 == LevelOf(clash, j);
      var before := LongestChain(clash, i);
      chain := before + [j];
    }
  }

  /** The level of a call is the length of the longest chain of clashes that ends at it. */
  lemma LevelIsLongestChain(clash: Relation, j: nat, length: nat)
    ensures length == LevelOf(clash, j) + 1 <==>
            && (exists chain :: IsChain(clash, chain) && chain[|chain| - 1] == j && |chain| == length)
            && (forall chain :: IsChain(clash, chain) && chain[|chain| - 1] == j ==> |chain| <= length)
  {
    var longest := LongestChain(clash, j);
    forall chain | IsChain(clash, chain) && chain[|chain| - 1] == j
      ensures |chain| <= |longest|
    {
      ChainBound(clash, chain);
    }
  }

  // ---------------------------------------------------------------- optimality

  /** An assignment of the first |f| calls to levels that separates clashing calls in source order. */
  ghost predicate Separates(clash: Relation, f: seq<nat>) {
    forall i, j :: 0 <= i < j < |f| && clash(i, j) ==> f[i] < f[j]
  }

  lemma {:induction false} LevelLeast(clash: Relation, f: seq<nat>, j: nat)
    requires Separates(clash, f) && j < |f|
    ensures LevelOf(clash, j) <= f[j]
    decreases j
  {
    LevelUnique(clash, j, LevelOf(clash, j));
    if LevelOf(clash, j) > 0 {
      var i :| 0 <= i < j && clash(i, j) && LevelOf(clash, i) + 1 == LevelOf(clash, j);
      LevelLeast(clash, f, i);
    }
  }

  // ---------------------------------------------------------------- the list of levels

  /** The calls among the first `k` that sit on `level`, in source order. */
  function OnLevel(clash: Relation, k: nat, level: nat): seq<nat> {
    if k == 0 then []
    else OnLevel(clash, k - 1, level) + (if LevelOf(clash, k - 1) == level then [k - 1] else [])
  }

  function LevelCount(clash: Relation, k: nat): nat {
    if k == 0 then 0
    else
      var rest := LevelCount(clash, k - 1);
      if LevelOf(clash, k - 1) + 1 > rest then LevelOf(clash, k - 1) + 1 else rest
  }

  function Levels(clash: Relation, k: nat): seq<seq<nat>> {
    seq(LevelCount(clash, k), level requires 0 <= level => OnLevel(clash, k, level))
  }

  lemma {:induction false} OnLevelMembers(clash: Relation, k: nat, level: nat)
    ensures forall i :: i in OnLevel(clash, k, level) <==> 0 <= i < k && LevelOf(clash, i) == level
    ensures forall m :: 0 <= m < |OnLevel(clash, k, level)| ==>
              OnLevel(clash, k, level)[m] < k && LevelOf(clash, OnLevel(clash, k, level)[m]) == level
    ensures Ascending(OnLevel(clash, k, level))
  {
    if k > 0 {
      OnLevelMembers(clash, k - 1, level);
    }
  }

  lemma {:induction false} LevelCountBounds(clash: Relation, k: nat)
    ensures forall i :: 0 <= i < k ==> LevelOf(clash, i) < LevelCount(clash, k)
    ensures LevelCount(clash, k) > 0 ==> exists i :: 0 <= i < k && LevelOf(clash, i) + 1 == LevelCount(clash, k)
  {
    if k > 0 {
      LevelCountBounds(clash, k - 1);
    }
  }

  /** Below an occupied level every level is occupied. */
  lemma {:induction false} LevelInhabited(clash: Relation, j: nat, level: nat)
    requires level <= LevelOf(clash, j)
    ensures exists i :: 0 <= i <= j && LevelOf(clash, i) == level
    decreases j
  {
    LevelUnique(clash, j, LevelOf(clash, j));
    if level < LevelOf(clash, j) {
      var i :| 0 <= i < j && clash(i, j) && LevelOf(clash, i) + 1 == LevelOf(clash, j);
      LevelInhabited(clash, i, level);
    }
  }

  lemma LevelsInhabited(clash: Relation, k: nat, level: nat)
    requires level < LevelCount(clash, k)
    ensures |OnLevel(clash, k, level)| > 0
  {
    LevelCountBounds(clash, k);
    var j :| 0 <= j < k && LevelOf(clash, j) + 1 == LevelCount(clash, k);
    LevelInhabited(clash, j, level);
    OnLevelMembers(clash, k, level);
    var i :| 0 <= i <= j && LevelOf(clash, i) == level;
    assert i in OnLevel(clash, k, level);
  }

  /** Adding call `k`: its level is at most one past the existing ones. */
  lemma LevelCountStep(clash: Relation, k: nat)
    ensures LevelOf(clash, k) <= LevelCount(clash, k)
    ensures LevelCount(clash, k + 1) == LevelCount(clash, k) + if LevelOf(clash, k) == LevelCount(clash, k) then 1 else 0
    ensures OnLevel(clash, k, LevelCount(clash, k)) == []
  {
    LevelCountBounds(clash, k);
    LevelUnique(clash, k, LevelOf(clash, k));
    Unoccupied(clash, k, LevelCount(clash, k));
  }

  lemma {:induction false} Unoccupied(clash: Relation, k: nat, level: nat)
    requires forall i :: 0 <= i < k ==> LevelOf(clash, i) < level
    ensures OnLevel(clash, k, level) == []
  {
    if k > 0 {
      Unoccupied(clash, k - 1, level);
    }
  }

  /** No schedule that separates clashing calls gets by with fewer levels. */
  lemma FewestLevels(clash: Relation, f: seq<nat>, count: nat)
    requires Separates(clash, f)
    requires forall i :: 0 <= i < |f| ==> f[i] < count
    ensures |Levels(clash, |f|)| <= count
  {
    LevelCountBounds(clash, |f|);
    if LevelCount(clash, |f|) > 0 {
      var i :| 0 <= i < |f| && LevelOf(clash, i) + 1 == LevelCount(clash, |f|);
      LevelLeast(clash, f, i);
    }
  }

  /** Calls on one level do not clash; a clashing later call is on a later level. */
  lemma LevelsSeparate(clash: Relation, i: nat, j: nat)
    requires i < j && clash(i, j)
    ensures LevelOf(clash, i) < LevelOf(clash, j)
  {
    LevelUnique(clash, j, LevelOf(clash, j));
  }

  // ---------------------------------------------------------------- every call is on exactly one level

  /** The first `count` levels hold the calls below that level. */
  lemma {:induction false} LevelsContent(clash: Relation, k: nat, count: nat, i: nat)
    requires count <= LevelCount(clash, k)
    ensures Count(Flatten(Levels(clash, k)[..count]), i) == if i < k && LevelOf(clash, i) < count then 1 else 0
  {
    if count > 0 {
      LevelsContent(clash, k, count - 1, i);
      var levels := Levels(clash, k);
      assert levels[..count] == levels[..count - 1] + [levels[count - 1]];
      FlattenSnoc(levels[..count - 1], levels[count - 1]);
      CountAppend(Flatten(levels[..count - 1]), levels[count - 1], i);
      OnLevelOnce(clash, k, count - 1, i);
    }
  }

  lemma OnLevelOnce(clash: Relation, k: nat, level: nat, i: nat)
    ensures Count(OnLevel(clash, k, level), i) == if i < k && LevelOf(clash, i) == level then 1 else 0
  {
    OnLevelMembers(clash, k, level);
    AscendingOnce(OnLevel(clash, k, level), i);
  }

  lemma {:induction false} AscendingOnce(s: seq<nat>, i: nat)
    requires Ascending(s)
    ensures Count(s, i) == if i in s then 1 else 0
  {
    if |s| > 0 {
      var n := |s| - 1;
      AscendingOnce(s[..n], i);
      assert s == s[..n] + [s[n]];
      CountAppend(s[..n], [s[n]], i);
      assert s[n] !in s[..n];
    }
  }

  lemma LevelsPartition(clash: Relation, k: nat)
    ensures EachOnce(Flatten(Levels(clash, k)), k)
  {
    var levels := Levels(clash, k);
    assert levels[..|levels|] == levels;
    forall i: nat ensures Count(Flatten(levels), i) == if i < k then 1 else 0 {
      LevelsContent(clash, k, |levels|, i);
      LevelCountBounds(clash, k);
    }
  }
}
