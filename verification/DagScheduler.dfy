/** packages/agent/src/tool-dag-scheduler.ts: levels, the width cap, and what they guarantee. */
module DagScheduler {
  import opened Sequences
  import opened Levelling
  import opened Claims

  datatype Entry = Entry(sourceIndex: nat, resolution: Resolution, canonicalClaims: seq<Claim>)

  function CanonicalOf(resolution: Resolution): seq<Claim> {
    if resolution.Claims? then CanonicalClaims(resolution.claims) else []
  }

  function EntriesOf(rs: seq<Resolution>): seq<Entry> {
    seq(|rs|, i requires 0 <= i < |rs| => Entry(i, rs[i], CanonicalOf(rs[i])))
  }

  // ---------------------------------------------------------------- the relation the levels respect

  predicate HoldsExclusive(r: Resolution) {
    r.RunAlone? || exists c :: c in r.claims && c.access.Exclusive?
  }

  /** Two calls that may not share a level. */
  predicate Clash(a: Resolution, b: Resolution) {
    HoldsExclusive(a) || HoldsExclusive(b) || ResolutionsConflict(a, b)
  }

  function ClashAmong(rs: seq<Resolution>): Relation {
    (i: nat, j: nat) => i < |rs| && j < |rs| && Clash(rs[i], rs[j])
  }

  function DagLevels(rs: seq<Resolution>): seq<seq<nat>> {
    Levels(ClashAmong(rs), |rs|)
  }

  /** The level summaries decide the pairwise conflict relation, with one exception: an exclusive claim
      also keeps away a call without any claims. */
  lemma ClashIsConflict(a: Resolution, b: Resolution)
    ensures Clash(a, b) != ResolutionsConflict(a, b) <==>
            || (a.Claims? && HoldsExclusive(a) && b == Claims([]))
            || (b.Claims? && HoldsExclusive(b) && a == Claims([]))
  {
    if a.Claims? && HoldsExclusive(a) && b.Claims? && b.claims != [] {
      var c :| c in a.claims && c.access.Exclusive?;
      assert ClaimsConflict(c, b.claims[0]) && b.claims[0] in b.claims;
    }
    if b.Claims? && HoldsExclusive(b) && a.Claims? && a.claims != [] {
      var c :| c in b.claims && c.access.Exclusive?;
      assert ClaimsConflict(a.claims[0], c) && a.claims[0] in a.claims;
    }
  }

  // ---------------------------------------------------------------- level records

  class DagLevel {
    var indices: seq<nat>
    var writeClaims: seq<Claim>
    var readClaims: seq<Claim>
    var hasExclusive: bool

    constructor ()
      ensures indices == [] && writeClaims == [] && readClaims == [] && !hasExclusive
    {
      indices, writeClaims, readClaims, hasExclusive := [], [], [], false;
    }

    method Place(entry: Entry)
      modifies this
      ensures indices == old(indices) + [entry.sourceIndex]
      ensures var alone := entry.resolution.RunAlone? || exists c :: c in entry.canonicalClaims && c.access.Exclusive?;
              && hasExclusive == (old(hasExclusive) || alone)
              && writeClaims == old(writeClaims) + (if alone then [] else Select(entry.canonicalClaims, true))
              && readClaims == old(readClaims) + (if alone then [] else Select(entry.canonicalClaims, false))
    {
      indices := indices + [entry.sourceIndex];
      if entry.resolution.RunAlone? || exists c :: c in entry.canonicalClaims && c.access.Exclusive? {
        hasExclusive := true;
      } else {
        var claims := entry.canonicalClaims;
        for i := 0 to |claims|
          invariant indices == old(indices) + [entry.sourceIndex] && hasExclusive == old(hasExclusive)
          invariant writeClaims == old(writeClaims) + Select(claims[..i], true)
          invariant readClaims == old(readClaims) + Select(claims[..i], false)
        {
          assert claims[..i + 1][..i] == claims[..i];
          if claims[i].access.Write? {
            writeClaims := writeClaims + [claims[i]];
          } else {
            readClaims := readClaims + [claims[i]];
          }
        }
        assert claims[..|claims|] == claims;
      }
    }

    /** The record summarises the calls `on` it. */
    ghost predicate Summarises(rs: seq<Resolution>, on: seq<nat>)
      requires InRange(rs, on)
      reads this
    {
      && indices == on
      && hasExclusive == AnyExclusive(rs, on)
      && writeClaims == Placed(rs, on, true)
      && readClaims == Placed(rs, on, false)
    }
  }

  predicate ClaimConflictsAny(claim: Claim, candidates: seq<Claim>) {
    exists c :: c in candidates && ClaimsConflict(claim, c)
  }

  predicate ClaimConflictsLevel(claim: Claim, level: DagLevel)
    reads level
  {
    || claim.access.Exclusive?
    || ClaimConflictsAny(claim, level.writeClaims)
    || (claim.access.Write? && ClaimConflictsAny(claim, level.readClaims))
  }

  predicate ResolutionConflictsLevel(resolution: Resolution, level: DagLevel)
    reads level
  {
    || level.hasExclusive
    || resolution.RunAlone?
    || exists c :: c in resolution.claims && ClaimConflictsLevel(c, level)
  }

  // ---------------------------------------------------------------- summaries against pairs

  predicate InRange(rs: seq<Resolution>, indices: seq<nat>) {
    forall m :: 0 <= m < |indices| ==> indices[m] < |rs|
  }

  predicate AnyExclusive(rs: seq<Resolution>, indices: seq<nat>)
    requires InRange(rs, indices)
  {
    exists m :: 0 <= m < |indices| && HoldsExclusive(rs[indices[m]])
  }

  function Select(claims: seq<Claim>, writes: bool): seq<Claim> {
    if |claims| == 0 then []
    else Select(claims[..|claims| - 1], writes)
         + (if claims[|claims| - 1].access.Write? == writes then [claims[|claims| - 1]] else [])
  }

  /** What one call contributes to the write (or read) claims of its level. */
  function Own(r: Resolution, writes: bool): seq<Claim> {
    if HoldsExclusive(r) then [] else Select(CanonicalOf(r), writes)
  }

  function Placed(rs: seq<Resolution>, indices: seq<nat>, writes: bool): seq<Claim>
    requires InRange(rs, indices)
  {
    Flatten(seq(|indices|, m requires 0 <= m < |indices| => Own(rs[indices[m]], writes)))
  }

  lemma {:induction false} SelectMembers(claims: seq<Claim>, writes: bool)
    ensures forall c :: c in Select(claims, writes) <==> c in claims && c.access.Write? == writes
  {
    if |claims| > 0 {
      var n := |claims| - 1;
      SelectMembers(claims[..n], writes);
      assert claims == claims[..n] + [claims[n]];
    }
  }

  lemma OwnMember(r: Resolution, writes: bool, c: Claim)
    ensures c in Own(r, writes) <==> !HoldsExclusive(r) && c in r.claims && c.access.Write? == writes
  {
    if !HoldsExclusive(r) {
      SelectMembers(CanonicalOf(r), writes);
      CanonicalClaimsSame(r.claims);
    }
  }

  lemma PlacedMember(rs: seq<Resolution>, indices: seq<nat>, writes: bool, c: Claim)
    requires InRange(rs, indices)
    ensures c in Placed(rs, indices, writes) <==>
            exists m :: 0 <= m < |indices| && !HoldsExclusive(rs[indices[m]])
                        && c in rs[indices[m]].claims && c.access.Write? == writes
  {
    var lists := seq(|indices|, m requires 0 <= m < |indices| => Own(rs[indices[m]], writes));
    FlattenMember(lists, c);
    forall m | 0 <= m < |indices|
      ensures c in lists[m] <==> !HoldsExclusive(rs[indices[m]])
                                 && c in rs[indices[m]].claims && c.access.Write? == writes
    {
      OwnMember(rs[indices[m]], writes, c);
    }
  }

  /** Scanning the summaries of a level finds exactly the clashes with the calls on it. */
  lemma SummaryExact(level: DagLevel, rs: seq<Resolution>, on: seq<nat>, r: Resolution)
    requires InRange(rs, on) && |on| > 0 && level.Summarises(rs, on)
    ensures ResolutionConflictsLevel(r, level) <==> exists m :: 0 <= m < |on| && Clash(rs[on[m]], r)
  {
    if !AnyExclusive(rs, on) && !HoldsExclusive(r) {
      forall c | c in r.claims
        ensures ClaimConflictsLevel(c, level) <==>
                exists m :: 0 <= m < |on| && ClaimConflictsAny(c, rs[on[m]].claims)
      {
        ClaimAgainstLevel(level, rs, on, c);
      }
      forall m | 0 <= m < |on|
        ensures Clash(rs[on[m]], r) <==> exists c :: c in r.claims && ClaimConflictsAny(c, rs[on[m]].claims)
      {
        ConflictByClaim(rs[on[m]], r);
      }
    } else {
      assert Clash(rs[on[0]], r) || AnyExclusive(rs, on);
    }
  }

  lemma ConflictByClaim(a: Resolution, r: Resolution)
    requires a.Claims? && r.Claims?
    ensures ResolutionsConflict(a, r) <==> exists c :: c in r.claims && ClaimConflictsAny(c, a.claims)
  {
    forall x: Claim, y: Claim
      ensures ClaimsConflict(x, y) <==> ClaimsConflict(y, x)
    {
      ClaimsConflictSymmetric(x, y);
    }
  }

  lemma ClaimAgainstLevel(level: DagLevel, rs: seq<Resolution>, on: seq<nat>, c: Claim)
    requires InRange(rs, on) && level.Summarises(rs, on)
    requires !AnyExclusive(rs, on) && !c.access.Exclusive?
    ensures ClaimConflictsLevel(c, level) <==>
            exists m :: 0 <= m < |on| && ClaimConflictsAny(c, rs[on[m]].claims)
  {
    if m :| 0 <= m < |on| && ClaimConflictsAny(c, rs[on[m]].claims) {
      var x :| x in rs[on[m]].claims && ClaimsConflict(c, x);
      PlacedMember(rs, on, x.access.Write?, x);
    }
    if ClaimConflictsLevel(c, level) {
      var x :| (x in level.writeClaims || x in level.readClaims) && ClaimsConflict(c, x);
      var writes := x in level.writeClaims;
      PlacedMember(rs, on, writes, x);
      var m :| 0 <= m < |on| && x in rs[on[m]].claims;
      assert ClaimConflictsAny(c, rs[on[m]].claims);
    }
  }

  // ---------------------------------------------------------------- the algorithm

  ghost predicate Records(level: DagLevel, rs: seq<Resolution>, k: nat, a: nat)
    requires k <= |rs|
    reads level
  {
    var on := OnLevel(ClashAmong(rs), k, a);
    InRange(rs, on) && level.Summarises(rs, on)
  }

  /** The level records after `k` calls. */
  ghost predicate LevelsFor(levels: seq<DagLevel>, rs: seq<Resolution>, k: nat)
    requires k <= |rs|
    reads levels
  {
    && |levels| == LevelCount(ClashAmong(rs), k)
    && (forall a, b :: 0 <= a < b < |levels| ==> levels[a] != levels[b])
    && (forall a :: 0 <= a < |levels| ==> Records(levels[a], rs, k, a))
  }

  /** Does call `k` clash with an earlier call on level `a`? */
  method ConflictsLevel(level: DagLevel, resolution: Resolution, ghost rs: seq<Resolution>, ghost k: nat, ghost a: nat)
    returns (conflict: bool)
    requires k < |rs| && a < LevelCount(ClashAmong(rs), k) && Records(level, rs, k, a) && resolution == rs[k]
    ensures conflict <==> exists i :: 0 <= i < k && LevelOf(ClashAmong(rs), i) == a && ClashAmong(rs)(i, k)
  {
    conflict := ResolutionConflictsLevel(resolution, level);
    ghost var clash, on := ClashAmong(rs), OnLevel(ClashAmong(rs), k, a);
    LevelsInhabited(clash, k, a);
    SummaryExact(level, rs, on, resolution);
    OnLevelMembers(clash, k, a);
    assert forall m :: 0 <= m < |on| ==> Clash(rs[on[m]], rs[k]) == clash(on[m], k);
    if i :| 0 <= i < k && LevelOf(clash, i) == a && clash(i, k) {
      assert i in on;
    }
  }

  /** The last clashing level decides the target. */
  method TargetLevel(levels: seq<DagLevel>, resolution: Resolution, ghost rs: seq<Resolution>, ghost k: nat)
    returns (targetIndex: nat)
    requires k < |rs| && LevelsFor(levels, rs, k) && resolution == rs[k]
    ensures targetIndex == LevelOf(ClashAmong(rs), k)
  {
    ghost var clash := ClashAmong(rs);
    targetIndex := 0;
    for levelIndex := 0 to |levels|
      invariant targetIndex <= levelIndex
      invariant targetIndex > 0 ==> exists i :: 0 <= i < k && clash(i, k) && LevelOf(clash, i) + 1 == targetIndex
      invariant forall i :: 0 <= i < k && clash(i, k) && LevelOf(clash, i) < levelIndex ==> LevelOf(clash, i) < targetIndex
    {
      var conflict := ConflictsLevel(levels[levelIndex], resolution, rs, k, levelIndex);
      if conflict {
        targetIndex := levelIndex + 1;
      }
    }
    LevelCountBounds(clash, k);
    LevelUnique(clash, k, targetIndex);
  }

  lemma SummaryStep(level: DagLevel, rs: seq<Resolution>, on: seq<nat>, k: nat, exclusive: bool)
    requires k < |rs| && InRange(rs, on)
    requires exclusive == AnyExclusive(rs, on)
    requires level.indices == on + [k]
    requires level.hasExclusive == (exclusive || HoldsExclusive(rs[k]))
    requires level.writeClaims == Placed(rs, on, true) + Own(rs[k], true)
    requires level.readClaims == Placed(rs, on, false) + Own(rs[k], false)
    ensures InRange(rs, on + [k]) && level.Summarises(rs, on + [k])
  {
    var next := on + [k];
    assert forall m :: 0 <= m < |on| ==> next[m] == on[m];
    assert AnyExclusive(rs, next) <==> AnyExclusive(rs, on) || HoldsExclusive(rs[k]) by {
      assert HoldsExclusive(rs[k]) ==> HoldsExclusive(rs[next[|on|]]);
    }
    PlacedStep(rs, on, k, true);
    PlacedStep(rs, on, k, false);
  }

  lemma PlacedStep(rs: seq<Resolution>, on: seq<nat>, k: nat, writes: bool)
    requires k < |rs| && InRange(rs, on) && InRange(rs, on + [k])
    ensures Placed(rs, on + [k], writes) == Placed(rs, on, writes) + Own(rs[k], writes)
  {
    var next := on + [k];
    var lists := seq(|next|, m requires 0 <= m < |next| => Own(rs[next[m]], writes));
    assert lists[..|on|] == seq(|on|, m requires 0 <= m < |on| => Own(rs[on[m]], writes));
  }

  lemma OwnOfCanonical(r: Resolution)
    ensures HoldsExclusive(r) <==> r.RunAlone? || exists c :: c in CanonicalOf(r) && c.access.Exclusive?
  {
    if r.Claims? {
      CanonicalClaimsSame(r.claims);
    }
  }

  lemma OtherLevelKept(level: DagLevel, rs: seq<Resolution>, k: nat, a: nat)
    requires k < |rs| && Records(level, rs, k, a) && LevelOf(ClashAmong(rs), k) != a
    ensures Records(level, rs, k + 1, a)
  {
    assert OnLevel(ClashAmong(rs), k + 1, a) == OnLevel(ClashAmong(rs), k, a);
  }

  method PlaceOn(level: DagLevel, entry: Entry, ghost rs: seq<Resolution>, ghost k: nat)
    requires k < |rs| && Records(level, rs, k, LevelOf(ClashAmong(rs), k))
    requires entry == Entry(k, rs[k], CanonicalOf(rs[k]))
    modifies level
    ensures Records(level, rs, k + 1, LevelOf(ClashAmong(rs), k))
  {
    ghost var on := OnLevel(ClashAmong(rs), k, LevelOf(ClashAmong(rs), k));
    OwnOfCanonical(entry.resolution);
    level.Place(entry);
    SummaryStep(level, rs, on, k, AnyExclusive(rs, on));
  }

  method NewLevel(ghost rs: seq<Resolution>, ghost k: nat) returns (level: DagLevel)
    requires k < |rs|
    ensures fresh(level) && Records(level, rs, k, LevelCount(ClashAmong(rs), k))
  {
    level := new DagLevel();
    LevelCountStep(ClashAmong(rs), k);
  }

  /** The levels, with an empty one added when the target does not exist yet. */
  method WithTarget(levels: seq<DagLevel>, targetIndex: nat, ghost rs: seq<Resolution>, ghost k: nat)
    returns (next: seq<DagLevel>)
    requires k < |rs| && LevelsFor(levels, rs, k) && targetIndex == LevelOf(ClashAmong(rs), k)
    ensures levels <= next && |next| == LevelCount(ClashAmong(rs), k + 1) && targetIndex < |next|
    ensures forall a :: |levels| <= a < |next| ==> fresh(next[a])
    ensures forall a, b :: 0 <= a < b < |next| ==> next[a] != next[b]
    ensures forall a :: 0 <= a < |next| ==> Records(next[a], rs, k, a)
  {
    LevelCountStep(ClashAmong(rs), k);
    hide Records, OnLevel, LevelCount, LevelOf, ClashAmong;
    next := levels;
    if targetIndex == |levels| {
      var target := NewLevel(rs, k);
      next := levels + [target];
    }
  }

  /** Plan one more call. */
  method PlaceEntry(levels: seq<DagLevel>, entry: Entry, ghost rs: seq<Resolution>, ghost k: nat)
    returns (next: seq<DagLevel>)
    requires k < |rs| && LevelsFor(levels, rs, k) && entry == Entry(k, rs[k], CanonicalOf(rs[k]))
    modifies levels
    ensures LevelsFor(next, rs, k + 1)
    ensures levels <= next && forall a :: |levels| <= a < |next| ==> fresh(next[a])
  {
    var targetIndex := TargetLevel(levels, entry.resolution, rs, k);
    next := WithTarget(levels, targetIndex, rs, k);
    PlaceOn(next[targetIndex], entry, rs, k);
    forall a | 0 <= a < |next| && a != targetIndex
      ensures Records(next[a], rs, k + 1, a)
    {
      OtherLevelKept(next[a], rs, k, a);
    }
  }

  method AssignDagLevels(entries: seq<Entry>, ghost rs: seq<Resolution>) returns (result: seq<seq<nat>>)
    requires entries == EntriesOf(rs)
    ensures result == DagLevels(rs)
  {
    var levels := PlaceEntries(entries, rs);
    result := CollectIndices(levels, rs);
  }

  lemma NothingPlaced(rs: seq<Resolution>)
    ensures LevelsFor([], rs, 0)
  {
  }

  method PlaceEntries(entries: seq<Entry>, ghost rs: seq<Resolution>) returns (levels: seq<DagLevel>)
    requires entries == EntriesOf(rs)
    ensures LevelsFor(levels, rs, |rs|)
  {
    hide LevelsFor, CanonicalOf;
    levels := [];
    NothingPlaced(rs);
    for k := 0 to |entries|
      invariant forall a :: 0 <= a < |levels| ==> fresh(levels[a])
      invariant LevelsFor(levels, rs, k)
    {
      assert entries[k] == Entry(k, rs[k], CanonicalOf(rs[k]));
      var next := PlaceEntry(levels, entries[k], rs, k);
      levels := next;
    }
  }

  method CollectIndices(levels: seq<DagLevel>, ghost rs: seq<Resolution>) returns (result: seq<seq<nat>>)
    requires LevelsFor(levels, rs, |rs|)
    ensures result == DagLevels(rs)
  {
    hide LevelOf, LevelCount, OnLevel, Placed, AnyExclusive;
    result := [];
    for a := 0 to |levels|
      invariant result == DagLevels(rs)[..a]
    {
      assert Records(levels[a], rs, |rs|, a);
      result := result + [levels[a].indices];
    }
  }
}
