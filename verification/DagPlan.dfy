/** The width cap and scheduleDagLevels: what holds of the plan that the executor runs. */
module DagPlan {
  import opened Strings
  import opened Sequences
  import opened Levelling
  import opened Claims
  import opened ClaimResolvers
  import opened DagScheduler

  /** The `maxConcurrency` option: absent, NaN or infinite, or a finite number. */
  datatype Width = Absent | NotFinite | Finite(calls: real)

  /** The number of calls a chunk may hold; None leaves the levels whole. */
  function Cap(width: Width): Option<nat> {
    if width.Finite? && width.calls > 0.0 then
      Some(if width.calls.Floor < 1 then 1 else width.calls.Floor)
    else None
  }

  function Chunks(level: seq<nat>, cap: nat): seq<seq<nat>>
    requires cap > 0
    decreases |level|
  {
    if |level| <= cap then [level] else [level[..cap]] + Chunks(level[cap..], cap)
  }

  function ChunkLists(levels: seq<seq<nat>>, cap: nat): (lists: seq<seq<seq<nat>>>)
    requires cap > 0
    ensures |lists| == |levels|
  {
    seq(|levels|, a requires 0 <= a < |levels| => Chunks(levels[a], cap))
  }

  function Chunked(levels: seq<seq<nat>>, width: Width): seq<seq<nat>> {
    match Cap(width)
    case None => levels
    case Some(cap) => Flatten(ChunkLists(levels, cap))
  }

  method ApplyConcurrencyCap(levels: seq<seq<nat>>, width: Width) returns (chunked: seq<seq<nat>>)
    ensures chunked == Chunked(levels, width)
  {
    if !width.Finite? || width.calls <= 0.0 { return levels; }
    var integerCap := if width.calls.Floor < 1 then 1 else width.calls.Floor;
    ghost var lists := ChunkLists(levels, integerCap);
    chunked := [];
    for a := 0 to |levels|
      invariant chunked == Flatten(lists[..a])
    {
      var level := levels[a];
      assert lists[..a + 1][..a] == lists[..a];
      if |level| <= integerCap {
        chunked := chunked + [level];
        continue;
      }
      ghost var before := chunked;
      var start := 0;
      while start < |level|
        invariant start < |level| ==> chunked + Chunks(level[start..], integerCap) == before + Chunks(level, integerCap)
        invariant start >= |level| ==> chunked == before + Chunks(level, integerCap)
      {
        ghost var rest := level[start..];
        var end := if start + integerCap < |level| then start + integerCap else |level|;
        assert level[start..end] == if |rest| <= integerCap then rest else rest[..integerCap];
        assert |rest| > integerCap ==> rest[integerCap..] == level[end..];
        assert Chunks(rest, integerCap) ==
               [level[start..end]] + if |rest| <= integerCap then [] else Chunks(level[end..], integerCap);
        chunked := chunked + [level[start..end]];
        start := start + integerCap;
      }
    }
    assert lists[..|levels|] == lists;
  }

  // ---------------------------------------------------------------- chunks of one level

  lemma FlattenOne(level: seq<nat>)
    ensures Flatten([level]) == level
  {
    assert [level][..0] == [] && [level] == [] + [level];
    FlattenSnoc([], level);
  }

  lemma {:induction false} ChunksFlatten(level: seq<nat>, cap: nat)
    requires cap > 0
    ensures Flatten(Chunks(level, cap)) == level
    decreases |level|
  {
    if |level| <= cap {
      FlattenOne(level);
    } else {
      ChunksFlatten(level[cap..], cap);
      FlattenAppend([level[..cap]], Chunks(level[cap..], cap));
      FlattenOne(level[..cap]);
    }
  }

  predicate IsChunk(chunk: seq<nat>, level: seq<nat>, cap: nat) {
    0 < |chunk| <= cap && Ascending(chunk) && forall x :: x in chunk ==> x in level
  }

  lemma {:induction false} ChunksShape(level: seq<nat>, cap: nat)
    requires cap > 0 && |level| > 0 && Ascending(level)
    ensures Flatten(Chunks(level, cap)) == level
    ensures forall c :: 0 <= c < |Chunks(level, cap)| ==> IsChunk(Chunks(level, cap)[c], level, cap)
    decreases |level|
  {
    ChunksFlatten(level, cap);
    if |level| > cap {
      var rest, chunks := level[cap..], Chunks(level, cap);
      ChunksShape(rest, cap);
      forall c | 0 <= c < |chunks| ensures IsChunk(chunks[c], level, cap) {
        if c > 0 {
          assert IsChunk(Chunks(rest, cap)[c - 1], rest, cap);
        }
      }
    }
  }

  /** Proper levels: non-empty and in source order. */
  predicate ProperLevels(levels: seq<seq<nat>>) {
    forall a :: 0 <= a < |levels| ==> |levels[a]| > 0 && Ascending(levels[a])
  }

  /** `origin` says which level each chunk was cut from. */
  ghost predicate CutFrom(plan: seq<seq<nat>>, levels: seq<seq<nat>>, cap: Option<nat>, origin: seq<nat>) {
    && |origin| == |plan|
    && (forall c :: 0 <= c < |plan| ==> origin[c] < |levels|)
    && (forall c, d :: 0 <= c < d < |plan| ==> origin[c] <= origin[d])
    && (forall c :: 0 <= c < |plan| ==>
          && |plan[c]| > 0 && Ascending(plan[c]) && (cap.Some? ==> |plan[c]| <= cap.value)
          && forall x :: x in plan[c] ==> x in levels[origin[c]])
  }

  lemma CutFromMore(plan: seq<seq<nat>>, levels: seq<seq<nat>>, cap: nat, origin: seq<nat>, a: nat)
    requires cap > 0 && a < |levels| && ProperLevels(levels)
    requires CutFrom(plan, levels[..a], Some(cap), origin)
    ensures var more := Chunks(levels[a], cap);
            CutFrom(plan + more, levels[..a + 1], Some(cap), origin + seq(|more|, c requires 0 <= c => a))
  {
    ChunksShape(levels[a], cap);
  }

  lemma {:induction false} ChunksOfLevels(levels: seq<seq<nat>>, cap: nat, a: nat) returns (origin: seq<nat>)
    requires cap > 0 && a <= |levels| && ProperLevels(levels)
    ensures var plan := Flatten(ChunkLists(levels, cap)[..a]);
            Flatten(plan) == Flatten(levels[..a]) && CutFrom(plan, levels[..a], Some(cap), origin)
    decreases a
  {
    var lists := ChunkLists(levels, cap);
    if a == 0 {
      origin := [];
    } else {
      var n, more := a - 1, lists[a - 1];
      assert lists[..a][..n] == lists[..n] && levels[..a][..n] == levels[..n];
      assert Flatten(lists[..a]) == Flatten(lists[..n]) + more && Flatten(levels[..a]) == Flatten(levels[..n]) + levels[n];
      assert more == Chunks(levels[n], cap);
      hide CutFrom, Chunks, ChunkLists, Ascending, Flatten;
      origin := ChunksOfLevels(levels, cap, n);
      CutFromMore(Flatten(lists[..n]), levels, cap, origin, n);
      origin := origin + seq(|more|, c requires 0 <= c => n);
      ChunksFlatten(levels[n], cap);
      FlattenAppend(Flatten(lists[..n]), more);
    }
  }

  lemma ChunkedShape(levels: seq<seq<nat>>, width: Width) returns (origin: seq<nat>)
    requires ProperLevels(levels)
    ensures Flatten(Chunked(levels, width)) == Flatten(levels)
    ensures CutFrom(Chunked(levels, width), levels, Cap(width), origin)
  {
    match Cap(width) {
      case None =>
        origin := seq(|levels|, a requires 0 <= a => a);
      case Some(cap) =>
        origin := ChunksOfLevels(levels, cap, |levels|);
        var lists := ChunkLists(levels, cap);
        assert lists[..|levels|] == lists && levels[..|levels|] == levels;
    }
  }

  lemma CutSeparates(clash: Relation, n: nat, plan: seq<seq<nat>>, cap: Option<nat>, origin: seq<nat>,
                     i: nat, j: nat, c: nat, d: nat)
    requires CutFrom(plan, Levels(clash, n), cap, origin)
    requires i < j && clash(i, j)
    requires c < |plan| && d < |plan| && i in plan[c] && j in plan[d]
    ensures c < d
  {
    OnLevelMembers(clash, n, origin[c]);
    OnLevelMembers(clash, n, origin[d]);
    assert i in Levels(clash, n)[origin[c]] && j in Levels(clash, n)[origin[d]];
    LevelsSeparate(clash, i, j);
  }

  // ---------------------------------------------------------------- the whole plan

  function Plan(rs: seq<Resolution>, width: Width): seq<seq<nat>> {
    Chunked(DagLevels(rs), width)
  }

  lemma DagLevelsProper(rs: seq<Resolution>)
    ensures ProperLevels(DagLevels(rs))
  {
    forall a | 0 <= a < |DagLevels(rs)|
      ensures |DagLevels(rs)[a]| > 0 && Ascending(DagLevels(rs)[a])
    {
      LevelsInhabited(ClashAmong(rs), |rs|, a);
      OnLevelMembers(ClashAmong(rs), |rs|, a);
    }
  }

  /** Every call is planned exactly once; no chunk is empty, out of order, or wider than the cap. */
  lemma PlanPartition(rs: seq<Resolution>, width: Width)
    ensures EachOnce(Flatten(Plan(rs, width)), |rs|)
    ensures forall c :: 0 <= c < |Plan(rs, width)| ==>
              var chunk := Plan(rs, width)[c];
              && |chunk| > 0 && Ascending(chunk)
              && (Cap(width).Some? ==> |chunk| <= Cap(width).value)
              && forall x :: x in chunk ==> x < |rs|
  {
    DagLevelsProper(rs);
    var origin := ChunkedShape(DagLevels(rs), width);
    LevelsPartition(ClashAmong(rs), |rs|);
    forall c | 0 <= c < |Plan(rs, width)|
      ensures forall x :: x in Plan(rs, width)[c] ==> x < |rs|
    {
      OnLevelMembers(ClashAmong(rs), |rs|, origin[c]);
    }
  }

  /** Clashing calls never share a chunk, and the chunk of the earlier one runs first. */
  lemma PlanSeparates(rs: seq<Resolution>, width: Width, i: nat, j: nat, c: nat, d: nat)
    requires i < j < |rs| && Clash(rs[i], rs[j])
    requires c < |Plan(rs, width)| && d < |Plan(rs, width)|
    requires i in Plan(rs, width)[c] && j in Plan(rs, width)[d]
    ensures c < d
  {
    DagLevelsProper(rs);
    var origin := ChunkedShape(DagLevels(rs), width);
    CutSeparates(ClashAmong(rs), |rs|, Plan(rs, width), Cap(width), origin, i, j, c, d);
  }

  /** Two different calls of one chunk do not conflict. */
  lemma ChunkConflictFree(rs: seq<Resolution>, width: Width, c: nat, i: nat, j: nat)
    requires c < |Plan(rs, width)| && i in Plan(rs, width)[c] && j in Plan(rs, width)[c] && i != j
    ensures i < |rs| && j < |rs| && !ResolutionsConflict(rs[i], rs[j])
  {
    PlanPartition(rs, width);
    ResolutionsConflictSymmetric(rs[i], rs[j]);
    var low, high := if i < j then i else j, if i < j then j else i;
    if Clash(rs[low], rs[high]) {
      PlanSeparates(rs, width, low, high, c, c);
    }
  }

  // ---------------------------------------------------------------- scheduling calls

  function ResolveAll(calls: seq<Call>, options: Options): seq<Resolution> {
    seq(|calls|, i requires 0 <= i < |calls| => ResolveCall(calls[i], options))
  }

  method ResolveBatchClaims(calls: seq<Call>, options: Options) returns (entries: seq<Entry>)
    ensures entries == EntriesOf(ResolveAll(calls, options))
  {
    hide ResolveCall, CanonicalClaims;
    entries := [];
    for index := 0 to |calls|
      invariant entries == EntriesOf(ResolveAll(calls, options))[..index]
    {
      var resolution := ResolveToolClaimsForCall(calls[index], options);
      var canonicalClaims := if resolution.Claims? then CanonicalClaims(resolution.claims) else [];
      entries := entries + [Entry(index, resolution, canonicalClaims)];
    }
  }

  /** Calls in source order, each in conflict with the next. */
  ghost predicate ConflictChain(rs: seq<Resolution>, chain: seq<nat>) {
    && |chain| > 0
    && (forall m :: 0 <= m < |chain| ==> chain[m] < |rs|)
    && forall m :: 0 < m < |chain| ==> chain[m - 1] < chain[m] && ResolutionsConflict(rs[chain[m - 1]], rs[chain[m]])
  }

  /** The claims of a batch are in normal form, so nothing but the pairwise relation is left. */
  lemma ScheduledClashes(calls: seq<Call>, options: Options)
    ensures var rs := ResolveAll(calls, options);
            forall i: nat, k: nat :: i < |rs| && k < |rs| ==> ClashAmong(rs)(i, k) == ResolutionsConflict(rs[i], rs[k])
  {
    var rs := ResolveAll(calls, options);
    forall i: nat, k: nat | i < |rs| && k < |rs|
      ensures ClashAmong(rs)(i, k) == ResolutionsConflict(rs[i], rs[k])
    {
      ResolutionsNormal(calls[i], options);
      ResolutionsNormal(calls[k], options);
      ClashIsConflict(rs[i], rs[k]);
    }
  }

  lemma ChainsAgree(rs: seq<Resolution>, chain: seq<nat>)
    requires |chain| > 0 && chain[|chain| - 1] < |rs|
    requires forall i: nat, k: nat :: i < |rs| && k < |rs| ==> ClashAmong(rs)(i, k) == ResolutionsConflict(rs[i], rs[k])
    ensures IsChain(ClashAmong(rs), chain) <==> ConflictChain(rs, chain)
  {
    if IsChain(ClashAmong(rs), chain) {
      forall m | 0 <= m < |chain|
        ensures chain[m] < |rs|
      {
        if m + 1 < |chain| { assert ClashAmong(rs)(chain[m + 1 - 1], chain[m + 1]); }
      }
    }
  }

  /** For the claims the resolvers produce, the levels are exact for the simple pairwise relation:
      a call's level is the length of the longest chain of pairwise conflicts before it. */
  lemma ScheduledLevelsExact(calls: seq<Call>, options: Options, j: nat, level: nat)
    requires j < |calls|
    ensures var rs := ResolveAll(calls, options);
            level == LevelOf(ClashAmong(rs), j) <==>
            && (exists chain :: ConflictChain(rs, chain) && chain[|chain| - 1] == j && |chain| == level + 1)
            && (forall chain :: ConflictChain(rs, chain) && chain[|chain| - 1] == j ==> |chain| <= level + 1)
  {
    var rs := ResolveAll(calls, options);
    ScheduledClashes(calls, options);
    forall chain: seq<nat> | |chain| > 0 && chain[|chain| - 1] == j
      ensures IsChain(ClashAmong(rs), chain) <==> ConflictChain(rs, chain)
    {
      ChainsAgree(rs, chain);
    }
    LevelIsLongestChain(ClashAmong(rs), j, level + 1);
  }

  // ---------------------------------------------------------------- what the executor runs

  predicate AllPlainArguments(calls: seq<Call>) {
    forall i :: 0 <= i < |calls| ==> calls[i].arguments.Plain?
  }

  /** The safe sublevels of the calls that passed authorization; without plain arguments, one call at a time. */
  function ExecutionLevels(calls: seq<Call>, options: Options, width: Width): seq<seq<nat>> {
    if AllPlainArguments(calls) then Plan(ResolveAll(calls, options), width) else seq(|calls|, i requires 0 <= i => [i])
  }

  /** No two calls of the level conflict. */
  predicate ConflictFree(level: seq<nat>, resolutions: seq<Resolution>) {
    && (forall i :: i in level ==> i < |resolutions|)
    && forall i, j :: i in level && j in level && i != j ==> !ResolutionsConflict(resolutions[i], resolutions[j])
  }

  lemma PlannedLevel(calls: seq<Call>, options: Options, width: Width, q: nat)
    requires q < |ExecutionLevels(calls, options, width)|
    ensures ConflictFree(ExecutionLevels(calls, options, width)[q], ResolveAll(calls, options))
  {
    var rs := ResolveAll(calls, options);
    if AllPlainArguments(calls) {
      PlanPartition(rs, width);
      var level := Plan(rs, width)[q];
      forall i, j | i in level && j in level && i != j ensures !ResolutionsConflict(rs[i], rs[j]) {
        ChunkConflictFree(rs, width, q, i, j);
      }
    }
  }

  lemma PlannedDisjoint(calls: seq<Call>, options: Options, width: Width, q: nat, p: nat, i: nat)
    requires q < p < |ExecutionLevels(calls, options, width)| && i in ExecutionLevels(calls, options, width)[q]
    ensures i !in ExecutionLevels(calls, options, width)[p]
  {
    if AllPlainArguments(calls) {
      PlanPartition(ResolveAll(calls, options), width);
      EachOnceDisjoint(Plan(ResolveAll(calls, options), width), |calls|, q, p, i);
    }
  }
}
