/** waves-v1: packages/agent/src/parallel-tool-batch.ts. The greedy contiguous partition has the fewest waves. */
module Waves {
  import opened Strings
  import opened Paths
  import opened Sequences
  import opened ClaimResolvers

  /** How a call may share a wave; `Scoped` carries the path it works on. */
  datatype Slot = Solo | Safe | Scoped(path: string)

  datatype WaveOptions = WaveOptions(
    cwd: string,
    home: string,
    policies: map<string, Policy>,
    allowUnknown: string -> bool)

  function ExtractParallelScopePath(call: Call, options: WaveOptions): Option<string>
    requires call.arguments.Plain?
  {
    if call.name !in PATH_SCOPED_TOOLS || call.arguments.path.None? || Blank(call.arguments.path.value) then None
    else
      var raw := call.arguments.path.value;
      var expanded := NormalizeSlashes(if StartsWith(raw, "~") then options.home + raw[1..] else raw);
      Some(if StartsWith(expanded, "/") then expanded else JoinPathSegments(options.cwd, expanded))
  }

  function SlotOf(call: Call, options: WaveOptions): Slot {
    var policy := if call.name in options.policies then Some(options.policies[call.name]) else None;
    if call.name in NEVER_PARALLEL_TOOLS || policy == Some(Sequential) || call.arguments.NotPlain? || call.name == "bash"
    then Solo
    else if call.name in PATH_SCOPED_TOOLS then
      var path := ExtractParallelScopePath(call, options);
      if path.Some? then Scoped(path.value) else Solo
    else if call.name in PARALLEL_SAFE_TOOLS || policy == Some(Parallel) || options.allowUnknown(call.name) then Safe
    else Solo
  }

  function SlotsOf(calls: seq<Call>, options: WaveOptions): seq<Slot> {
    seq(|calls|, i requires 0 <= i < |calls| => SlotOf(calls[i], options))
  }

  // ---------------------------------------------------------------- what a wave may be

  function Range(lo: nat, hi: nat): seq<nat>
    requires lo <= hi
  {
    seq(hi - lo, i requires 0 <= i => lo + i)
  }

  predicate Apart(slots: seq<Slot>, j: nat, i: nat)
    requires j < |slots| && i < |slots|
  {
    slots[j].Scoped? && slots[i].Scoped? ==> !SegmentsOverlap(slots[i].path, slots[j].path)
  }

  /** A solo call stands alone; the scoped paths of a wave are pairwise disjoint. */
  ghost predicate ValidWave(slots: seq<Slot>, lo: nat, hi: nat) {
    && lo < hi <= |slots|
    && (hi - lo == 1
        || ((forall i: nat :: lo <= i < hi ==> !slots[i].Solo?)
            && forall j: nat, i: nat :: lo <= j < i < hi ==> Apart(slots, j, i)))
  }

  predicate Fits(slots: seq<Slot>, lo: nat, hi: nat)
    requires lo < hi < |slots|
  {
    && !slots[lo].Solo? && !slots[hi].Solo?
    && forall j: nat :: lo <= j < hi ==> Apart(slots, j, hi)
  }

  lemma FitsExactly(slots: seq<Slot>, lo: nat, hi: nat)
    requires lo < hi < |slots| && ValidWave(slots, lo, hi)
    ensures Fits(slots, lo, hi) <==> ValidWave(slots, lo, hi + 1)
  {
  }

  lemma ValidPart(slots: seq<Slot>, lo: nat, hi: nat, from: nat, to: nat)
    requires ValidWave(slots, lo, hi) && lo <= from < to <= hi
    ensures ValidWave(slots, from, to)
  {
  }

  /** Where the wave that starts at `lo` and has reached `hi` ends. */
  function WaveEnd(slots: seq<Slot>, lo: nat, hi: nat): (end: nat)
    requires lo < hi <= |slots|
    ensures hi <= end <= |slots|
    decreases |slots| - hi
  {
    if hi < |slots| && Fits(slots, lo, hi) then WaveEnd(slots, lo, hi + 1) else hi
  }

  function WavesFrom(slots: seq<Slot>, lo: nat): seq<seq<nat>>
    requires lo <= |slots|
    decreases |slots| - lo
  {
    if lo == |slots| then []
    else
      var end := WaveEnd(slots, lo, lo + 1);
      [Range(lo, end)] + WavesFrom(slots, end)
  }

  lemma {:induction false} WaveEndMaximal(slots: seq<Slot>, lo: nat, hi: nat, other: nat)
    requires ValidWave(slots, lo, hi)
    ensures ValidWave(slots, lo, WaveEnd(slots, lo, hi))
    ensures ValidWave(slots, lo, other) ==> other <= WaveEnd(slots, lo, hi)
    decreases |slots| - hi
  {
    if hi < |slots| {
      FitsExactly(slots, lo, hi);
      if Fits(slots, lo, hi) {
        WaveEndMaximal(slots, lo, hi + 1, other);
      } else if ValidWave(slots, lo, other) && other > hi {
        ValidPart(slots, lo, other, lo, hi + 1);
      }
    }
  }

  // ---------------------------------------------------------------- partitions into waves

  /** Contiguous valid waves that cover the calls from `from` on. */
  ghost predicate Partition(slots: seq<Slot>, from: nat, waves: seq<seq<nat>>)
    decreases |waves|
  {
    if |waves| == 0 then from == |slots|
    else
      var to := from + |waves[0]|;
      ValidWave(slots, from, to) && waves[0] == Range(from, to) && Partition(slots, to, waves[1..])
  }

  lemma PartitionNext(slots: seq<Slot>, from: nat, waves: seq<seq<nat>>, k: nat)
    requires k < |waves| && Partition(slots, from, waves[k..])
    ensures |waves[k]| > 0 && from + |waves[k]| <= |slots| && waves[k] == Range(from, from + |waves[k]|)
    ensures Partition(slots, from + |waves[k]|, waves[k + 1..])
  {
    assert waves[k..][0] == waves[k] && waves[k..][1..] == waves[k + 1..];
  }

  lemma PartitionDone(slots: seq<Slot>, from: nat, waves: seq<seq<nat>>)
    requires Partition(slots, from, waves[|waves|..])
    ensures from == |slots|
  {
  }

  /** In other words: together they are the calls in source order, and each one may be a wave. */
  ghost predicate InSourceOrder(slots: seq<Slot>, waves: seq<seq<nat>>) {
    && Flatten(waves) == Range(0, |slots|)
    && forall k :: 0 <= k < |waves| ==>
         |waves[k]| > 0 && waves[k][0] + |waves[k]| <= |slots|
         && ValidWave(slots, waves[k][0], waves[k][0] + |waves[k]|)
  }

  lemma RangeSplits(from: nat, to: nat, first: seq<nat>, rest: seq<nat>)
    requires from <= to && first + rest == Range(from, to)
    ensures from + |first| <= to && first == Range(from, from + |first|) && rest == Range(from + |first|, to)
  {
    assert |first + rest| == to - from;
    assert first == (first + rest)[..|first|] && rest == (first + rest)[|first|..];
  }

  lemma {:induction false} PartitionOfOrder(slots: seq<Slot>, from: nat, waves: seq<seq<nat>>)
    requires from <= |slots| && Flatten(waves) == Range(from, |slots|)
    requires forall k :: 0 <= k < |waves| ==>
               |waves[k]| > 0 && waves[k][0] + |waves[k]| <= |slots|
               && ValidWave(slots, waves[k][0], waves[k][0] + |waves[k]|)
    ensures Partition(slots, from, waves)
    decreases |waves|
  {
    if |waves| == 0 {
      assert |Range(from, |slots|)| == |slots| - from;
    } else {
      var rest := waves[1..];
      assert waves == [waves[0]] + rest;
      FlattenCons(waves[0], rest);
      RangeSplits(from, |slots|, waves[0], Flatten(rest));
      PartitionOfOrder(slots, from + |waves[0]|, rest);
    }
  }

  lemma {:induction false} OrderOfPartition(slots: seq<Slot>, from: nat, waves: seq<seq<nat>>)
    requires Partition(slots, from, waves)
    ensures from <= |slots| && Flatten(waves) == Range(from, |slots|)
    ensures forall k :: 0 <= k < |waves| ==>
              |waves[k]| > 0 && waves[k][0] + |waves[k]| <= |slots|
              && ValidWave(slots, waves[k][0], waves[k][0] + |waves[k]|)
    decreases |waves|
  {
    hide ValidWave, Flatten;
    if |waves| == 0 {
      NoWaves(slots, waves);
    } else {
      var rest := waves[1..];
      var to := from + |waves[0]|;
      assert waves == [waves[0]] + rest;
      WaveBounds(slots, from, to);
      OrderOfPartition(slots, to, rest);
      FlattenCons(waves[0], rest);
      assert Range(from, to) + Range(to, |slots|) == Range(from, |slots|);
      forall k | 0 <= k < |waves|
        ensures |waves[k]| > 0 && waves[k][0] + |waves[k]| <= |slots|
        ensures ValidWave(slots, waves[k][0], waves[k][0] + |waves[k]|)
      {
        if k > 0 { assert waves[k] == rest[k - 1]; }
      }
    }
  }

  lemma NoWaves(slots: seq<Slot>, waves: seq<seq<nat>>)
    requires |waves| == 0
    ensures Flatten(waves) == Range(|slots|, |slots|)
  {
  }

  lemma WaveBounds(slots: seq<Slot>, from: nat, to: nat)
    requires ValidWave(slots, from, to)
    ensures from < to <= |slots|
  {
  }

  lemma {:induction false} GreedyPartition(slots: seq<Slot>, lo: nat)
    requires lo <= |slots|
    ensures Partition(slots, lo, WavesFrom(slots, lo))
    decreases |slots| - lo
  {
    if lo < |slots| {
      WaveEndMaximal(slots, lo, lo + 1, lo + 1);
      var end := WaveEnd(slots, lo, lo + 1);
      GreedyPartition(slots, end);
      hide ValidWave;
      assert WavesFrom(slots, lo)[1..] == WavesFrom(slots, end);
    }
  }

  /** The waves are the calls in source order, each wave is valid, and no other such partition has fewer. */
  lemma GreedyWavesFewest(slots: seq<Slot>, waves: seq<seq<nat>>)
    ensures InSourceOrder(slots, WavesFrom(slots, 0))
    ensures InSourceOrder(slots, waves) ==> |WavesFrom(slots, 0)| <= |waves|
  {
    hide ValidWave, Flatten, WavesFrom, Partition, Range;
    GreedyPartition(slots, 0);
    OrderOfPartition(slots, 0, WavesFrom(slots, 0));
    if InSourceOrder(slots, waves) {
      PartitionOfOrder(slots, 0, waves);
      NoFewer(slots, 0, 0, waves);
    }
  }

  /** Being further along never costs a wave. */
  lemma {:induction false} NoFewer(slots: seq<Slot>, lo: nat, from: nat, waves: seq<seq<nat>>)
    requires from <= lo <= |slots| && Partition(slots, from, waves)
    ensures |WavesFrom(slots, lo)| <= |waves|
    decreases |waves|
  {
    if lo < |slots| {
      var to := from + |waves[0]|;
      if to <= lo {
        NoFewer(slots, lo, to, waves[1..]);
      } else {
        ValidPart(slots, from, to, lo, to);
        WaveEndMaximal(slots, lo, lo + 1, to);
        NoFewer(slots, WaveEnd(slots, lo, lo + 1), to, waves[1..]);
      }
    }
  }

  // ---------------------------------------------------------------- the loop

  /** What the open wave holds: the calls from `lo` to `hi`, and their paths. */
  ghost predicate Gathered(slots: seq<Slot>, lo: nat, hi: nat, wave: seq<nat>, wavePaths: seq<string>) {
    && lo <= hi <= |slots| && wave == Range(lo, hi)
    && (lo < hi ==> ValidWave(slots, lo, hi) && !slots[lo].Solo?)
    && (forall p :: p in wavePaths ==> exists j: nat :: lo <= j < hi && slots[j] == Scoped(p))
    && (forall j: nat :: lo <= j < hi && slots[j].Scoped? ==> slots[j].path in wavePaths)
  }

  lemma Closes(slots: seq<Slot>, lo: nat, hi: nat)
    requires lo < hi <= |slots| && ValidWave(slots, lo, hi)
    requires hi == |slots| || !Fits(slots, lo, hi)
    ensures WavesFrom(slots, lo) == [Range(lo, hi)] + WavesFrom(slots, hi)
  {
    hide ValidWave, Fits;
    WaveEndMaximal(slots, lo, lo + 1, hi);
    if hi < |slots| {
      FitsExactly(slots, lo, hi);
      var end := WaveEnd(slots, lo, lo + 1);
      if end > hi { ValidPart(slots, lo, end, lo, hi + 1); }
    }
  }

  lemma GatherMore(slots: seq<Slot>, lo: nat, hi: nat, wave: seq<nat>, wavePaths: seq<string>)
    requires Gathered(slots, lo, hi, wave, wavePaths) && hi < |slots| && !slots[hi].Solo?
    requires slots[hi].Scoped? ==>
               forall existing :: existing in wavePaths ==> !SegmentsOverlap(slots[hi].path, existing)
    ensures Gathered(slots, lo, hi + 1, wave + [hi],
                     if slots[hi].Scoped? then wavePaths + [slots[hi].path] else wavePaths)
  {
    assert Range(lo, hi + 1) == Range(lo, hi) + [hi];
    if lo < hi {
      forall j: nat | lo <= j < hi ensures Apart(slots, j, hi) {
        if slots[j].Scoped? { assert slots[j].path in wavePaths; }
      }
      assert Fits(slots, lo, hi);
      FitsExactly(slots, lo, hi);
    }
  }

  lemma OverlapCloses(slots: seq<Slot>, lo: nat, hi: nat, wave: seq<nat>, wavePaths: seq<string>, existing: string)
    requires Gathered(slots, lo, hi, wave, wavePaths) && hi < |slots| && slots[hi].Scoped?
    requires existing in wavePaths && SegmentsOverlap(slots[hi].path, existing)
    ensures lo < hi && WavesFrom(slots, lo) == [wave] + WavesFrom(slots, hi)
  {
    var j: nat :| lo <= j < hi && slots[j] == Scoped(existing);
    assert !Apart(slots, j, hi);
    Closes(slots, lo, hi);
  }

  method CloseWave(waves: seq<seq<nat>>, wave: seq<nat>, ghost slots: seq<Slot>, ghost lo: nat, ghost hi: nat)
    returns (closed: seq<seq<nat>>)
    requires lo <= hi <= |slots| && wave == Range(lo, hi)
    requires lo < hi ==> WavesFrom(slots, lo) == [wave] + WavesFrom(slots, hi)
    ensures closed + WavesFrom(slots, hi) == waves + WavesFrom(slots, lo)
  {
    closed := if |wave| > 0 then waves + [wave] else waves;
  }

  lemma SoloAlone(slots: seq<Slot>, index: nat)
    requires index < |slots| && slots[index].Solo?
    ensures WavesFrom(slots, index) == [[index]] + WavesFrom(slots, index + 1)
  {
    Closes(slots, index, index + 1);
    assert Range(index, index + 1) == [index];
  }

  /** A solo call closes the open wave and stands alone. */
  method PlaceSolo(index: nat, waves: seq<seq<nat>>, wave: seq<nat>, wavePaths: seq<string>,
                   ghost slots: seq<Slot>, ghost lo: nat)
    returns (waves': seq<seq<nat>>)
    requires index < |slots| && slots[index].Solo? && Gathered(slots, lo, index, wave, wavePaths)
    ensures waves' + WavesFrom(slots, index + 1) == waves + WavesFrom(slots, lo)
  {
    hide WavesFrom, WaveEnd, SegmentsOverlap;
    if lo < index { Closes(slots, lo, index); }
    var closed := CloseWave(waves, wave, slots, lo, index);
    SoloAlone(slots, index);
    waves' := closed + [[index]];
    assert waves' + WavesFrom(slots, index + 1) == closed + WavesFrom(slots, index);
  }

  /** One call: `lo'` is where the open wave now starts. */
  method PlaceCall(slot: Slot, index: nat, waves: seq<seq<nat>>, wave: seq<nat>, wavePaths: seq<string>,
                   ghost slots: seq<Slot>, ghost lo: nat)
    returns (waves': seq<seq<nat>>, wave': seq<nat>, wavePaths': seq<string>, ghost lo': nat)
    requires index < |slots| && slots[index] == slot
    requires Gathered(slots, lo, index, wave, wavePaths)
    ensures Gathered(slots, lo', index + 1, wave', wavePaths')
    ensures waves' + WavesFrom(slots, lo') == waves + WavesFrom(slots, lo)
  {
    hide WavesFrom, WaveEnd;
    waves', wave', wavePaths', lo' := waves, wave, wavePaths, lo;
    if slot.Solo? {
      waves' := PlaceSolo(index, waves, wave, wavePaths, slots, lo);
      GatheredNothing(slots, index + 1);
      return waves', [], [], index + 1;
    }
    if slot.Scoped? && exists existing :: existing in wavePaths && SegmentsOverlap(slot.path, existing) {
      ghost var existing :| existing in wavePaths && SegmentsOverlap(slot.path, existing);
      OverlapCloses(slots, lo, index, wave, wavePaths, existing);
      waves' := CloseWave(waves, wave, slots, lo, index);
      GatheredNothing(slots, index);
      wave', wavePaths', lo' := [], [], index;
    }
    GatherMore(slots, lo', index, wave', wavePaths');
    if slot.Scoped? { wavePaths' := wavePaths' + [slot.path]; }
    wave' := wave' + [index];
  }

  lemma GatheredNothing(slots: seq<Slot>, at: nat)
    requires at <= |slots|
    ensures Gathered(slots, at, at, [], [])
  {
  }

  method PartitionToolBatchWaves(calls: seq<Call>, options: WaveOptions) returns (waves: seq<seq<nat>>)
    ensures waves == WavesFrom(SlotsOf(calls, options), 0)
  {
    ghost var slots := SlotsOf(calls, options);
    waves := [];
    var wave: seq<nat> := [];
    var wavePaths: seq<string> := [];
    ghost var lo: nat := 0;
    for index := 0 to |calls|
      invariant Gathered(slots, lo, index, wave, wavePaths)
      invariant waves + WavesFrom(slots, lo) == WavesFrom(slots, 0)
    {
      waves, wave, wavePaths, lo :=
        PlaceCall(SlotOf(calls[index], options), index, waves, wave, wavePaths, slots, lo);
    }
    if lo < |calls| { Closes(slots, lo, |calls|); }
    waves := CloseWave(waves, wave, slots, lo, |calls|);
  }
}
