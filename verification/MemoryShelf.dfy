/** memoryMaintain as it runs: the chunk list of one persona, changed in place by
    four passes, each proved against its function. */
module MemoryShelves {
  import opened Common
  import opened Sealing
  import opened Layers

  class MemoryShelf {
    var log: seq<Entry>
    var chunks: seq<Chunk>

    ghost function Model(): Memory
      reads this
    {
      Memory(log, chunks)
    }

    constructor ()
      ensures Model() == Memory([], [])
    {
      log, chunks := [], [];
    }

    /** Push one sealed chunk per window of the walk. */
    method SealNew() returns (rest: nat)
      modifies this`chunks
      ensures Model() == SealTail(old(Model()))
      ensures rest == SealWalk(Tail(old(Model()))).tokens
    {
      var covered, num := Covered(chunks), NextNum(chunks);
      var tail := if covered <= |log| then log[covered..] else [];
      var cuts;
      cuts, rest := Seal(tail);
      var i := 0;
      while i < |cuts|
        invariant 0 <= i <= |cuts| && chunks == old(chunks) + SealedChunks(cuts, covered, num)[..i]
      {
        var w := cuts[i];
        chunks := chunks + [Chunk(num + i, 1, [], covered + w.lo + 1, covered + w.hi, w.tokens, Sealed, None, 0)];
        assert SealedChunks(cuts, covered, num)[..i + 1] == SealedChunks(cuts, covered, num)[..i] + [SealedChunks(cuts, covered, num)[i]];
        i := i + 1;
      }
      assert SealedChunks(cuts, covered, num)[..i] == SealedChunks(cuts, covered, num);
    }

    method LiveRaw(rest: nat) returns (live: nat)
      ensures live == rest + RawTokens(chunks)
    {
      live := rest;
      var i := 0;
      while i < |chunks|
        invariant 0 <= i <= |chunks| && live == rest + RawTokens(chunks[..i])
      {
        assert chunks[..i + 1][..i] == chunks[..i];
        var c := chunks[i];
        if c.layer == 1 && c.status != Applied && c.status != Superseded { live := live + c.tokens; }
        i := i + 1;
      }
      assert chunks[..i] == chunks;
    }

    /** Apply prepared layer-1 chunks while the live estimate is over its limit. */
    method ApplyPrepared(rest: int)
      modifies this`chunks
      ensures chunks == ApplyRaw(old(chunks), rest, 0)
    {
      var live, i := rest, 0;
      while i < |chunks| && live > LIVE_LIMIT
        invariant 0 <= i <= |chunks|
        invariant ApplyRaw(chunks, live, i) == ApplyRaw(old(chunks), rest, 0)
        decreases |chunks| - i
      {
        if chunks[i].layer == 1 && chunks[i].status == Prepared {
          live := live - chunks[i].tokens;
          chunks := chunks[i := chunks[i].(status := Applied)];
        }
        i := i + 1;
      }
      NoneOver(chunks, live, i);
    }

    method AppliedOf(layer: nat) returns (sum: nat)
      ensures sum == AppliedTokens(chunks, layer)
    {
      sum := 0;
      var i := 0;
      while i < |chunks|
        invariant 0 <= i <= |chunks| && sum == AppliedTokens(chunks[..i], layer)
      {
        assert chunks[..i + 1][..i] == chunks[..i];
        if chunks[i].layer == layer && chunks[i].status == Applied { sum := sum + chunks[i].shrunk; }
        i := i + 1;
      }
      assert chunks[..i] == chunks;
    }

    method Supersede(sources: seq<nat>)
      modifies this`chunks
      ensures chunks == SupersedeAll(old(chunks), sources)
    {
      var i := 0;
      while i < |chunks|
        invariant 0 <= i <= |chunks| == |old(chunks)|
        invariant forall k :: 0 <= k < i ==> chunks[k] == SupersedeAll(old(chunks), sources)[k]
        invariant forall k :: i <= k < |chunks| ==> chunks[k] == old(chunks)[k]
      {
        if chunks[i].num in sources { chunks := chunks[i := chunks[i].(status := Superseded)]; }
        i := i + 1;
      }
    }

    /** Fail a stale prepared target, or install it once its layer is over. */
    method SettlePrepared()
      modifies this`chunks
      ensures chunks == SettleTargets(old(chunks), 0)
    {
      var i := 0;
      while i < |chunks|
        invariant 0 <= i <= |chunks|
        invariant SettleTargets(chunks, i) == SettleTargets(old(chunks), 0)
        decreases |chunks| - i
      {
        ghost var before := chunks;
        var t := chunks[i];
        if t.layer >= 2 && t.status == Prepared {
          if Stale(chunks, t) {
            chunks := chunks[i := t.(status := Failed)];
          } else {
            var layer := SourceLayer(chunks, t);
            var sum := AppliedOf(layer);
            if sum > LimitOf(layer) {
              Supersede(t.sources);
              chunks := chunks[i := chunks[i].(status := Applied)];
            }
          }
        }
        assert chunks == SettleTarget(before, i);
        i := i + 1;
      }
    }

    /** The first contiguous run of applied chunks whose tuple is not settled. */
    method PickRun(layer: nat) returns (run: Option<seq<Chunk>>)
      ensures run == RunOf(chunks, layer)
    {
      var total := AppliedOf(layer);
      if total <= LimitOf(layer) { return None; }
      var goal, whole := total - (if layer == 1 then L1_DROP_TO else L2_LIMIT), layer == 2;
      var frags := AppliedInOrder(chunks, layer);
      var lo := 0;
      while lo < |frags|
        invariant 0 <= lo <= |frags|
        invariant ChooseRun(chunks, frags, lo, goal, whole) == ChooseRun(chunks, frags, 0, goal, whole)
        decreases |frags| - lo
      {
        var hi := ExtendRun(frags, lo, goal, whole);
        if !SettledTuple(chunks, Nums(frags[lo..hi])) { return Some(frags[lo..hi]); }
        lo := hi;
      }
      return None;
    }

    /** One upper-layer target in flight at a time. */
    method CreateNext()
      modifies this`chunks
      ensures chunks == CreateTarget(old(chunks))
    {
      if Busy(chunks) { return; }
      var run := PickRun(1);
      if run.None? { run := PickRun(2); }
      if run.Some? { chunks := chunks + [TargetFor(chunks, run.value)]; }
    }

    /** memoryMaintain: seal, apply, settle, create. */
    method Housekeep()
      modifies this`chunks
      ensures Model() == Maintain(old(Model()))
    {
      hide SealWalk, ApplyRaw, SettleTargets, CreateTarget, RawTokens, Covered, NextNum;
      var rest := SealNew();
      var live := LiveRaw(rest);
      ApplyPrepared(live);
      SettlePrepared();
      CreateNext();
    }
  }

  /** Grow the run from `lo` while it is contiguous and has not consumed enough. */
  method ExtendRun(frags: seq<Chunk>, lo: nat, goal: int, whole: bool) returns (hi: nat)
    requires lo < |frags|
    ensures hi == RunEnd(frags, lo + 1, frags[lo].shrunk, goal, whole)
  {
    hi := lo + 1;
    var consumed: int := frags[lo].shrunk;
    while hi < |frags| && frags[hi].first == frags[hi - 1].last + 1 && (whole || consumed < goal)
      invariant lo < hi <= |frags|
      invariant RunEnd(frags, hi, consumed, goal, whole) == RunEnd(frags, lo + 1, frags[lo].shrunk, goal, whole)
    {
      consumed := consumed + frags[hi].shrunk;
      hi := hi + 1;
    }
  }

  /** Under the limit nothing more is applied. */
  lemma {:induction false} NoneOver(chunks: seq<Chunk>, live: int, i: nat)
    requires i <= |chunks| && (i < |chunks| ==> live <= LIVE_LIMIT)
    ensures ApplyRaw(chunks, live, i) == chunks
    decreases |chunks| - i
  {
    if i < |chunks| { NoneOver(chunks, live, i + 1); }
  }
}
