/** The view of memory a model is sent: the records no block stands for, and the
    applied blocks.  Each record appears once, and applying only shrinks it. */
module MemoryView {
  import opened Common
  import opened Sealing
  import opened Layers

  // -------------------------------------------------------------- what is sent

  /** Applied and superseded chunks both keep their records from rendering raw. */
  predicate Hidden(chunks: seq<Chunk>, x: int) {
    exists i :: 0 <= i < |chunks| && Covering(chunks[i]) && In(chunks[i], x)
  }

  /** Records of the loading input's own turns are left to that turn. */
  predicate Excluded(e: Entry, loading: Option<InputId>) { loading == Some(e.input) }

  /** The numbers of the first `n` records that render raw. */
  function RawView(m: Memory, loading: Option<InputId>, n: nat): seq<int>
    requires n <= |m.log|
  {
    if n == 0 then []
    else RawView(m, loading, n - 1)
         + if Hidden(m.chunks, n) || Excluded(m.log[n - 1], loading) then [] else [n]
  }

  function Blocks(m: Memory): seq<Chunk> { AppliedInOrder(m.chunks, 0) }

  /** renderedContext as the store computes it, one pass over the journal. */
  method RenderedContext(m: Memory, loading: Option<InputId>) returns (events: seq<int>, blocks: seq<Chunk>)
    ensures events == RawView(m, loading, |m.log|) && blocks == Blocks(m)
  {
    events := [];
    var n := 0;
    while n < |m.log|
      invariant 0 <= n <= |m.log| && events == RawView(m, loading, n)
    {
      if !Hidden(m.chunks, n + 1) && !Excluded(m.log[n], loading) { events := events + [n + 1]; }
      n := n + 1;
    }
    blocks := AppliedInOrder(m.chunks, 0);
  }

  lemma {:induction false} RawViewHolds(m: Memory, loading: Option<InputId>, n: nat)
    requires n <= |m.log|
    ensures forall x :: x in RawView(m, loading, n)
                        <==> 1 <= x <= n && !Hidden(m.chunks, x) && !Excluded(m.log[x - 1], loading)
    ensures forall p, q :: 0 <= p < q < |RawView(m, loading, n)| ==> RawView(m, loading, n)[p] < RawView(m, loading, n)[q]
  {
    if n == 0 { return; }
    RawViewHolds(m, loading, n - 1);
    var r := RawView(m, loading, n - 1);
    forall p | 0 <= p < |r| ensures r[p] <= n - 1 { assert r[p] in r; }
  }

  /** Nothing is hidden but what an applied block represents. */
  lemma HiddenIsRepresented(chunks: seq<Chunk>, x: int)
    requires Representing(chunks)
    ensures Hidden(chunks, x) <==> Represented(chunks, x)
    ensures Hidden(chunks, x) <==> CoveredRaw(chunks, x)
  {
    if Represented(chunks, x) {
      var i :| 0 <= i < |chunks| && chunks[i].status == Applied && In(chunks[i], x);
      assert Covering(chunks[i]) && In(chunks[i], x);
    }
  }

  ghost predicate InBlock(blocks: seq<Chunk>, x: int) { exists b :: 0 <= b < |blocks| && In(blocks[b], x) }

  lemma BlocksHold(m: Memory, x: int)
    ensures InBlock(Blocks(m), x) <==> Represented(m.chunks, x)
  {
    var blocks := Blocks(m);
    InOrderHolds(m.chunks, 0);
    if InBlock(blocks, x) {
      var b :| 0 <= b < |blocks| && In(blocks[b], x);
      assert blocks[b] in blocks;
      var i :| 0 <= i < |m.chunks| && m.chunks[i] == blocks[b];
      assert m.chunks[i].status == Applied && In(m.chunks[i], x);
    }
    if Represented(m.chunks, x) {
      var i :| 0 <= i < |m.chunks| && m.chunks[i].status == Applied && In(m.chunks[i], x);
      assert m.chunks[i] in m.chunks && AppliedIn(m.chunks[i], 0);
      var b :| 0 <= b < |blocks| && blocks[b] == m.chunks[i];
    }
  }

  /** On every run, each record of the journal (apart from the loading input's
      own) is sent raw, or lies in exactly one block; never both. */
  lemma EachRecordOnce(steps: seq<Step>, loading: Option<InputId>, x: int)
    requires var m := Exec(steps); 1 <= x <= |m.log| && !Excluded(m.log[x - 1], loading)
    ensures var m := Exec(steps);
            var raw, blocks := RawView(m, loading, |m.log|), Blocks(m);
            && (x in raw <==> !InBlock(blocks, x))
            && (forall b, c :: 0 <= b < |blocks| && 0 <= c < |blocks| && In(blocks[b], x) && In(blocks[c], x) ==> b == c)
  {
    hide Inv;
    RunKeeps(steps);
    OnceIn(Exec(steps), loading, x);
  }

  lemma OnceIn(m: Memory, loading: Option<InputId>, x: int)
    requires Inv(m) && 1 <= x <= |m.log| && !Excluded(m.log[x - 1], loading)
    ensures var raw, blocks := RawView(m, loading, |m.log|), Blocks(m);
            && (x in raw <==> !InBlock(blocks, x))
            && (forall b, c :: 0 <= b < |blocks| && 0 <= c < |blocks| && In(blocks[b], x) && In(blocks[c], x) ==> b == c)
  {
    hide Formed;
    RawViewHolds(m, loading, |m.log|);
    HiddenIsRepresented(m.chunks, x);
    BlocksHold(m, x);
    BlocksApart(m);
  }

  lemma BlocksApart(m: Memory)
    requires Inv(m)
    ensures Separated(Blocks(m))
  {
    InOrder(|m.log|, m.chunks, 0);
  }

  /** On every run: applied ranges are disjoint, they cover what applied and
      superseded ranges cover together, and layer 1 has no gap. */
  lemma ChunksPartition(steps: seq<Step>)
    ensures var m := Exec(steps);
            && AppliedApart(m.chunks)
            && (forall x :: Represented(m.chunks, x) <==> Hidden(m.chunks, x))
            && (forall x :: 1 <= x <= Covered(m.chunks) ==> SealedAt(m.chunks, x))
            && RawDisjoint(m.chunks)
  {
    var m := Exec(steps);
    RunKeeps(steps);
    forall x ensures Represented(m.chunks, x) <==> Hidden(m.chunks, x) { HiddenIsRepresented(m.chunks, x); }
  }

  // ------------------------------------------------------------------ its size

  function AppliedTotal(chunks: seq<Chunk>): nat {
    if chunks == [] then 0
    else
      var n := |chunks| - 1;
      AppliedTotal(chunks[..n]) + if chunks[n].status == Applied then chunks[n].shrunk else 0
  }

  /** The estimate memoryStatus reports: live raw plus applied tokens. */
  function Size(chunks: seq<Chunk>): nat { RawTokens(chunks) + AppliedTotal(chunks) }

  function Estimate(m: Memory): nat { SumTokens(Tail(m)) + Size(m.chunks) }

  function Weight(c: Chunk): int { (if Raw(c) then c.tokens else 0) + (if c.status == Applied then c.shrunk else 0) }

  lemma {:induction false} SizeUpdate(a: seq<Chunk>, i: nat, c: Chunk)
    requires i < |a|
    ensures Size(a[i := c]) == Size(a) - Weight(a[i]) + Weight(c)
  {
    var n := |a| - 1;
    var b := a[i := c];
    if i == n {
      assert b[..n] == a[..n];
    } else {
      assert b[..n] == a[..n][i := c];
      SizeUpdate(a[..n], i, c);
    }
  }

  lemma ApplyOneShrinks(n: nat, a: seq<Chunk>, i: nat)
    requires Formed(n, a) && i < |a| && a[i].layer == 1 && a[i].status == Prepared
    ensures Size(Marked(a, i, Applied)) < Size(a)
  {
    SizeUpdate(a, i, a[i].(status := Applied));
  }

  /** No chunk of `b` is newly applied. */
  ghost predicate NoneNew(a: seq<Chunk>, b: seq<Chunk>) {
    |a| == |b| && forall i :: 0 <= i < |a| && b[i].status == Applied ==> a[i].status == Applied
  }

  /** The size went down, or nothing was applied and it did not go up. */
  ghost predicate Shrank(a: seq<Chunk>, b: seq<Chunk>) {
    Size(b) < Size(a) || (Size(b) == Size(a) && NoneNew(a, b))
  }

  lemma {:induction false} ApplyRawShrinks(n: nat, a: seq<Chunk>, live: int, i: nat)
    requires Formed(n, a) && Representing(a) && i <= |a|
    ensures Shrank(a, ApplyRaw(a, live, i))
    decreases |a| - i
  {
    hide Formed, Representing, Size;
    if i == |a| { return; }
    if live > LIVE_LIMIT && a[i].layer == 1 && a[i].status == Prepared {
      ApplyOneKeeps(n, a, i);
      ApplyOneShrinks(n, a, i);
      ApplyRawShrinks(n, Marked(a, i, Applied), live - a[i].tokens, i + 1);
      return;
    }
    ApplyRawShrinks(n, a, live, i + 1);
  }

  lemma {:induction false} SourcesDistinct(a: seq<Chunk>, n: nat, t: Chunk, j: nat, k: nat)
    requires Shaped(n, a) && Sourced(a, t) && j < k < |t.sources|
    ensures At(a, t.sources[j]).last < At(a, t.sources[k]).first
  {
    assert At(a, t.sources[k]).first == At(a, t.sources[k - 1]).last + 1;
    if j < k - 1 { SourcesDistinct(a, n, t, j, k - 1); }
  }

  /** The k-th source is applied and none of the ones before it. */
  lemma SourceLives(n: nat, a: seq<Chunk>, i: nat, k: nat)
    requires Installable(n, a, i) && k < |a[i].sources|
    ensures LiveAt(a, a[i].sources, k)
  {
    var t := a[i];
    assert Sourced(a, t);
    assert LiveSource(a, t.sources[k], SourceLayer(a, t));
    forall j | 0 <= j < k ensures t.sources[j] != t.sources[k] { SourcesDistinct(a, n, t, j, k); }
  }

  ghost predicate LiveAt(a: seq<Chunk>, sources: seq<nat>, k: nat)
    requires k < |sources|
  {
    Find(a, sources[k]).Some? && At(a, sources[k]).status == Applied && sources[k] !in sources[..k]
  }

  lemma SupersedeOne(a: seq<Chunk>, sources: seq<nat>, k: nat)
    requires Ordered(a) && k < |sources| && LiveAt(a, sources, k)
    ensures var f := Find(a, sources[k]).value;
            && SupersedeAll(a, sources[..k])[f] == a[f]
            && SupersedeAll(a, sources[..k + 1]) == Marked(SupersedeAll(a, sources[..k]), f, Superseded)
  {
    var f := Find(a, sources[k]).value;
    var x, y := SupersedeAll(a, sources[..k + 1]), Marked(SupersedeAll(a, sources[..k]), f, Superseded);
    assert sources[..k + 1] == sources[..k] + [sources[k]];
    forall j | 0 <= j < |a| ensures x[j] == y[j] {
      if j != f { FindUnique(a, j); }
    }
  }

  /** Superseding the first `k` sources takes their replacements out. */
  lemma {:induction false} SupersedeShrinks(a: seq<Chunk>, sources: seq<nat>, k: nat)
    requires Ordered(a) && k <= |sources|
    requires forall j :: 0 <= j < |sources| ==> Find(a, sources[j]).Some?
    requires forall j :: 0 <= j < |sources| ==> LiveAt(a, sources, j)
    ensures Size(SupersedeAll(a, sources[..k])) == Size(a) - Shrunk(Sources(a, sources)[..k])
  {
    hide Size, Ordered;
    var srcs := Sources(a, sources);
    if k == 0 {
      assert SupersedeAll(a, sources[..0]) == a;
      return;
    }
    SupersedeShrinks(a, sources, k - 1);
    assert srcs[..k][..k - 1] == srcs[..k - 1];
    var before, f := SupersedeAll(a, sources[..k - 1]), Find(a, sources[k - 1]).value;
    assert LiveAt(a, sources, k - 1);
    SupersedeOne(a, sources, k - 1);
    SizeUpdate(before, f, before[f].(status := Superseded));
  }

  lemma InstallShrinks(n: nat, a: seq<Chunk>, i: nat)
    requires Installable(n, a, i)
    ensures Size(Install(a, i)) < Size(a)
  {
    hide Size;
    var t := a[i];
    assert Sourced(a, t);
    var k := |t.sources|;
    assert t.sources[..k] == t.sources && Sources(a, t.sources)[..k] == Sources(a, t.sources);
    forall j | 0 <= j < k ensures LiveAt(a, t.sources, j) { SourceLives(n, a, i, j); }
    SupersedeShrinks(a, t.sources, k);
    var before := SupersedeAll(a, t.sources);
    InstallShape(n, a, i);
    assert before[i] == t;
    SizeUpdate(before, i, t.(status := Applied));
  }

  lemma SettleTargetShrinks(n: nat, a: seq<Chunk>, i: nat)
    requires Formed(n, a) && Representing(a) && i < |a|
    ensures Shrank(a, SettleTarget(a, i))
  {
    hide Formed, Representing, Install, AppliedTokens, Size;
    var t := a[i];
    if t.layer < 2 || t.status != Prepared { return; }
    LayerIsTwo(n, a, i);
    if Stale(a, t) {
      SizeUpdate(a, i, t.(status := Failed));
      return;
    }
    if AppliedTokens(a, SourceLayer(a, t)) <= LimitOf(SourceLayer(a, t)) { return; }
    InstallShrinks(n, a, i);
  }

  lemma {:induction false} SettleTargetsShrink(n: nat, a: seq<Chunk>, i: nat)
    requires Formed(n, a) && Representing(a) && i <= |a|
    ensures Shrank(a, SettleTargets(a, i))
    decreases |a| - i
  {
    hide Formed, Representing, SettleTarget, Size;
    if i == |a| { return; }
    SettleTargetShrinks(n, a, i);
    SettleTargetKeeps(n, a, i);
    SettleTargetsShrink(n, SettleTarget(a, i), i + 1);
  }

  // ----------------------------------------------------- what the estimate means

  /** A sealed layer-1 chunk weighs what its records do. */
  ghost predicate WeighsRecords(m: Memory) {
    forall i :: 0 <= i < |m.chunks| && m.chunks[i].layer == 1 ==>
      && 0 < m.chunks[i].first <= m.chunks[i].last <= |m.log|
      && m.chunks[i].tokens == SumTokens(m.log[m.chunks[i].first - 1..m.chunks[i].last])
  }

  /** The tokens of the first `n` records that render raw. */
  function RawSum(m: Memory, n: nat): nat
    requires n <= |m.log|
  {
    if n == 0 then 0 else RawSum(m, n - 1) + if Hidden(m.chunks, n) then 0 else m.log[n - 1].tokens
  }

  lemma {:induction false} RangeSum(m: Memory, lo: nat, hi: nat)
    requires lo <= hi <= |m.log|
    requires forall x, y :: lo < x <= hi && lo < y <= hi ==> Hidden(m.chunks, x) == Hidden(m.chunks, y)
    ensures RawSum(m, hi) == RawSum(m, lo) + if lo < hi && !Hidden(m.chunks, hi) then SumTokens(m.log[lo..hi]) else 0
  {
    if lo == hi { return; }
    RangeSum(m, lo, hi - 1);
    assert m.log[lo..hi][..hi - 1 - lo] == m.log[lo..hi - 1];
    if hi - 1 > lo {
      assert Hidden(m.chunks, hi - 1) == Hidden(m.chunks, hi);
    } else {
      assert m.log[lo..hi - 1] == [];
    }
  }

  /** The last record of the first `k` chunks' layer 1. */
  function RawEnd(chunks: seq<Chunk>, k: nat): int
    requires k <= |chunks|
  {
    if k == 0 then 0 else if chunks[k - 1].layer == 1 then chunks[k - 1].last else RawEnd(chunks, k - 1)
  }

  lemma {:induction false} RawEndBounds(n: nat, chunks: seq<Chunk>, k: nat)
    requires k <= |chunks| && Shaped(n, chunks) && RawDisjoint(chunks)
    ensures 0 <= RawEnd(chunks, k) <= n
    ensures forall j :: 0 <= j < k && chunks[j].layer == 1 ==> chunks[j].last <= RawEnd(chunks, k)
    ensures RawEnd(chunks, k) == 0 || exists j :: 0 <= j < k && chunks[j].layer == 1 && chunks[j].last == RawEnd(chunks, k)
  {
    if k == 0 { return; }
    RawEndBounds(n, chunks, k - 1);
  }

  /** Layer-1 chunks follow one another without a gap. */
  lemma NextStarts(n: nat, chunks: seq<Chunk>, k: nat)
    requires k < |chunks| && Shaped(n, chunks) && RawDisjoint(chunks) && NoGap(chunks) && chunks[k].layer == 1
    ensures chunks[k].first == RawEnd(chunks, k) + 1
  {
    hide RawEnd, Covered;
    RawEndBounds(n, chunks, k);
    StartsAfter(n, chunks, k);
    var x := RawEnd(chunks, k) + 1;
    assert SealedAt(chunks, x);
    var i :| 0 <= i < |chunks| && chunks[i].layer == 1 && In(chunks[i], x);
    assert i >= k;
    assert i == k || chunks[k].last < chunks[i].first;
  }

  lemma StartsAfter(n: nat, chunks: seq<Chunk>, k: nat)
    requires k < |chunks| && Shaped(n, chunks) && RawDisjoint(chunks) && chunks[k].layer == 1
    ensures 1 <= RawEnd(chunks, k) + 1 <= chunks[k].first <= Covered(chunks)
  {
    RawEndBounds(n, chunks, k);
  }

  /** A layer-1 chunk's records are all hidden or all raw. */
  lemma ChunkUniform(chunks: seq<Chunk>, k: nat, x: int)
    requires k < |chunks| && RawDisjoint(chunks) && Representing(chunks) && chunks[k].layer == 1 && In(chunks[k], x)
    ensures Hidden(chunks, x) <==> Covering(chunks[k])
  {
    HiddenIsRepresented(chunks, x);
    if CoveredRaw(chunks, x) {
      var i :| 0 <= i < |chunks| && chunks[i].layer == 1 && Covering(chunks[i]) && In(chunks[i], x);
      assert i == k;
    }
  }

  lemma ChunkSum(m: Memory, k: nat)
    requires Inv(m) && WeighsRecords(m) && k < |m.chunks| && m.chunks[k].layer == 1
    ensures var c := m.chunks[k];
            && 0 < c.first <= c.last <= |m.log|
            && RawSum(m, c.last) == RawSum(m, c.first - 1) + if Raw(c) then c.tokens else 0
  {
    hide RawSum, Hidden, SumTokens, Representing, Formed;
    var c := m.chunks[k];
    RawIsDisjoint(m);
    forall x | c.first <= x <= c.last ensures Hidden(m.chunks, x) <==> Covering(c) { ChunkUniform(m.chunks, k, x); }
    RangeSum(m, c.first - 1, c.last);
  }

  lemma RawIsDisjoint(m: Memory)
    requires Inv(m)
    ensures RawDisjoint(m.chunks) && Shaped(|m.log|, m.chunks) && NoGap(m.chunks)
  {
  }

  lemma {:induction false} RawSumUpTo(m: Memory, k: nat)
    requires Inv(m) && WeighsRecords(m) && k <= |m.chunks|
    ensures 0 <= RawEnd(m.chunks, k) <= |m.log|
    ensures RawSum(m, RawEnd(m.chunks, k)) == RawTokens(m.chunks[..k])
  {
    hide Inv, WeighsRecords, RawDisjoint, Shaped, NoGap, Hidden;
    RawIsDisjoint(m);
    RawEndBounds(|m.log|, m.chunks, k);
    if k == 0 { return; }
    RawSumUpTo(m, k - 1);
    assert m.chunks[..k][..k - 1] == m.chunks[..k - 1];
    if m.chunks[k - 1].layer != 1 { return; }
    NextStarts(|m.log|, m.chunks, k - 1);
    ChunkSum(m, k - 1);
  }

  lemma RawEndIsCovered(m: Memory)
    requires Inv(m)
    ensures RawEnd(m.chunks, |m.chunks|) == Covered(m.chunks)
  {
    RawEndBounds(|m.log|, m.chunks, |m.chunks|);
    if Covered(m.chunks) > 0 {
      assert SealedAt(m.chunks, Covered(m.chunks));
    }
  }

  /** The reported estimate is exactly the tokens of the records sent raw plus
      the sizes of the blocks sent. */
  lemma EstimateIsWhatIsSent(m: Memory)
    requires Inv(m) && WeighsRecords(m)
    ensures Estimate(m) == RawSum(m, |m.log|) + AppliedTotal(m.chunks)
  {
    hide Inv, WeighsRecords, Hidden, SumTokens;
    RawSumUpTo(m, |m.chunks|);
    RawEndIsCovered(m);
    assert m.chunks[..|m.chunks|] == m.chunks;
    TailIsRaw(m);
  }

  lemma TailIsRaw(m: Memory)
    requires Inv(m)
    ensures Covered(m.chunks) <= |m.log|
    ensures RawSum(m, |m.log|) == RawSum(m, Covered(m.chunks)) + SumTokens(Tail(m))
  {
    hide Inv, RawSum;
    CoveredFits(m);
    var covered := Covered(m.chunks);
    assert forall x :: covered < x ==> !Hidden(m.chunks, x);
    RangeSum(m, covered, |m.log|);
    assert m.log[covered..|m.log|] == m.log[covered..];
  }

  // ------------------------------------------------------- one maintenance pass

  lemma SameShapeTransitive(a: seq<Chunk>, b: seq<Chunk>, c: seq<Chunk>)
    requires SameShape(a, b) && SameShape(b, c)
    ensures SameShape(a, c)
  {
    forall i | 0 <= i < |a| ensures SameChunk(a[i], c[i]) { assert SameChunk(a[i], b[i]) && SameChunk(b[i], c[i]); }
  }

  lemma {:induction false} ApplyRawShape(a: seq<Chunk>, live: int, i: nat)
    requires i <= |a|
    ensures SameShape(a, ApplyRaw(a, live, i))
    decreases |a| - i
  {
    if i == |a| { return; }
    if live > LIVE_LIMIT && a[i].layer == 1 && a[i].status == Prepared {
      ApplyRawShape(Marked(a, i, Applied), live - a[i].tokens, i + 1);
      SameShapeTransitive(a, Marked(a, i, Applied), ApplyRaw(a, live, i));
      return;
    }
    ApplyRawShape(a, live, i + 1);
  }

  lemma SettleTargetShape(n: nat, a: seq<Chunk>, i: nat)
    requires Formed(n, a) && Representing(a) && i < |a|
    ensures SameShape(a, SettleTarget(a, i))
  {
    hide Formed, Representing, Install, AppliedTokens;
    var t := a[i];
    if t.layer < 2 || t.status != Prepared || Stale(a, t) { return; }
    if AppliedTokens(a, SourceLayer(a, t)) <= LimitOf(SourceLayer(a, t)) { return; }
    LayerIsTwo(n, a, i);
    InstallShape(n, a, i);
  }

  lemma {:induction false} SettleTargetsShape(n: nat, a: seq<Chunk>, i: nat)
    requires Formed(n, a) && Representing(a) && i <= |a|
    ensures SameShape(a, SettleTargets(a, i))
    decreases |a| - i
  {
    hide Formed, Representing, SettleTarget;
    if i == |a| { return; }
    SettleTargetShape(n, a, i);
    SettleTargetKeeps(n, a, i);
    SettleTargetsShape(n, SettleTarget(a, i), i + 1);
    SameShapeTransitive(a, SettleTarget(a, i), SettleTargets(a, i));
  }

  lemma {:induction false} SumSplit(es: seq<Entry>, k: nat)
    requires k <= |es|
    ensures SumTokens(es) == SumTokens(es[..k]) + SumTokens(es[k..])
  {
    if k == |es| {
      assert es[..k] == es && es[k..] == [];
      return;
    }
    var n := |es| - 1;
    SumSplit(es[..n], k);
    assert es[..n][..k] == es[..k];
    assert es[..n][k..] == es[k..][..n - k];
  }

  lemma SizeSnoc(a: seq<Chunk>, c: Chunk)
    ensures Size(a + [c]) == Size(a) + Weight(c)
  {
    assert (a + [c])[..|a|] == a;
  }

  lemma NothingSealed(tail: seq<Entry>, cuts: seq<Window>, start: nat)
    requires Tiled(cuts, start) && cuts == [] && start <= |tail|
    ensures SumTokens(tail[..start]) == 0
  {
  }

  lemma TiledInit(tail: seq<Entry>, cuts: seq<Window>, start: nat)
    requires Tiled(cuts, start) && Weighed(tail, cuts) && cuts != []
    ensures var n := |cuts| - 1;
            && Tiled(cuts[..n], cuts[n].lo) && Weighed(tail, cuts[..n])
            && cuts[n].hi == start && cuts[n].lo <= start && cuts[n].tokens == SumTokens(tail[cuts[n].lo..cuts[n].hi])
  {
  }

  /** Sealing moves tokens from the tail to the chunks and loses none. */
  lemma {:induction false} SealSize(a: seq<Chunk>, tail: seq<Entry>, cuts: seq<Window>, start: nat, base: nat, num: nat)
    requires Tiled(cuts, start) && Weighed(tail, cuts) && start <= |tail|
    ensures Size(a + SealedChunks(cuts, base, num)) == Size(a) + SumTokens(tail[..start])
  {
    hide Size, SumTokens, Tiled, Weighed;
    var more := SealedChunks(cuts, base, num);
    if cuts == [] {
      NothingSealed(tail, cuts, start);
      assert a + more == a;
      return;
    }
    var n := |cuts| - 1;
    var init, w := cuts[..n], cuts[n];
    TiledInit(tail, cuts, start);
    SealSize(a, tail, init, w.lo, base, num);
    assert SealedChunks(init, base, num) == more[..n];
    assert a + more == (a + more[..n]) + [more[n]];
    SizeSnoc(a + more[..n], more[n]);
    SumWindow(tail, w.lo, start);
  }

  lemma SumWindow(tail: seq<Entry>, lo: nat, hi: nat)
    requires lo <= hi <= |tail|
    ensures SumTokens(tail[..hi]) == SumTokens(tail[..lo]) + SumTokens(tail[lo..hi])
  {
    SumSplit(tail[..hi], lo);
    assert tail[..hi][..lo] == tail[..lo] && tail[..hi][lo..] == tail[lo..hi];
  }

  lemma SealCovered(a: seq<Chunk>, cuts: seq<Window>, start: nat, num: nat)
    requires Tiled(cuts, start)
    ensures Covered(a + SealedChunks(cuts, Covered(a), num)) == Covered(a) + start
  {
    hide Covered, SealedChunks;
    var more := SealedChunks(cuts, Covered(a), num);
    var b := a + more;
    forall c | 0 <= c < |cuts| ensures cuts[c].hi <= start { TiledUnder(cuts, start, c); }
    if cuts == [] {
      assert b == a;
    } else {
      assert b[|b| - 1] == more[|cuts| - 1];
    }
  }

  /** Sealing changes no estimate. */
  lemma SealKeepsEstimate(m: Memory)
    requires Inv(m)
    ensures Estimate(SealTail(m)) == Estimate(m)
    ensures SumTokens(Tail(SealTail(m))) == SealWalk(Tail(m)).tokens
  {
    hide Inv, Size, SealWalk, Tiled, Weighed, Whole, SumTokens, Covered, NextNum, SealedChunks;
    CoveredFits(m);
    SealedWindows(Tail(m));
    var w, tail := SealWalk(Tail(m)), Tail(m);
    SealSize(m.chunks, tail, w.cuts, w.start, Covered(m.chunks), NextNum(m.chunks));
    SealCovered(m.chunks, w.cuts, w.start, NextNum(m.chunks));
    SumSplit(tail, w.start);
    assert Tail(SealTail(m)) == tail[w.start..];
  }

  lemma CreateKeepsEstimate(n: nat, a: seq<Chunk>)
    requires Formed(n, a) && Representing(a)
    ensures Size(CreateTarget(a)) == Size(a) && Covered(CreateTarget(a)) == Covered(a)
    ensures |a| <= |CreateTarget(a)| && CreateTarget(a)[..|a|] == a
    ensures forall i :: |a| <= i < |CreateTarget(a)| ==> CreateTarget(a)[i].layer == 2
  {
    hide Formed, Representing, Size, RunOf, Covered;
    if Busy(a) { return; }
    if RunOf(a, 1).Some? { RunKeepsEstimate(n, a, 1); return; }
    if RunOf(a, 2).Some? { RunKeepsEstimate(n, a, 2); }
  }

  lemma RunKeepsEstimate(n: nat, a: seq<Chunk>, layer: nat)
    requires Formed(n, a) && RunOf(a, layer).Some?
    ensures var b := a + [TargetFor(a, RunOf(a, layer).value)]; Size(b) == Size(a) && Covered(b) == Covered(a) && b[..|a|] == a
  {
    hide RunOf, Formed, GoodRun, Sourced;
    RunOfIsGood(a, layer);
    OrderedShaped(n, a);
    TargetSourced(a, RunOf(a, layer).value);
    TargetWeighsNothing(n, a, TargetFor(a, RunOf(a, layer).value));
  }

  lemma OrderedShaped(n: nat, a: seq<Chunk>)
    requires Formed(n, a)
    ensures Ordered(a) && Shaped(n, a)
  {
  }

  /** A sealed target inside what is covered changes no estimate. */
  lemma TargetWeighsNothing(n: nat, a: seq<Chunk>, t: Chunk)
    requires Shaped(n, a) && Sourced(a, t) && t.layer == 2 && t.status == Sealed
    ensures Size(a + [t]) == Size(a) && Covered(a + [t]) == Covered(a) && (a + [t])[..|a|] == a
  {
    hide Size;
    TargetWithin(n, a, t);
    SizeSnoc(a, t);
    assert (a + [t])[..|a|] == a;
  }

  /** Applying, settling and creating: the estimate only goes down. */
  lemma PassShrinks(n: nat, a: seq<Chunk>, live: int)
    requires Formed(n, a) && Representing(a)
    ensures var b := CreateTarget(SettleTargets(ApplyRaw(a, live, 0), 0));
            && Covered(b) == Covered(a) && |a| <= |b| && Shrank(a, b[..|a|]) && Size(b) == Size(b[..|a|])
  {
    hide Formed, Representing, Size, ApplyRaw, SettleTargets, CreateTarget, Covered;
    var applied := ApplyRaw(a, live, 0);
    ApplyRawKeeps(n, a, live, 0);
    ApplyRawShrinks(n, a, live, 0);
    ApplyRawShape(a, live, 0);
    var settled := SettleTargets(applied, 0);
    SettleTargetsKeeps(n, applied, 0);
    SettleTargetsShrink(n, applied, 0);
    SettleTargetsShape(n, applied, 0);
    CreateKeepsEstimate(n, settled);
    CoveredSame(a, applied);
    CoveredSame(applied, settled);
  }

  /** A maintenance pass never raises the estimate of what is sent, and lowers it
      strictly whenever it applies anything. */
  lemma MaintainShrinks(m: Memory)
    requires Inv(m)
    ensures Estimate(Maintain(m)) <= Estimate(m)
    ensures |m.chunks| <= |Maintain(m).chunks|
    ensures (exists i :: 0 <= i < |m.chunks| && Maintain(m).chunks[i].status == Applied && m.chunks[i].status != Applied)
            ==> Estimate(Maintain(m)) < Estimate(m)
  {
    hide Formed, Representing, Size, SealWalk, ApplyRaw, SettleTargets, CreateTarget, Covered, SumTokens, RawTokens;
    SealKeeps(m);
    SealKeepsEstimate(m);
    var sealed := SealTail(m);
    var live := SealWalk(Tail(m)).tokens + RawTokens(sealed.chunks);
    PassShrinks(|m.log|, sealed.chunks, live);
    var after := Maintain(m).chunks;
    assert Tail(Maintain(m)) == Tail(sealed);
    if i :| 0 <= i < |m.chunks| && after[i].status == Applied && m.chunks[i].status != Applied {
      assert sealed.chunks[i] == m.chunks[i];
      assert after[..|sealed.chunks|][i] == after[i];
    }
  }

  // ------------------------------------------------------------------- every run

  lemma NewChunkWeighs(m: Memory, c: nat)
    requires Inv(m) && c < |SealWalk(Tail(m)).cuts|
    ensures var w := SealWalk(Tail(m)).cuts[c];
            var base := Covered(m.chunks);
            w.lo < w.hi && base + w.hi <= |m.log| && w.tokens == SumTokens(m.log[base + w.lo..base + w.hi])
  {
    hide Inv, SealWalk, SumTokens, Whole, Covered;
    CoveredFits(m);
    SealedWindows(Tail(m));
    var w, base := SealWalk(Tail(m)).cuts[c], Covered(m.chunks);
    assert m.log[base + w.lo..base + w.hi] == Tail(m)[w.lo..w.hi];
  }

  lemma SealWeighs(m: Memory)
    requires Inv(m) && WeighsRecords(m)
    ensures WeighsRecords(SealTail(m))
  {
    hide Inv, SealWalk, SumTokens, Covered, NextNum;
    var m', n := SealTail(m), |m.chunks|;
    forall i | 0 <= i < |m'.chunks| && m'.chunks[i].layer == 1
      ensures 0 < m'.chunks[i].first <= m'.chunks[i].last <= |m'.log|
      ensures m'.chunks[i].tokens == SumTokens(m'.log[m'.chunks[i].first - 1..m'.chunks[i].last])
    {
      if i < n {
        assert m'.chunks[i] == m.chunks[i];
      } else {
        NewChunkWeighs(m, i - n);
      }
    }
  }

  lemma ShapeWeighs(m: Memory, b: seq<Chunk>)
    requires WeighsRecords(m) && |m.chunks| <= |b| && SameShape(m.chunks, b[..|m.chunks|])
    requires forall i :: |m.chunks| <= i < |b| ==> b[i].layer == 2
    ensures WeighsRecords(m.(chunks := b))
  {
    hide SumTokens;
    var n := |m.chunks|;
    forall i | 0 <= i < |b| && b[i].layer == 1 ensures i < n && SameChunk(m.chunks[i], b[i]) {
      assert b[..n][i] == b[i];
    }
  }

  lemma MaintainWeighs(m: Memory)
    requires Inv(m) && WeighsRecords(m)
    ensures WeighsRecords(Maintain(m))
  {
    hide Formed, Representing, Size, SealWalk, ApplyRaw, SettleTargets, CreateTarget, Covered, SumTokens, RawTokens, WeighsRecords;
    SealKeeps(m);
    SealWeighs(m);
    var sealed, n := SealTail(m), |m.log|;
    var live := SealWalk(Tail(m)).tokens + RawTokens(sealed.chunks);
    var applied := ApplyRaw(sealed.chunks, live, 0);
    ApplyRawKeeps(n, sealed.chunks, live, 0);
    ApplyRawShape(sealed.chunks, live, 0);
    var settled := SettleTargets(applied, 0);
    SettleTargetsKeeps(n, applied, 0);
    SettleTargetsShape(n, applied, 0);
    SameShapeTransitive(sealed.chunks, applied, settled);
    CreateKeepsEstimate(n, settled);
    ShapeWeighs(sealed, CreateTarget(settled));
  }

  lemma StepWeighs(m: Memory, step: Step)
    requires Inv(m) && WeighsRecords(m)
    ensures WeighsRecords(Apply(m, step))
  {
    hide Inv, Maintain, SumTokens;
    match step {
      case Maintained => MaintainWeighs(m);
      case Journaled(entries) =>
        var log := m.log + entries;
        forall i | 0 <= i < |m.chunks| && m.chunks[i].layer == 1
          ensures log[m.chunks[i].first - 1..m.chunks[i].last] == m.log[m.chunks[i].first - 1..m.chunks[i].last] {
        }
      case _ =>
    }
  }

  lemma {:induction false} RunWeighs(steps: seq<Step>)
    ensures WeighsRecords(Exec(steps))
  {
    hide WeighsRecords, Inv, Apply;
    if steps == [] { assert WeighsRecords(Memory([], [])) by { EmptyWeighs(); } return; }
    RunKeeps(steps[..|steps| - 1]);
    RunWeighs(steps[..|steps| - 1]);
    StepWeighs(Exec(steps[..|steps| - 1]), steps[|steps| - 1]);
  }

  lemma EmptyWeighs()
    ensures WeighsRecords(Memory([], []))
  {
  }

  /** On every run the estimate is exactly what is sent, and a maintenance pass
      that applies anything sends strictly less. */
  lemma ApplyingShrinksTheView(steps: seq<Step>)
    ensures var m := Exec(steps);
            var m' := Maintain(m);
            && |m.chunks| <= |m'.chunks|
            && RawSum(m', |m'.log|) + AppliedTotal(m'.chunks) <= RawSum(m, |m.log|) + AppliedTotal(m.chunks)
            && ((exists i :: 0 <= i < |m.chunks| && m'.chunks[i].status == Applied && m.chunks[i].status != Applied) ==>
                  RawSum(m', |m'.log|) + AppliedTotal(m'.chunks) < RawSum(m, |m.log|) + AppliedTotal(m.chunks))
  {
    hide WeighsRecords, Inv, Maintain, RawSum, AppliedTotal, Estimate;
    var m := Exec(steps);
    RunKeeps(steps);
    RunWeighs(steps);
    MaintainKeeps(m);
    MaintainWeighs(m);
    MaintainShrinks(m);
    EstimateIsWhatIsSent(m);
    EstimateIsWhatIsSent(Maintain(m));
  }

  // ---------------------------------------------------------- applying suffices

  lemma {:induction false} RawUpdate(a: seq<Chunk>, i: nat, c: Chunk)
    requires i < |a|
    ensures RawTokens(a[i := c]) == RawTokens(a) - (if Raw(a[i]) then a[i].tokens else 0) + (if Raw(c) then c.tokens else 0)
  {
    var n := |a| - 1;
    var b := a[i := c];
    if i == n {
      assert b[..n] == a[..n];
    } else {
      assert b[..n] == a[..n][i := c];
      RawUpdate(a[..n], i, c);
    }
  }

  predicate Applicable(c: Chunk) { c.layer == 1 && c.status == Prepared }

  /** The pass stops only when the live estimate is within its limit or nothing
      prepared is left to apply. */
  lemma {:induction false} ApplyRawDrains(a: seq<Chunk>, rest: nat, i: nat)
    requires i <= |a| && forall k :: 0 <= k < i ==> !Applicable(a[k]) || rest + RawTokens(a) <= LIVE_LIMIT
    ensures var b := ApplyRaw(a, rest + RawTokens(a), i);
            |b| == |a| && (rest + RawTokens(b) <= LIVE_LIMIT || forall k :: 0 <= k < |b| ==> !Applicable(b[k]))
    decreases |a| - i
  {
    if i == |a| { return; }
    if rest + RawTokens(a) > LIVE_LIMIT && Applicable(a[i]) {
      RawUpdate(a, i, a[i].(status := Applied));
      ApplyRawDrains(Marked(a, i, Applied), rest, i + 1);
      return;
    }
    ApplyRawDrains(a, rest, i + 1);
  }
}
