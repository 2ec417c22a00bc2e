/** Layered memory of one persona: journal ranges are sealed into layer-1
    chunks, replaced by summaries, and runs of summaries are replaced by larger
    ones.  Every record stays represented exactly once. */
module Layers {
  import opened Common
  import opened Sealing
  import Pager

  const LIVE_LIMIT := 40_000
  const L1_LIMIT := 15_000
  const L1_DROP_TO := 11_000
  const L2_LIMIT := 10_000

  datatype Status = Sealed | Preparing | Prepared | Applied | Kept | Failed | Superseded

  type Text = seq<Pager.Byte>

  /** A chunk stands for the records `first..last`.  `shrunk` is the size of its
      replacement; layer-1 chunks have no sources. */
  datatype Chunk = Chunk(
    num: nat, layer: nat, sources: seq<nat>, first: int, last: int, tokens: nat,
    status: Status, replacement: Option<Text>, shrunk: nat)

  datatype Memory = Memory(log: seq<Entry>, chunks: seq<Chunk>)

  predicate In(c: Chunk, x: int) { c.first <= x <= c.last }

  predicate Covering(c: Chunk) { c.status == Applied || c.status == Superseded }

  function Covered(chunks: seq<Chunk>): (r: int)
    ensures r >= 0
    ensures forall i :: 0 <= i < |chunks| ==> chunks[i].last <= r
    ensures r == 0 || exists i :: 0 <= i < |chunks| && chunks[i].last == r
  {
    if chunks == [] then 0 else Max(Covered(chunks[..|chunks| - 1]), chunks[|chunks| - 1].last)
  }

  function NextNum(chunks: seq<Chunk>): (r: nat)
    ensures forall i :: 0 <= i < |chunks| ==> chunks[i].num < r
  {
    if chunks == [] then 1 else Max(NextNum(chunks[..|chunks| - 1]), chunks[|chunks| - 1].num + 1)
  }

  function Find(chunks: seq<Chunk>, num: nat): (k: Option<nat>)
    ensures k.Some? ==> k.value < |chunks| && chunks[k.value].num == num
    ensures k.None? ==> forall i :: 0 <= i < |chunks| ==> chunks[i].num != num
  {
    if chunks == [] then None
    else if chunks[|chunks| - 1].num == num then Some(|chunks| - 1)
    else Find(chunks[..|chunks| - 1], num)
  }

  // ------------------------------------------------------------------ sealing

  function SealedChunks(cuts: seq<Window>, base: nat, num: nat): (r: seq<Chunk>)
    ensures |r| == |cuts|
    ensures forall c :: 0 <= c < |cuts| ==>
              r[c] == Chunk(num + c, 1, [], base + cuts[c].lo + 1, base + cuts[c].hi, cuts[c].tokens, Sealed, None, 0)
  {
    seq(|cuts|, c requires 0 <= c < |cuts| =>
      Chunk(num + c, 1, [], base + cuts[c].lo + 1, base + cuts[c].hi, cuts[c].tokens, Sealed, None, 0))
  }

  /** The records after the last one any chunk covers. */
  function Tail(m: Memory): seq<Entry> {
    var covered := Covered(m.chunks);
    if covered <= |m.log| then m.log[covered..] else []
  }

  function SealTail(m: Memory): Memory {
    m.(chunks := m.chunks + SealedChunks(SealWalk(Tail(m)).cuts, Covered(m.chunks), NextNum(m.chunks)))
  }

  // ------------------------------------------------------- applying a summary

  predicate Raw(c: Chunk) { c.layer == 1 && !Covering(c) }

  function RawTokens(chunks: seq<Chunk>): nat {
    if chunks == [] then 0
    else RawTokens(chunks[..|chunks| - 1]) + if Raw(chunks[|chunks| - 1]) then chunks[|chunks| - 1].tokens else 0
  }

  function Marked(chunks: seq<Chunk>, i: nat, status: Status): seq<Chunk>
    requires i < |chunks|
  {
    chunks[i := chunks[i].(status := status)]
  }

  /** While the live raw estimate exceeds its limit, apply prepared layer-1
      chunks in chunk order, which is the order they were created in. */
  function ApplyRaw(chunks: seq<Chunk>, live: int, i: nat): seq<Chunk>
    requires i <= |chunks|
    decreases |chunks| - i
  {
    if i == |chunks| then chunks
    else if live > LIVE_LIMIT && chunks[i].layer == 1 && chunks[i].status == Prepared
    then ApplyRaw(Marked(chunks, i, Applied), live - chunks[i].tokens, i + 1)
    else ApplyRaw(chunks, live, i + 1)
  }

  function AppliedTokens(chunks: seq<Chunk>, layer: nat): nat {
    if chunks == [] then 0
    else
      var c := chunks[|chunks| - 1];
      AppliedTokens(chunks[..|chunks| - 1], layer) + if c.layer == layer && c.status == Applied then c.shrunk else 0
  }

  // ------------------------------------------------------- upper-layer targets

  predicate LiveSource(chunks: seq<Chunk>, num: nat, layer: nat) {
    var k := Find(chunks, num);
    k.Some? && chunks[k.value].status == Applied && chunks[k.value].layer == layer
  }

  function SourceLayer(chunks: seq<Chunk>, t: Chunk): nat {
    if t.sources == [] then 0
    else
      var k := Find(chunks, t.sources[0]);
      if k.Some? then chunks[k.value].layer else 0
  }

  predicate Stale(chunks: seq<Chunk>, t: Chunk) {
    var layer := SourceLayer(chunks, t);
    (layer != 1 && layer != 2) || exists k :: 0 <= k < |t.sources| && !LiveSource(chunks, t.sources[k], layer)
  }

  function LimitOf(layer: nat): int { if layer == 1 then L1_LIMIT else L2_LIMIT }

  function SupersedeAll(chunks: seq<Chunk>, sources: seq<nat>): (r: seq<Chunk>)
    ensures |r| == |chunks|
    ensures forall i :: 0 <= i < |chunks| ==>
              r[i] == if chunks[i].num in sources then chunks[i].(status := Superseded) else chunks[i]
  {
    seq(|chunks|, i requires 0 <= i < |chunks| =>
      if chunks[i].num in sources then chunks[i].(status := Superseded) else chunks[i])
  }

  /** Install the target at `i`: its sources are superseded in the same step. */
  function Install(chunks: seq<Chunk>, i: nat): (r: seq<Chunk>)
    requires i < |chunks|
    ensures |r| == |chunks|
  {
    Marked(SupersedeAll(chunks, chunks[i].sources), i, Applied)
  }

  function SettleTarget(chunks: seq<Chunk>, i: nat): (r: seq<Chunk>)
    requires i < |chunks|
    ensures |r| == |chunks|
  {
    var t := chunks[i];
    if t.layer < 2 || t.status != Prepared then chunks
    else if Stale(chunks, t) then Marked(chunks, i, Failed)
    else if AppliedTokens(chunks, SourceLayer(chunks, t)) <= LimitOf(SourceLayer(chunks, t)) then chunks
    else Install(chunks, i)
  }

  function SettleTargets(chunks: seq<Chunk>, i: nat): seq<Chunk>
    requires i <= |chunks|
    decreases |chunks| - i
  {
    if i == |chunks| then chunks else SettleTargets(SettleTarget(chunks, i), i + 1)
  }

  // -------------------------------------------------------- creating a target

  function Place(c: Chunk, s: seq<Chunk>): seq<Chunk> {
    if s == [] || c.first < s[0].first then [c] + s else [s[0]] + Place(c, s[1..])
  }

  /** The applied chunks of a layer (0: of every layer), by first record. */
  function AppliedInOrder(chunks: seq<Chunk>, layer: nat): seq<Chunk> {
    if chunks == [] then []
    else
      var n := |chunks| - 1;
      var rest := AppliedInOrder(chunks[..n], layer);
      if chunks[n].status == Applied && (layer == 0 || chunks[n].layer == layer) then Place(chunks[n], rest) else rest
  }

  predicate Busy(chunks: seq<Chunk>) {
    exists i :: 0 <= i < |chunks| && chunks[i].layer >= 2
                && (chunks[i].status == Sealed || chunks[i].status == Preparing || chunks[i].status == Prepared)
  }

  /** Where the contiguous run from `lo` ends once it has consumed enough. */
  function RunEnd(frags: seq<Chunk>, hi: nat, consumed: int, goal: int, whole: bool): (r: nat)
    requires 0 < hi <= |frags|
    ensures hi <= r <= |frags|
    ensures forall k :: hi <= k < r ==> frags[k].first == frags[k - 1].last + 1
    decreases |frags| - hi
  {
    if hi < |frags| && frags[hi].first == frags[hi - 1].last + 1 && (whole || consumed < goal)
    then RunEnd(frags, hi + 1, consumed + frags[hi].shrunk, goal, whole)
    else hi
  }

  function Nums(frags: seq<Chunk>): (r: seq<nat>)
    ensures |r| == |frags| && forall k :: 0 <= k < |frags| ==> r[k] == frags[k].num
  {
    seq(|frags|, k requires 0 <= k < |frags| => frags[k].num)
  }

  function Shrunk(frags: seq<Chunk>): nat {
    if frags == [] then 0 else Shrunk(frags[..|frags| - 1]) + frags[|frags| - 1].shrunk
  }

  /** A kept or failed verdict settles its exact source tuple. */
  predicate SettledTuple(chunks: seq<Chunk>, sources: seq<nat>) {
    exists i :: 0 <= i < |chunks| && chunks[i].layer >= 2 && chunks[i].sources == sources
                && (chunks[i].status == Kept || chunks[i].status == Failed)
  }

  /** The first contiguous run whose tuple is not settled. */
  function ChooseRun(chunks: seq<Chunk>, frags: seq<Chunk>, lo: nat, goal: int, whole: bool): (r: Option<seq<Chunk>>)
    requires lo <= |frags|
    ensures r.Some? ==> r.value != []
    decreases |frags| - lo
  {
    if lo == |frags| then None
    else
      var hi := RunEnd(frags, lo + 1, frags[lo].shrunk, goal, whole);
      if SettledTuple(chunks, Nums(frags[lo..hi])) then ChooseRun(chunks, frags, hi, goal, whole)
      else Some(frags[lo..hi])
  }

  function RunOf(chunks: seq<Chunk>, layer: nat): (r: Option<seq<Chunk>>)
    ensures r.Some? ==> r.value != []
  {
    var total := AppliedTokens(chunks, layer);
    if total <= LimitOf(layer) then None
    else ChooseRun(chunks, AppliedInOrder(chunks, layer), 0,
                   total - (if layer == 1 then L1_DROP_TO else L2_LIMIT), layer == 2)
  }

  function TargetFor(chunks: seq<Chunk>, run: seq<Chunk>): Chunk
    requires run != []
  {
    Chunk(NextNum(chunks), 2, Nums(run), run[0].first, run[|run| - 1].last, Shrunk(run), Sealed, None, 0)
  }

  /** One target in flight at a time: layer 1 first, then layer 2. */
  function CreateTarget(chunks: seq<Chunk>): seq<Chunk> {
    if Busy(chunks) then chunks
    else if RunOf(chunks, 1).Some? then chunks + [TargetFor(chunks, RunOf(chunks, 1).value)]
    else if RunOf(chunks, 2).Some? then chunks + [TargetFor(chunks, RunOf(chunks, 2).value)]
    else chunks
  }

  /** memoryMaintain: seal, apply, settle the targets, create the next one. */
  function Maintain(m: Memory): Memory {
    var sealed := SealTail(m);
    var live := SealWalk(Tail(m)).tokens + RawTokens(sealed.chunks);
    sealed.(chunks := CreateTarget(SettleTargets(ApplyRaw(sealed.chunks, live, 0), 0)))
  }

  // -------------------------------------------------------------------- runs

  /** What can happen to a persona's memory.  A branch claims a sealed chunk, or
      reopens a kept one, and settles it as prepared or kept. */
  datatype Step =
    | Journaled(entries: seq<Entry>)
    | Maintained
    | Claimed(i: nat)
    | Reopened(i: nat)
    | Shelved(i: nat, text: Text)
    | KeptRaw(i: nat)

  function Apply(m: Memory, step: Step): Memory {
    match step
    case Journaled(entries) => m.(log := m.log + entries)
    case Maintained => Maintain(m)
    case Claimed(i) =>
      if i < |m.chunks| && m.chunks[i].status == Sealed then m.(chunks := Marked(m.chunks, i, Preparing)) else m
    case Reopened(i) =>
      if i < |m.chunks| && m.chunks[i].status == Kept then m.(chunks := Marked(m.chunks, i, Sealed)) else m
    case Shelved(i, text) =>
      if i < |m.chunks| && m.chunks[i].status == Preparing && Pager.EstTokens(text) < m.chunks[i].tokens
      then m.(chunks := m.chunks[i := m.chunks[i].(status := Prepared, replacement := Some(text), shrunk := Pager.EstTokens(text))])
      else m
    case KeptRaw(i) =>
      if i < |m.chunks| && m.chunks[i].status == Preparing then m.(chunks := Marked(m.chunks, i, Kept)) else m
  }

  function Exec(steps: seq<Step>): Memory {
    if steps == [] then Memory([], []) else Apply(Exec(steps[..|steps| - 1]), steps[|steps| - 1])
  }

  // --------------------------------------------------------------- invariants

  /** Chunk numbers follow creation order. */
  ghost predicate Ordered(chunks: seq<Chunk>) {
    forall i, j :: 0 <= i < j < |chunks| ==> chunks[i].num < chunks[j].num
  }

  ghost predicate Shaped(n: nat, chunks: seq<Chunk>) {
    forall i :: 0 <= i < |chunks| ==>
      && 1 <= chunks[i].first <= chunks[i].last <= n
      && (chunks[i].layer == 1 || chunks[i].layer == 2)
  }

  ghost predicate RawDisjoint(chunks: seq<Chunk>) {
    forall i, j :: 0 <= i < j < |chunks| && chunks[i].layer == 1 && chunks[j].layer == 1 ==> chunks[i].last < chunks[j].first
  }

  ghost predicate SealedAt(chunks: seq<Chunk>, x: int) {
    exists i :: 0 <= i < |chunks| && chunks[i].layer == 1 && In(chunks[i], x)
  }

  /** Layer 1 leaves no gap before its last record. */
  ghost predicate NoGap(chunks: seq<Chunk>) {
    forall x :: 1 <= x <= Covered(chunks) ==> SealedAt(chunks, x)
  }

  function At(chunks: seq<Chunk>, num: nat): Chunk
    requires Find(chunks, num).Some?
  {
    chunks[Find(chunks, num).value]
  }

  /** A target's sources exist, cover its range without a gap, are represented,
      and weigh what the target weighs. */
  ghost predicate Sourced(chunks: seq<Chunk>, t: Chunk) {
    && t.sources != []
    && (forall k :: 0 <= k < |t.sources| ==> Find(chunks, t.sources[k]).Some? && Covering(At(chunks, t.sources[k])))
    && At(chunks, t.sources[0]).first == t.first
    && At(chunks, t.sources[|t.sources| - 1]).last == t.last
    && (forall k :: 0 < k < |t.sources| ==> At(chunks, t.sources[k]).first == At(chunks, t.sources[k - 1]).last + 1)
    && t.tokens == Shrunk(Sources(chunks, t.sources))
  }

  function Sources(chunks: seq<Chunk>, nums: seq<nat>): (r: seq<Chunk>)
    requires forall k :: 0 <= k < |nums| ==> Find(chunks, nums[k]).Some?
    ensures |r| == |nums| && forall k :: 0 <= k < |nums| ==> r[k] == At(chunks, nums[k])
  {
    seq(|nums|, k requires 0 <= k < |nums| => At(chunks, nums[k]))
  }

  ghost predicate AllSourced(chunks: seq<Chunk>) {
    forall i :: 0 <= i < |chunks| && chunks[i].layer == 2 ==> Sourced(chunks, chunks[i])
  }

  /** A replacement is smaller than what it replaces. */
  ghost predicate Shrinks(chunks: seq<Chunk>) {
    forall i :: 0 <= i < |chunks| && (chunks[i].status == Prepared || Covering(chunks[i])) ==> chunks[i].shrunk < chunks[i].tokens
  }

  /** Record `x` lies in an applied block. */
  ghost predicate Represented(chunks: seq<Chunk>, x: int) {
    exists i :: 0 <= i < |chunks| && chunks[i].status == Applied && In(chunks[i], x)
  }

  ghost predicate CoveredRaw(chunks: seq<Chunk>, x: int) {
    exists i :: 0 <= i < |chunks| && chunks[i].layer == 1 && Covering(chunks[i]) && In(chunks[i], x)
  }

  predicate Apart(a: Chunk, b: Chunk) { a.last < b.first || b.last < a.first }

  ghost predicate AppliedApart(chunks: seq<Chunk>) {
    forall i, j :: 0 <= i < j < |chunks| && chunks[i].status == Applied && chunks[j].status == Applied ==> Apart(chunks[i], chunks[j])
  }

  /** Applied blocks are disjoint, they hold exactly the records of the applied
      and superseded layer-1 chunks, and no superseded range is lost. */
  ghost predicate Representing(chunks: seq<Chunk>) {
    && AppliedApart(chunks)
    && (forall x :: Represented(chunks, x) <==> CoveredRaw(chunks, x))
    && (forall i, x :: 0 <= i < |chunks| && chunks[i].status == Superseded && In(chunks[i], x) ==> Represented(chunks, x))
  }

  ghost predicate Formed(n: nat, chunks: seq<Chunk>) {
    Ordered(chunks) && Shaped(n, chunks) && RawDisjoint(chunks) && NoGap(chunks) && AllSourced(chunks) && Shrinks(chunks)
  }

  ghost predicate Inv(m: Memory) { Formed(|m.log|, m.chunks) && Representing(m.chunks) }

  // ------------------------------------------------ changes that keep the shape

  /** The same chunks, some with a new status: what is represented stays so. */
  predicate SameChunk(a: Chunk, b: Chunk) {
    && b.num == a.num && b.layer == a.layer && b.sources == a.sources
    && b.first == a.first && b.last == a.last && b.tokens == a.tokens
    && (Covering(a) ==> Covering(b) && b.shrunk == a.shrunk)
  }

  ghost predicate SameShape(a: seq<Chunk>, b: seq<Chunk>) {
    |a| == |b| && forall i :: 0 <= i < |a| ==> SameChunk(a[i], b[i])
  }

  lemma {:induction false} FindSame(a: seq<Chunk>, b: seq<Chunk>, num: nat)
    requires SameShape(a, b)
    ensures Find(a, num) == Find(b, num)
  {
    if a != [] { FindSame(a[..|a| - 1], b[..|b| - 1], num); }
  }

  lemma {:induction false} CoveredSame(a: seq<Chunk>, b: seq<Chunk>)
    requires SameShape(a, b)
    ensures Covered(a) == Covered(b)
  {
    if a != [] { CoveredSame(a[..|a| - 1], b[..|b| - 1]); }
  }

  lemma {:induction false} ShrunkSame(a: seq<Chunk>, b: seq<Chunk>)
    requires |a| == |b| && forall k :: 0 <= k < |a| ==> a[k].shrunk == b[k].shrunk
    ensures Shrunk(a) == Shrunk(b)
  {
    if a != [] { ShrunkSame(a[..|a| - 1], b[..|b| - 1]); }
  }

  lemma SourcedSame(a: seq<Chunk>, b: seq<Chunk>, t: Chunk)
    requires SameShape(a, b) && Sourced(a, t)
    ensures Sourced(b, t)
  {
    forall num: nat ensures Find(a, num) == Find(b, num) { FindSame(a, b, num); }
    ShrunkSame(Sources(a, t.sources), Sources(b, t.sources));
  }

  lemma NoGapSame(a: seq<Chunk>, b: seq<Chunk>)
    requires SameShape(a, b) && NoGap(a)
    ensures NoGap(b)
  {
    CoveredSame(a, b);
    forall x | 1 <= x <= Covered(b) ensures SealedAt(b, x) {
      assert SealedAt(a, x);
      var i :| 0 <= i < |a| && a[i].layer == 1 && In(a[i], x);
      assert SameChunk(a[i], b[i]);
    }
  }

  lemma FormedSame(n: nat, a: seq<Chunk>, b: seq<Chunk>)
    requires SameShape(a, b) && Formed(n, a) && Shrinks(b)
    ensures Formed(n, b)
  {
    hide SameShape, Ordered, Shaped, RawDisjoint, NoGap, AllSourced, Shrinks;
    RangesSame(n, a, b);
    NoGapSame(a, b);
    AllSourcedSame(a, b);
  }

  lemma RangesSame(n: nat, a: seq<Chunk>, b: seq<Chunk>)
    requires SameShape(a, b) && Ordered(a) && Shaped(n, a) && RawDisjoint(a)
    ensures Ordered(b) && Shaped(n, b) && RawDisjoint(b)
  {
    hide Covering;
    assert forall i :: 0 <= i < |a| ==> SameChunk(a[i], b[i]);
  }

  lemma AllSourcedSame(a: seq<Chunk>, b: seq<Chunk>)
    requires SameShape(a, b) && AllSourced(a)
    ensures AllSourced(b)
  {
    hide Sourced;
    forall i | 0 <= i < |b| && b[i].layer == 2 ensures Sourced(b, b[i]) {
      assert SameChunk(a[i], b[i]);
      SourcedSame(a, b, a[i]);
      SourcedTwin(b, a[i], b[i]);
    }
  }

  lemma SourcedTwin(chunks: seq<Chunk>, t: Chunk, u: Chunk)
    requires Sourced(chunks, t) && SameChunk(t, u)
    ensures Sourced(chunks, u)
  {
  }

  /** A status change between states that represent nothing. */
  lemma QuietKeeps(n: nat, a: seq<Chunk>, i: nat, c: Chunk)
    requires Formed(n, a) && Representing(a) && i < |a|
    requires SameChunk(a[i], c) && !Covering(a[i]) && !Covering(c)
    requires c.status == Prepared ==> c.shrunk < c.tokens
    ensures Formed(n, a[i := c]) && Representing(a[i := c])
  {
    var b := a[i := c];
    assert SameShape(a, b) && Shrinks(b) by { SameShapeUpdate(a, i, c); }
    FormedSame(n, a, b);
    QuietRepresents(a, b);
  }

  lemma SameShapeUpdate(a: seq<Chunk>, i: nat, c: Chunk)
    requires i < |a| && SameChunk(a[i], c) && Shrinks(a)
    requires c.status == Prepared || Covering(c) ==> c.shrunk < c.tokens
    ensures SameShape(a, a[i := c]) && Shrinks(a[i := c])
  {
  }

  lemma QuietRepresents(a: seq<Chunk>, b: seq<Chunk>)
    requires Representing(a) && |a| == |b|
    requires forall k :: 0 <= k < |a| ==> (Covering(a[k]) || Covering(b[k]) ==> a[k] == b[k])
    ensures Representing(b)
  {
    forall x ensures Represented(b, x) <==> Represented(a, x) {
      RepresentedSame(a, b, x);
      RepresentedSame(b, a, x);
    }
    forall x ensures CoveredRaw(b, x) <==> CoveredRaw(a, x) {
      CoveredRawSame(a, b, x);
      CoveredRawSame(b, a, x);
    }
  }

  lemma RepresentedSame(a: seq<Chunk>, b: seq<Chunk>, x: int)
    requires |a| == |b| && forall k :: 0 <= k < |a| && a[k].status == Applied && In(a[k], x) ==> b[k].status == Applied && In(b[k], x)
    ensures Represented(a, x) ==> Represented(b, x)
  {
  }

  lemma CoveredRawSame(a: seq<Chunk>, b: seq<Chunk>, x: int)
    requires |a| == |b|
    requires forall k :: 0 <= k < |a| && Covering(a[k]) ==>
               Covering(b[k]) && b[k].layer == a[k].layer && b[k].first == a[k].first && b[k].last == a[k].last
    ensures CoveredRaw(a, x) ==> CoveredRaw(b, x)
  {
    if CoveredRaw(a, x) {
      var i :| 0 <= i < |a| && a[i].layer == 1 && Covering(a[i]) && In(a[i], x);
      assert Covering(b[i]) && In(b[i], x);
    }
  }

  // -------------------------------------------------- applying a layer-1 summary

  /** The uncovered layer-1 chunk `i` shares no record with an applied block. */
  lemma UncoveredIsApart(a: seq<Chunk>, i: nat, j: nat)
    requires RawDisjoint(a) && Representing(a) && i < |a| && j < |a|
    requires a[i].layer == 1 && !Covering(a[i]) && a[j].status == Applied
    requires a[i].first <= a[i].last && a[j].first <= a[j].last
    ensures Apart(a[i], a[j])
  {
    var x := Max(a[i].first, a[j].first);
    if In(a[i], x) && In(a[j], x) {
      assert Represented(a, x);
    }
  }

  lemma ApplyOneKeeps(n: nat, a: seq<Chunk>, i: nat)
    requires Formed(n, a) && Representing(a) && i < |a| && a[i].layer == 1 && a[i].status == Prepared
    ensures Formed(n, Marked(a, i, Applied)) && Representing(Marked(a, i, Applied))
  {
    var b := Marked(a, i, Applied);
    assert SameShape(a, b) && Shrinks(b) by { SameShapeUpdate(a, i, a[i].(status := Applied)); }
    FormedSame(n, a, b);
    forall j | 0 <= j < |a| && a[j].status == Applied ensures Apart(a[i], a[j]) { UncoveredIsApart(a, i, j); }
    ApplyOneRepresents(a, i);
  }

  lemma ApplyOneRepresents(a: seq<Chunk>, i: nat)
    requires Representing(a) && i < |a| && a[i].layer == 1 && a[i].status == Prepared
    requires forall j :: 0 <= j < |a| && a[j].status == Applied ==> Apart(a[i], a[j])
    ensures Representing(Marked(a, i, Applied))
  {
    var b := Marked(a, i, Applied);
    forall x ensures Represented(b, x) <==> Represented(a, x) || In(a[i], x) { AppliedAdds(a, i, x); }
    forall x ensures CoveredRaw(b, x) <==> CoveredRaw(a, x) || In(a[i], x) { CoveredAdds(a, i, x); }
    assert AppliedApart(b);
    forall k, x | 0 <= k < |b| && b[k].status == Superseded && In(b[k], x) ensures Represented(b, x) {
      assert a[k] == b[k];
    }
  }

  lemma AppliedAdds(a: seq<Chunk>, i: nat, x: int)
    requires i < |a| && a[i].status == Prepared
    ensures Represented(Marked(a, i, Applied), x) <==> Represented(a, x) || In(a[i], x)
  {
    var b := Marked(a, i, Applied);
    RepresentedSame(a, b, x);
    if In(a[i], x) { assert b[i].status == Applied && In(b[i], x); }
    if Represented(b, x) {
      var k :| 0 <= k < |b| && b[k].status == Applied && In(b[k], x);
      if k != i { assert a[k] == b[k]; }
    }
  }

  lemma CoveredAdds(a: seq<Chunk>, i: nat, x: int)
    requires i < |a| && a[i].status == Prepared && a[i].layer == 1
    ensures CoveredRaw(Marked(a, i, Applied), x) <==> CoveredRaw(a, x) || In(a[i], x)
  {
    var b := Marked(a, i, Applied);
    CoveredRawSame(a, b, x);
    if In(a[i], x) { assert Covering(b[i]) && In(b[i], x); }
    if CoveredRaw(b, x) {
      var k :| 0 <= k < |b| && b[k].layer == 1 && Covering(b[k]) && In(b[k], x);
      if k != i { assert a[k] == b[k]; }
    }
  }

  lemma {:induction false} ApplyRawKeeps(n: nat, a: seq<Chunk>, live: int, i: nat)
    requires Formed(n, a) && Representing(a) && i <= |a|
    ensures Formed(n, ApplyRaw(a, live, i)) && Representing(ApplyRaw(a, live, i))
    decreases |a| - i
  {
    hide Formed, Representing;
    if i == |a| { return; }
    if live > LIVE_LIMIT && a[i].layer == 1 && a[i].status == Prepared {
      ApplyOneKeeps(n, a, i);
      ApplyRawKeeps(n, Marked(a, i, Applied), live - a[i].tokens, i + 1);
      return;
    }
    ApplyRawKeeps(n, a, live, i + 1);
  }

  // ---------------------------------------------------------- installing a target

  /** Contiguous ranges hold exactly the records between their ends. */
  lemma {:induction false} RunCovers(run: seq<Chunk>, x: int)
    requires run != [] && forall k :: 0 <= k < |run| ==> run[k].first <= run[k].last
    requires forall k :: 0 < k < |run| ==> run[k].first == run[k - 1].last + 1
    ensures run[0].first <= x <= run[|run| - 1].last <==> exists k :: 0 <= k < |run| && In(run[k], x)
    ensures run[0].first <= run[|run| - 1].last
  {
    var n := |run| - 1;
    if n == 0 {
      assert In(run[0], x) <==> run[0].first <= x <= run[0].last;
      return;
    }
    var init := run[..n];
    RunCovers(init, x);
    assert (exists k :: 0 <= k < |init| && In(init[k], x)) ==> exists k :: 0 <= k < |run| && In(run[k], x) by {
      if exists k :: 0 <= k < |init| && In(init[k], x) {
        var k :| 0 <= k < |init| && In(init[k], x);
        assert In(run[k], x);
      }
    }
    if exists k :: 0 <= k < |run| && In(run[k], x) {
      var k :| 0 <= k < |run| && In(run[k], x);
      if k < n { assert In(init[k], x); }
    }
    if In(run[n], x) {}
  }

  lemma TargetCovers(n: nat, a: seq<Chunk>, t: Chunk, x: int)
    requires Shaped(n, a) && Sourced(a, t)
    ensures In(t, x) <==> exists k :: 0 <= k < |t.sources| && In(At(a, t.sources[k]), x)
  {
    var run := Sources(a, t.sources);
    assert t.first == run[0].first && t.last == run[|run| - 1].last;
    SourcesRun(n, a, t);
    RunCovers(run, x);
    hide Sourced, Shaped, Find;
    if In(t, x) {
      var k :| 0 <= k < |run| && In(run[k], x);
      assert In(At(a, t.sources[k]), x);
    }
    if k :| 0 <= k < |t.sources| && In(At(a, t.sources[k]), x) {
      assert In(run[k], x);
    }
  }

  lemma SourcesRun(n: nat, a: seq<Chunk>, t: Chunk)
    requires Shaped(n, a) && Sourced(a, t)
    ensures var run := Sources(a, t.sources);
            && run != [] && (forall k :: 0 <= k < |run| ==> run[k].first <= run[k].last)
            && (forall k :: 0 < k < |run| ==> run[k].first == run[k - 1].last + 1)
  {
  }

  /** Why an unstale prepared target may be installed. */
  ghost predicate Installable(n: nat, a: seq<Chunk>, i: nat) {
    && i < |a| && Formed(n, a) && Representing(a)
    && a[i].layer == 2 && a[i].status == Prepared
    && forall k :: 0 <= k < |a[i].sources| ==> LiveSource(a, a[i].sources[k], SourceLayer(a, a[i]))
  }

  lemma FindUnique(a: seq<Chunk>, i: nat)
    requires Ordered(a) && i < |a|
    ensures Find(a, a[i].num) == Some(i)
  {
  }

  lemma InstallShape(n: nat, a: seq<Chunk>, i: nat)
    requires Installable(n, a, i)
    ensures SameShape(a, Install(a, i))
    ensures forall k :: 0 <= k < |a| && k != i ==>
              Install(a, i)[k] == if a[k].num in a[i].sources then a[k].(status := Superseded) else a[k]
    ensures Install(a, i)[i] == a[i].(status := Applied)
    ensures forall k :: 0 <= k < |a| && a[k].num in a[i].sources ==> a[k].status == Applied && k != i
  {
    forall k | 0 <= k < |a| && a[k].num in a[i].sources ensures a[k].status == Applied && k != i {
      FindUnique(a, k);
      var m :| 0 <= m < |a[i].sources| && a[i].sources[m] == a[k].num;
      assert LiveSource(a, a[i].sources[m], SourceLayer(a, a[i]));
    }
  }

  /** A source's record is a record of the target. */
  lemma SourceInTarget(n: nat, a: seq<Chunk>, t: Chunk, k: nat, x: int)
    requires Shaped(n, a) && Ordered(a) && Sourced(a, t) && k < |a| && a[k].num in t.sources && In(a[k], x)
    ensures In(t, x)
  {
    TargetCovers(n, a, t, x);
    var m :| 0 <= m < |t.sources| && t.sources[m] == a[k].num;
    FindUnique(a, k);
    assert In(At(a, t.sources[m]), x);
  }

  /** A record of the target lies in one of its applied sources. */
  lemma TargetInSource(n: nat, a: seq<Chunk>, i: nat, x: int) returns (f: nat)
    requires Installable(n, a, i) && In(a[i], x)
    ensures f < |a| && a[f].status == Applied && In(a[f], x) && a[f].num in a[i].sources
  {
    hide NoGap, RawDisjoint, Shrinks, Representing;
    var t := a[i];
    assert Sourced(a, t);
    TargetCovers(n, a, t, x);
    var m :| 0 <= m < |t.sources| && In(At(a, t.sources[m]), x);
    assert LiveSource(a, t.sources[m], SourceLayer(a, t));
    f := Find(a, t.sources[m]).value;
  }

  lemma InstallRepresents(n: nat, a: seq<Chunk>, i: nat, x: int)
    requires Installable(n, a, i)
    ensures Represented(Install(a, i), x) <==> Represented(a, x)
  {
    hide Stale, Install, Sourced;
    var b, t := Install(a, i), a[i];
    InstallShape(n, a, i);
    if Represented(a, x) {
      var k :| 0 <= k < |a| && a[k].status == Applied && In(a[k], x);
      if a[k].num in t.sources {
        SourceInTarget(n, a, t, k, x);
        assert b[i].status == Applied && In(b[i], x);
      } else {
        assert b[k] == a[k];
      }
    }
    if Represented(b, x) {
      var k :| 0 <= k < |b| && b[k].status == Applied && In(b[k], x);
      if k == i {
        var f := TargetInSource(n, a, i, x);
        assert a[f].status == Applied && In(a[f], x);
      } else {
        assert a[k] == b[k];
      }
    }
  }

  /** The target is apart from every applied chunk that is not its source. */
  lemma TargetApart(n: nat, a: seq<Chunk>, i: nat, j: nat)
    requires Installable(n, a, i) && j < |a| && a[j].status == Applied && a[j].num !in a[i].sources
    ensures Apart(a[i], a[j])
  {
    var x := Max(a[i].first, a[j].first);
    if In(a[i], x) {
      var f := TargetInSource(n, a, i, x);
      assert f != j;
      assert Apart(a[f], a[j]);
    }
  }

  lemma InstallKeeps(n: nat, a: seq<Chunk>, i: nat)
    requires Installable(n, a, i)
    ensures Formed(n, Install(a, i)) && Representing(Install(a, i))
  {
    hide Stale, Sourced;
    var b := Install(a, i);
    InstallShape(n, a, i);
    assert Shrinks(b);
    FormedSame(n, a, b);
    forall x ensures Represented(b, x) <==> Represented(a, x) { InstallRepresents(n, a, i, x); }
    forall x ensures CoveredRaw(b, x) <==> CoveredRaw(a, x) {
      CoveredRawSame(a, b, x);
      CoveredBack(a, b, i, x);
    }
    forall j | 0 <= j < |a| && a[j].status == Applied && a[j].num !in a[i].sources ensures Apart(a[i], a[j]) {
      TargetApart(n, a, i, j);
    }
    InstallApart(a, b, i);
    forall k, x | 0 <= k < |b| && b[k].status == Superseded && In(b[k], x) ensures Represented(b, x) {
      assert Represented(a, x);
    }
  }

  lemma CoveredBack(a: seq<Chunk>, b: seq<Chunk>, i: nat, x: int)
    requires SameShape(a, b) && i < |a| && a[i].layer == 2
    requires forall k :: 0 <= k < |a| && k != i ==> Covering(b[k]) ==> Covering(a[k])
    ensures CoveredRaw(b, x) ==> CoveredRaw(a, x)
  {
    if CoveredRaw(b, x) {
      var k :| 0 <= k < |b| && b[k].layer == 1 && Covering(b[k]) && In(b[k], x);
      assert SameChunk(a[k], b[k]);
      assert Covering(a[k]) && In(a[k], x);
    }
  }

  lemma InstallApart(a: seq<Chunk>, b: seq<Chunk>, i: nat)
    requires AppliedApart(a) && i < |a| && |b| == |a| && SameShape(a, b)
    requires forall k :: 0 <= k < |a| && k != i && b[k].status == Applied ==> a[k].status == Applied && Apart(a[i], a[k])
    ensures AppliedApart(b)
  {
    forall j, k | 0 <= j < k < |b| && b[j].status == Applied && b[k].status == Applied ensures Apart(b[j], b[k]) {
      assert SameChunk(a[j], b[j]) && SameChunk(a[k], b[k]);
    }
  }

  lemma SettleTargetKeeps(n: nat, a: seq<Chunk>, i: nat)
    requires Formed(n, a) && Representing(a) && i < |a|
    ensures Formed(n, SettleTarget(a, i)) && Representing(SettleTarget(a, i))
  {
    hide Formed, Representing, Install, AppliedTokens;
    var t := a[i];
    if t.layer < 2 || t.status != Prepared { return; }
    if Stale(a, t) {
      QuietKeeps(n, a, i, t.(status := Failed));
      return;
    }
    if AppliedTokens(a, SourceLayer(a, t)) <= LimitOf(SourceLayer(a, t)) { return; }
    LayerIsTwo(n, a, i);
    InstallKeeps(n, a, i);
  }

  lemma LayerIsTwo(n: nat, a: seq<Chunk>, i: nat)
    requires Formed(n, a) && i < |a| && a[i].layer >= 2
    ensures a[i].layer == 2
  {
  }

  lemma {:induction false} SettleTargetsKeeps(n: nat, a: seq<Chunk>, i: nat)
    requires Formed(n, a) && Representing(a) && i <= |a|
    ensures Formed(n, SettleTargets(a, i)) && Representing(SettleTargets(a, i))
    decreases |a| - i
  {
    hide Formed, Representing, SettleTarget;
    if i == |a| { return; }
    SettleTargetKeeps(n, a, i);
    SettleTargetsKeeps(n, SettleTarget(a, i), i + 1);
  }

  // --------------------------------------------------------------- adding chunks

  lemma {:induction false} FindPrefix(a: seq<Chunk>, more: seq<Chunk>, num: nat)
    requires forall k :: 0 <= k < |more| ==> more[k].num != num
    ensures Find(a + more, num) == Find(a, num)
  {
    if more == [] {
      assert a + more == a;
      return;
    }
    var n := |more| - 1;
    assert (a + more)[..|a + more| - 1] == a + more[..n];
    FindPrefix(a, more[..n], num);
  }

  lemma SourcedPrefix(a: seq<Chunk>, more: seq<Chunk>, t: Chunk)
    requires Sourced(a, t) && forall k :: 0 <= k < |more| ==> more[k].num >= NextNum(a)
    ensures Sourced(a + more, t)
  {
    forall k | 0 <= k < |t.sources| ensures Find(a + more, t.sources[k]) == Find(a, t.sources[k]) {
      FindPrefix(a, more, t.sources[k]);
    }
    assert Sources(a + more, t.sources) == Sources(a, t.sources);
  }

  /** New chunks that are only sealed represent nothing yet. */
  lemma AddedRepresents(a: seq<Chunk>, more: seq<Chunk>)
    requires Representing(a) && forall k :: 0 <= k < |more| ==> more[k].status == Sealed
    ensures Representing(a + more)
  {
    var b := a + more;
    forall x ensures Represented(b, x) <==> Represented(a, x) {
      if Represented(a, x) {
        var i :| 0 <= i < |a| && a[i].status == Applied && In(a[i], x);
        assert b[i] == a[i];
      }
    }
    forall x ensures CoveredRaw(b, x) <==> CoveredRaw(a, x) {
      if CoveredRaw(a, x) {
        var i :| 0 <= i < |a| && a[i].layer == 1 && Covering(a[i]) && In(a[i], x);
        assert b[i] == a[i];
      }
    }
  }

  lemma StillSealed(a: seq<Chunk>, more: seq<Chunk>, x: int)
    requires SealedAt(a, x)
    ensures SealedAt(a + more, x)
  {
    var i :| 0 <= i < |a| && a[i].layer == 1 && In(a[i], x);
    assert (a + more)[i] == a[i];
  }

  /** Every position before the open window lies in some sealed window. */
  lemma {:induction false} TiledHolds(cuts: seq<Window>, start: nat, y: nat)
    requires Tiled(cuts, start) && y < start
    ensures exists c :: 0 <= c < |cuts| && cuts[c].lo <= y < cuts[c].hi
  {
    var n := |cuts| - 1;
    if cuts[n].lo <= y { return; }
    assert n > 0;
    var init := cuts[..n];
    assert Tiled(init, cuts[n].lo);
    TiledHolds(init, cuts[n].lo, y);
    var c :| 0 <= c < |init| && init[c].lo <= y < init[c].hi;
    assert cuts[c] == init[c];
  }

  lemma {:induction false} TiledUnder(cuts: seq<Window>, start: nat, c: nat)
    requires Tiled(cuts, start) && c < |cuts|
    ensures cuts[c].hi <= start
    decreases |cuts| - c
  {
    if c < |cuts| - 1 {
      TiledUnder(cuts, start, c + 1);
      assert cuts[c + 1].lo == cuts[c].hi;
    }
  }

  lemma {:induction false} TiledBefore(cuts: seq<Window>, start: nat, c: nat, d: nat)
    requires Tiled(cuts, start) && c < d < |cuts|
    ensures cuts[c].hi <= cuts[d].lo
  {
    assert cuts[d].lo == cuts[d - 1].hi;
    if c < d - 1 { TiledBefore(cuts, start, c, d - 1); }
  }

  lemma CoveredBounded(n: nat, a: seq<Chunk>)
    requires Shaped(n, a)
    ensures Covered(a) <= n
  {
  }

  lemma AddOrdered(a: seq<Chunk>, more: seq<Chunk>)
    requires Ordered(a) && Ordered(more) && forall k :: 0 <= k < |more| ==> NextNum(a) <= more[k].num
    ensures Ordered(a + more)
  {
  }

  lemma AddShaped(n: nat, a: seq<Chunk>, more: seq<Chunk>)
    requires Shaped(n, a) && Shaped(n, more) && Shrinks(a)
    requires forall k :: 0 <= k < |more| ==> more[k].status == Sealed
    ensures Shaped(n, a + more) && Shrinks(a + more)
  {
  }

  lemma AddSourced(a: seq<Chunk>, more: seq<Chunk>)
    requires AllSourced(a) && forall k :: 0 <= k < |more| ==> NextNum(a) <= more[k].num
    requires forall k :: 0 <= k < |more| && more[k].layer == 2 ==> Sourced(a, more[k])
    ensures AllSourced(a + more)
  {
    hide Sourced;
    var b := a + more;
    forall i | 0 <= i < |b| && b[i].layer == 2 ensures Sourced(b, b[i]) {
      if i < |a| { assert b[i] == a[i]; } else { assert b[i] == more[i - |a|]; }
      SourcedPrefix(a, more, b[i]);
    }
  }

  lemma SealedShape(n: nat, cuts: seq<Window>, start: nat, base: nat, num: nat)
    requires Tiled(cuts, start) && base + start <= n
    ensures var more := SealedChunks(cuts, base, num);
            && Ordered(more) && Shaped(n, more) && RawDisjoint(more)
            && forall k :: 0 <= k < |more| ==> num <= more[k].num && base < more[k].first && more[k].layer == 1 && more[k].status == Sealed
    ensures forall c :: 0 <= c < |cuts| ==> cuts[c].hi <= start
  {
    forall c | 0 <= c < |cuts| ensures cuts[c].hi <= start { TiledUnder(cuts, start, c); }
    forall c, d | 0 <= c < d < |cuts| ensures cuts[c].hi <= cuts[d].lo { TiledBefore(cuts, start, c, d); }
  }

  lemma SealForms(n: nat, a: seq<Chunk>, cuts: seq<Window>, start: nat)
    requires Formed(n, a) && Tiled(cuts, start) && Covered(a) + start <= n
    ensures Formed(n, a + SealedChunks(cuts, Covered(a), NextNum(a)))
  {
    hide Sourced, Ordered, Shaped, RawDisjoint, NoGap, AllSourced, Shrinks, Tiled;
    var more := SealedChunks(cuts, Covered(a), NextNum(a));
    SealedShape(n, cuts, start, Covered(a), NextNum(a));
    AddOrdered(a, more);
    AddShaped(n, a, more);
    AddSourced(a, more);
    SealNoGap(a, cuts, start);
    SealDisjoint(a, more);
  }

  lemma SealDisjoint(a: seq<Chunk>, more: seq<Chunk>)
    requires RawDisjoint(a) && RawDisjoint(more) && forall k :: 0 <= k < |more| ==> Covered(a) < more[k].first
    ensures RawDisjoint(a + more)
  {
  }

  lemma SealNoGap(a: seq<Chunk>, cuts: seq<Window>, start: nat)
    requires NoGap(a) && Tiled(cuts, start) && forall c :: 0 <= c < |cuts| ==> cuts[c].hi <= start
    ensures NoGap(a + SealedChunks(cuts, Covered(a), NextNum(a)))
  {
    var more := SealedChunks(cuts, Covered(a), NextNum(a));
    var b := a + more;
    assert Covered(b) <= Covered(a) + start;
    forall x | 1 <= x <= Covered(b) ensures SealedAt(b, x) {
      if x <= Covered(a) {
        StillSealed(a, more, x);
      } else {
        TiledHolds(cuts, start, x - 1 - Covered(a));
        var c :| 0 <= c < |cuts| && cuts[c].lo <= x - 1 - Covered(a) < cuts[c].hi;
        assert b[|a| + c] == more[c] && In(more[c], x);
      }
    }
  }

  lemma SealKeeps(m: Memory)
    requires Inv(m)
    ensures Inv(SealTail(m))
  {
    hide Formed, Representing, SealWalk;
    CoveredFits(m);
    SealedWindows(Tail(m));
    var w := SealWalk(Tail(m));
    SealForms(|m.log|, m.chunks, w.cuts, w.start);
    AddedRepresents(m.chunks, SealedChunks(w.cuts, Covered(m.chunks), NextNum(m.chunks)));
  }

  lemma CoveredFits(m: Memory)
    requires Inv(m)
    ensures Covered(m.chunks) + |Tail(m)| == |m.log|
  {
    CoveredBounded(|m.log|, m.chunks);
  }

  // -------------------------------------------------------------- choosing a run

  /** Blocks in order, one strictly after the other. */
  ghost predicate Separated(s: seq<Chunk>) {
    forall p, q :: 0 <= p < q < |s| ==> s[p].last < s[q].first
  }

  lemma {:induction false} PlaceHolds(c: Chunk, s: seq<Chunk>)
    ensures forall f :: f in Place(c, s) <==> f in s || f == c
  {
    if s == [] || c.first < s[0].first { return; }
    PlaceHolds(c, s[1..]);
    assert s == [s[0]] + s[1..];
  }

  lemma {:induction false} PlaceKeeps(c: Chunk, s: seq<Chunk>)
    requires Separated(s) && c.first <= c.last
    requires forall f :: f in s ==> Apart(c, f) && f.first <= f.last
    ensures Separated(Place(c, s))
  {
    if s == [] || c.first < s[0].first { return; }
    PlaceKeeps(c, s[1..]);
    PlaceHolds(c, s[1..]);
    assert s[0] in s;
    var r := Place(c, s[1..]);
    forall k | 0 <= k < |r| ensures s[0].last < r[k].first {
      if r[k] != c {
        assert r[k] in r;
        var j :| 0 <= j < |s[1..]| && s[1..][j] == r[k];
        assert s[j + 1] == r[k];
      }
    }
  }

  predicate AppliedIn(c: Chunk, layer: nat) { c.status == Applied && (layer == 0 || c.layer == layer) }

  lemma {:induction false} InOrderHolds(a: seq<Chunk>, layer: nat)
    ensures forall f :: f in AppliedInOrder(a, layer) <==> f in a && AppliedIn(f, layer)
  {
    if a == [] { return; }
    var k := |a| - 1;
    InOrderHolds(a[..k], layer);
    assert a == a[..k] + [a[k]];
    PlaceHolds(a[k], AppliedInOrder(a[..k], layer));
  }

  /** The applied chunks of a layer, each once, in order. */
  lemma {:induction false} InOrder(n: nat, a: seq<Chunk>, layer: nat)
    requires AppliedApart(a) && Shaped(n, a)
    ensures Separated(AppliedInOrder(a, layer))
  {
    hide Separated;
    if a == [] { assert Separated([]) by { NoneSeparated(); } return; }
    var k := |a| - 1;
    var init, rest := a[..k], AppliedInOrder(a[..k], layer);
    InOrder(n, init, layer);
    if !AppliedIn(a[k], layer) { return; }
    InOrderHolds(init, layer);
    forall f | f in rest ensures Apart(a[k], f) && f.first <= f.last {
      var i :| 0 <= i < |init| && init[i] == f;
      assert a[i] == f;
    }
    PlaceKeeps(a[k], rest);
  }

  lemma NoneSeparated()
    ensures Separated([])
  {
  }

  /** A chosen run: contiguous applied chunks of the store. */
  ghost predicate GoodRun(a: seq<Chunk>, run: seq<Chunk>) {
    && run != []
    && (forall k :: 0 <= k < |run| ==> run[k] in a && run[k].status == Applied)
    && (forall k :: 0 < k < |run| ==> run[k].first == run[k - 1].last + 1)
  }

  lemma {:induction false} ChosenRun(a: seq<Chunk>, chunks: seq<Chunk>, frags: seq<Chunk>, lo: nat, goal: int, whole: bool)
    requires lo <= |frags| && forall k :: 0 <= k < |frags| ==> frags[k] in a && frags[k].status == Applied
    ensures var r := ChooseRun(chunks, frags, lo, goal, whole); r.Some? ==> GoodRun(a, r.value)
    decreases |frags| - lo
  {
    if lo == |frags| { return; }
    var hi := RunEnd(frags, lo + 1, frags[lo].shrunk, goal, whole);
    if SettledTuple(chunks, Nums(frags[lo..hi])) {
      ChosenRun(a, chunks, frags, hi, goal, whole);
    }
  }

  lemma RunOfIsGood(a: seq<Chunk>, layer: nat)
    requires RunOf(a, layer).Some?
    ensures GoodRun(a, RunOf(a, layer).value)
  {
    hide AppliedInOrder, ChooseRun, GoodRun, AppliedTokens;
    InOrderHolds(a, layer);
    var frags := AppliedInOrder(a, layer);
    forall k | 0 <= k < |frags| ensures frags[k] in a && frags[k].status == Applied { assert frags[k] in frags; }
    var total := AppliedTokens(a, layer);
    ChosenRun(a, a, frags, 0, total - (if layer == 1 then L1_DROP_TO else L2_LIMIT), layer == 2);
  }

  lemma TargetSourced(a: seq<Chunk>, run: seq<Chunk>)
    requires Ordered(a) && GoodRun(a, run)
    ensures Sourced(a, TargetFor(a, run))
  {
    var t := TargetFor(a, run);
    forall k | 0 <= k < |run| ensures Find(a, run[k].num).Some? && At(a, run[k].num) == run[k] {
      var i :| 0 <= i < |a| && a[i] == run[k];
      FindUnique(a, i);
    }
    assert Sources(a, t.sources) == run;
  }

  lemma TargetKeeps(n: nat, a: seq<Chunk>, run: seq<Chunk>)
    requires Formed(n, a) && Representing(a) && GoodRun(a, run)
    ensures Formed(n, a + [TargetFor(a, run)]) && Representing(a + [TargetFor(a, run)])
  {
    var t := TargetFor(a, run);
    TargetSourced(a, run);
    AddedRepresents(a, [t]);
    AddTargetForms(n, a, t);
  }

  lemma AddTargetForms(n: nat, a: seq<Chunk>, t: Chunk)
    requires Formed(n, a) && Sourced(a, t) && t.layer == 2 && t.num == NextNum(a) && t.status == Sealed
    ensures Formed(n, a + [t])
  {
    hide Sourced, Ordered, Shaped, RawDisjoint, NoGap, AllSourced, Shrinks;
    TargetWithin(n, a, t);
    OneTarget(n, t);
    AddOrdered(a, [t]);
    AddShaped(n, a, [t]);
    AddSourced(a, [t]);
    TargetNoGap(a, t);
  }

  lemma OneTarget(n: nat, t: Chunk)
    requires 1 <= t.first <= t.last <= n && t.layer == 2
    ensures Ordered([t]) && Shaped(n, [t])
  {
  }

  lemma TargetNoGap(a: seq<Chunk>, t: Chunk)
    requires NoGap(a) && RawDisjoint(a) && t.layer == 2 && t.last <= Covered(a)
    ensures NoGap(a + [t]) && RawDisjoint(a + [t])
  {
    var b := a + [t];
    assert b[..|a|] == a;
    assert Covered(b) == Covered(a);
    forall x | 1 <= x <= Covered(b) ensures SealedAt(b, x) { StillSealed(a, [t], x); }
  }

  lemma TargetWithin(n: nat, a: seq<Chunk>, t: Chunk)
    requires Shaped(n, a) && Sourced(a, t)
    ensures 1 <= t.first <= t.last <= Covered(a) <= n
  {
    CoveredBounded(n, a);
    RunCovers(Sources(a, t.sources), t.first);
  }

  lemma CreateKeeps(n: nat, a: seq<Chunk>)
    requires Formed(n, a) && Representing(a)
    ensures Formed(n, CreateTarget(a)) && Representing(CreateTarget(a))
  {
    hide RunOf, TargetFor, GoodRun;
    if Busy(a) { return; }
    if RunOf(a, 1).Some? {
      RunOfIsGood(a, 1);
      TargetKeeps(n, a, RunOf(a, 1).value);
      return;
    }
    if RunOf(a, 2).Some? {
      RunOfIsGood(a, 2);
      TargetKeeps(n, a, RunOf(a, 2).value);
    }
  }

  lemma MaintainKeeps(m: Memory)
    requires Inv(m)
    ensures Inv(Maintain(m))
  {
    hide Formed, Representing, SealWalk, SealTail, ApplyRaw, SettleTargets, CreateTarget;
    SealKeeps(m);
    SealKeepsLog(m);
    var sealed := SealTail(m);
    var live := SealWalk(Tail(m)).tokens + RawTokens(sealed.chunks);
    var applied := ApplyRaw(sealed.chunks, live, 0);
    ApplyRawKeeps(|m.log|, sealed.chunks, live, 0);
    SettleTargetsKeeps(|m.log|, applied, 0);
    CreateKeeps(|m.log|, SettleTargets(applied, 0));
  }

  lemma SealKeepsLog(m: Memory)
    ensures SealTail(m).log == m.log
  {
  }

  lemma StepKeeps(m: Memory, step: Step)
    requires Inv(m)
    ensures Inv(Apply(m, step))
  {
    hide Formed, Representing, Maintain;
    match step {
      case Journaled(entries) => LongerLog(|m.log|, |m.log + entries|, m.chunks);
      case Maintained => MaintainKeeps(m); SameLog(m);
      case Claimed(i) =>
        if i < |m.chunks| && m.chunks[i].status == Sealed {
          QuietKeeps(|m.log|, m.chunks, i, m.chunks[i].(status := Preparing));
        }
      case Reopened(i) =>
        if i < |m.chunks| && m.chunks[i].status == Kept {
          QuietKeeps(|m.log|, m.chunks, i, m.chunks[i].(status := Sealed));
        }
      case Shelved(i, text) =>
        if i < |m.chunks| && m.chunks[i].status == Preparing && Pager.EstTokens(text) < m.chunks[i].tokens {
          QuietKeeps(|m.log|, m.chunks, i, m.chunks[i].(status := Prepared, replacement := Some(text), shrunk := Pager.EstTokens(text)));
        }
      case KeptRaw(i) =>
        if i < |m.chunks| && m.chunks[i].status == Preparing {
          QuietKeeps(|m.log|, m.chunks, i, m.chunks[i].(status := Kept));
        }
    }
  }

  lemma SameLog(m: Memory)
    ensures Maintain(m).log == m.log
  {
  }

  lemma LongerLog(n: nat, n': nat, a: seq<Chunk>)
    requires Formed(n, a) && n <= n'
    ensures Formed(n', a)
  {
  }

  /** Through any number of applications, merges and reintegrations. */
  lemma {:induction false} RunKeeps(steps: seq<Step>)
    ensures Inv(Exec(steps))
  {
    if steps != [] {
      RunKeeps(steps[..|steps| - 1]);
      StepKeeps(Exec(steps[..|steps| - 1]), steps[|steps| - 1]);
    }
  }
}
