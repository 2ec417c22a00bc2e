/** When a frozen view may be branched to compact a chunk: a raw chunk needs every
    one of its records in the view as itself, a chunk of blocks needs every one of
    its source blocks. */
module Snapshot {
  import opened Common
  import opened Render
  import opened Attribution
  import L = Layers

  /** The range is the frozen message of this block. */
  predicate IsBlock(r: Range, c: L.Chunk) {
    r.source == Source(c.first, c.last, Some(Block(c.num, c.layer))) && r.index.Some?
  }

  ghost predicate Frozen(ranges: seq<Range>, c: L.Chunk) {
    exists j :: 0 <= j < |ranges| && IsBlock(ranges[j], c)
  }

  /** The first chunk of this number. */
  ghost predicate IsFirst(chunks: seq<L.Chunk>, i: int, num: nat) {
    0 <= i < |chunks| && chunks[i].num == num && forall h :: 0 <= h < i ==> chunks[h].num != num
  }

  ghost predicate SourceFrozen(ranges: seq<Range>, chunks: seq<L.Chunk>, num: nat) {
    exists i :: IsFirst(chunks, i, num) && chunks[i].status == L.Applied && Frozen(ranges, chunks[i])
  }

  ghost predicate RawInside(ranges: seq<Range>, first: int, last: int) {
    forall j :: 0 <= j < |ranges| && Inside(ranges[j], first, last) ==> ranges[j].source.chunk.None?
  }

  ghost predicate SourcesFrozen(ranges: seq<Range>, chunks: seq<L.Chunk>, nums: seq<nat>) {
    forall k :: 0 <= k < |nums| ==> SourceFrozen(ranges, chunks, nums[k])
  }

  /** The view may be branched for this chunk. */
  ghost predicate Fit(ranges: seq<Range>, chunks: seq<L.Chunk>, c: L.Chunk) {
    && HoldsChunk(ranges, c.first, c.last)
    && if c.layer == 1 then RawInside(ranges, c.first, c.last) else c.sources != [] && SourcesFrozen(ranges, chunks, c.sources)
  }

  // -------------------------------------------------------------- the code's test

  method HasFrozen(ranges: seq<Range>, c: L.Chunk) returns (ok: bool)
    ensures ok <==> Frozen(ranges, c)
  {
    var j := 0;
    while j < |ranges|
      invariant 0 <= j <= |ranges|
      invariant forall h :: 0 <= h < j ==> !IsBlock(ranges[h], c)
    {
      if IsBlock(ranges[j], c) { return true; }
      j := j + 1;
    }
    return false;
  }

  method HasSource(ranges: seq<Range>, chunks: seq<L.Chunk>, num: nat) returns (ok: bool)
    ensures ok <==> SourceFrozen(ranges, chunks, num)
  {
    var i := 0;
    while i < |chunks|
      invariant 0 <= i <= |chunks|
      invariant forall h :: 0 <= h < i ==> chunks[h].num != num
    {
      if chunks[i].num == num {
        assert IsFirst(chunks, i, num);
        if chunks[i].status != L.Applied { return false; }
        ok := HasFrozen(ranges, chunks[i]);
        return;
      }
      i := i + 1;
    }
    return false;
  }

  /** claimMemoryBranch's `matches`: it accepts exactly the views fit to branch. */
  method Matches(ranges: seq<Range>, chunks: seq<L.Chunk>, c: L.Chunk) returns (ok: bool)
    requires WellFormed(ranges) && c.first <= c.last
    ensures ok <==> Fit(ranges, chunks, c)
  {
    ok := Covers(ranges, c.first, c.last);
    if !ok { return; }
    if c.layer == 1 {
      var j := 0;
      while j < |ranges|
        invariant 0 <= j <= |ranges|
        invariant forall h :: 0 <= h < j && Inside(ranges[h], c.first, c.last) ==> ranges[h].source.chunk.None?
      {
        if Inside(ranges[j], c.first, c.last) && ranges[j].source.chunk.Some? { return false; }
        j := j + 1;
      }
      return true;
    }
    if c.sources == [] { return false; }
    var k := 0;
    while k < |c.sources|
      invariant 0 <= k <= |c.sources|
      invariant forall h :: 0 <= h < k ==> SourceFrozen(ranges, chunks, c.sources[h])
    {
      ok := HasSource(ranges, chunks, c.sources[k]);
      if !ok { return; }
      k := k + 1;
    }
    return true;
  }

  // ---------------------------------------------------------------- raw chunks

  /** A range that is not a block's is one record's. */
  lemma RawRangeIsRecord(before: seq<Item>, records: seq<Record>, j: nat)
    requires NoRaw(before) && Distinct(records) && j < |Ranges(before, records)|
    requires Ranges(before, records)[j].source.chunk.None?
    ensures var r := Ranges(before, records)[j].source;
            r.first == r.last && exists i :: 0 <= i < |records| && records[i].num == r.first
  {
    hide Ranges, RangeCount, RecordCount, ShownCount, View;
    var ranges := Ranges(before, records);
    var n := ranges[j].source.first;
    assert RawCount(ranges[j].source, n) == 1;
    if forall i :: 0 <= i < |records| ==> records[i].num != n {
      AbsentCount(records, n);
      RangesCount(before, records, n);
      CountedPosition(ranges, n);
    }
    var i :| 0 <= i < |records| && records[i].num == n;
    assert Attribution.At(ranges, j, records[i].num);
    RangeNamesMessage(before, records, i, j);
  }

  /** The record has one range, inside the chunk; the message that renders it is
      in the source file and carries nothing outside the chunk. */
  ghost predicate HeldRaw(before: seq<Item>, records: seq<Record>, first: int, last: int, i: int) {
    var ranges, view := Ranges(before, records), View(before, records);
    && 0 <= i < |records|
    && exists j :: && Attribution.At(ranges, j, records[i].num) && Inside(ranges[j], first, last)
                   && (ranges[j].index.None? <==> !IsShown(records[i]))
                   && (ranges[j].index.Some? ==>
                         var m := ranges[j].index.value;
                         && 1 <= m <= |view| && Shows(view[m - 1].message, records[i])
                         && CarriesOnly(ranges, first, last, m))
  }

  /** The source file holds this message, and it carries nothing outside the chunk. */
  ghost predicate CarriesOnly(ranges: seq<Range>, first: int, last: int, m: nat) {
    && Selected(ranges, first, last, m)
    && forall k :: 0 <= k < |ranges| && ranges[k].index == Some(m) ==> Inside(ranges[k], first, last)
  }

  /** A view fit for a raw chunk holds every number of the chunk as a record, and
      every shown one in full: none is stood for by a memory block. */
  lemma RawChunkIsHeld(before: seq<Item>, records: seq<Record>, chunks: seq<L.Chunk>, c: L.Chunk, x: int)
    requires NoRaw(before) && Distinct(records) && c.layer == 1 && c.first <= x <= c.last
    requires Fit(Ranges(before, records), chunks, c)
    ensures exists i :: 0 <= i < |records| && records[i].num == x && HeldRaw(before, records, c.first, c.last, i)
  {
    hide Ranges, View, Shows, IsShown;
    var ranges := Ranges(before, records);
    assert CarriedInside(ranges, c.first, c.last, x);
    var j :| 0 <= j < |ranges| && Inside(ranges[j], c.first, c.last) && Carries(ranges[j], x);
    RawRangeIsRecord(before, records, j);
    var i :| 0 <= i < |records| && records[i].num == ranges[j].source.first;
    SnapshotHoldsRecords(before, records, c.first, c.last, i);
  }

  // ------------------------------------------------------------- chunks of blocks

  /** A target's sources leave no record of it out. */
  lemma {:induction false} SourceOf(chunks: seq<L.Chunk>, t: L.Chunk, x: int, n: nat) returns (k: nat)
    requires L.Sourced(chunks, t) && n < |t.sources|
    requires t.first <= x <= L.At(chunks, t.sources[n]).last
    ensures k <= n && L.In(L.At(chunks, t.sources[k]), x)
  {
    if n == 0 || L.At(chunks, t.sources[n]).first <= x { return n; }
    k := SourceOf(chunks, t, x, n - 1);
  }

  lemma FoundIsFirst(chunks: seq<L.Chunk>, i: int, num: nat)
    requires L.Ordered(chunks) && IsFirst(chunks, i, num)
    ensures L.Find(chunks, num).Some? && L.At(chunks, num) == chunks[i]
  {
    L.FindUnique(chunks, i);
  }

  /** In every memory, a view fit for a chunk of blocks holds every record of the
      chunk inside one of its applied source blocks, whose message is in the source
      file and carries nothing outside the chunk. */
  lemma BlocksAreHeld(m: L.Memory, ranges: seq<Range>, t: nat, x: int)
    requires L.Inv(m) && t < |m.chunks| && m.chunks[t].layer != 1 && L.In(m.chunks[t], x)
    requires Fit(ranges, m.chunks, m.chunks[t])
    ensures var c := m.chunks[t];
            exists k, j :: && 0 <= k < |c.sources| && 0 <= j < |ranges|
                           && L.Find(m.chunks, c.sources[k]).Some?
                           && var s := L.At(m.chunks, c.sources[k]);
                              && s.status == L.Applied && L.In(s, x) && IsBlock(ranges[j], s)
                              && CarriesOnly(ranges, c.first, c.last, ranges[j].index.value)
  {
    var c := m.chunks[t];
    var k := SourceOf(m.chunks, c, x, |c.sources| - 1);
    assert SourceFrozen(ranges, m.chunks, c.sources[k]);
    var i :| IsFirst(m.chunks, i, c.sources[k]) && m.chunks[i].status == L.Applied && Frozen(ranges, m.chunks[i]);
    FoundIsFirst(m.chunks, i, c.sources[k]);
    var j :| 0 <= j < |ranges| && IsBlock(ranges[j], m.chunks[i]);
    assert Touches(ranges[j], c.first, c.last);
    assert Selected(ranges, c.first, c.last, ranges[j].index.value);
  }

  // ------------------------------------------------ the view a memory renders to

  function BlockSource(c: L.Chunk): Source { Source(c.first, c.last, Some(Block(c.num, c.layer))) }

  ghost predicate BlockItem(x: Item, chunks: seq<L.Chunk>, i: int) {
    0 <= i < |chunks| && chunks[i].status == L.Applied && x.sources == [BlockSource(chunks[i])]
  }

  /** The items put before the records are blocks, or notices that stand for
      nothing. */
  ghost predicate OnlyBlocks(before: seq<Item>, chunks: seq<L.Chunk>) {
    forall b :: 0 <= b < |before| ==> before[b].sources == [] || exists i :: BlockItem(before[b], chunks, i)
  }

  ghost predicate AllBlocks(before: seq<Item>, chunks: seq<L.Chunk>) {
    forall i :: 0 <= i < |chunks| && chunks[i].status == L.Applied ==>
      exists b :: 0 <= b < |before| && BlockItem(before[b], chunks, i)
  }

  ghost predicate OfMemory(before: seq<Item>, chunks: seq<L.Chunk>) { OnlyBlocks(before, chunks) && AllBlocks(before, chunks) }

  /** Records in the view are those no applied block represents. */
  ghost predicate RawOnly(records: seq<Record>, chunks: seq<L.Chunk>) {
    Distinct(records) && forall i :: 0 <= i < |records| ==> !L.Represented(chunks, records[i].num)
  }

  /** Every source of every item has its range. */
  lemma {:induction false} AttributedHolds(items: seq<Item>, i: nat, k: nat)
    requires i < |items| && k < |items[i].sources|
    ensures Range(items[i].sources[k], Some(i + 1)) in Attributed(items)
  {
    var n := |items| - 1;
    if i < n {
      AttributedHolds(items[..n], i, k);
    } else {
      assert Indexed(items[n].sources, |items|)[k] == Range(items[i].sources[k], Some(i + 1));
    }
  }

  /** A source of the view is one record's or one applied block's, and a block has
      its message to itself. */
  lemma RangeKinds(before: seq<Item>, records: seq<Record>, chunks: seq<L.Chunk>, j: nat)
    requires OnlyBlocks(before, chunks) && j < |Ranges(before, records)|
    requires Ranges(before, records)[j].source.chunk.Some?
    ensures var r, view := Ranges(before, records)[j], View(before, records);
            && r.index.Some? && 1 <= r.index.value <= |view|
            && exists i :: BlockItem(view[r.index.value - 1], chunks, i) && r.source == BlockSource(chunks[i])
  {
    hide View, Rendered, Mapped;
    var view, un := View(before, records), Unmapped(records, Rendered(records));
    if j < |un| {
      UnmappedIndex(records, Rendered(records), j);
      return;
    }
    AttributedIndex(view, j - |un|);
    var r := Ranges(before, records)[j];
    assert r == Attributed(view)[j - |un|];
    var x := view[r.index.value - 1];
    ViewFaithful(before, records, r.index.value - 1);
    var k :| 0 <= k < |x.sources| && x.sources[k] == r.source;
    assert Faithful(x, records) ==> ShownFrom(x.sources[k], x.message, records);
    var b :| 0 <= b < |before| && before[b] == x;
    var i :| BlockItem(before[b], chunks, i);
    assert BlockItem(x, chunks, i);
  }

  /** A message's ranges come from its own sources. */
  lemma RangeOfItem(before: seq<Item>, records: seq<Record>, j: nat)
    requires j < |Ranges(before, records)| && Ranges(before, records)[j].index.Some?
    ensures var r, view := Ranges(before, records)[j], View(before, records);
            1 <= r.index.value <= |view| && r.source in view[r.index.value - 1].sources
  {
    hide View, Rendered, Mapped;
    var un := Unmapped(records, Rendered(records));
    if j < |un| {
      UnmappedIndex(records, Rendered(records), j);
    } else {
      AttributedIndex(View(before, records), j - |un|);
    }
  }

  lemma AppliedIsFrozen(before: seq<Item>, records: seq<Record>, chunks: seq<L.Chunk>, i: nat)
    requires AllBlocks(before, chunks) && i < |chunks| && chunks[i].status == L.Applied
    ensures Frozen(Ranges(before, records), chunks[i])
  {
    hide Rendered, Sort, Mapped;
    var b :| 0 <= b < |before| && BlockItem(before[b], chunks, i);
    var items, view := before + Rendered(records), View(before, records);
    SortHolds(items);
    assert before[b] == items[b] && items[b] in multiset(view);
    var v :| 0 <= v < |view| && view[v] == before[b];
    AttributedHolds(view, v, 0);
    var r := Range(BlockSource(chunks[i]), Some(v + 1));
    assert r in Ranges(before, records);
    var j :| 0 <= j < |Ranges(before, records)| && Ranges(before, records)[j] == r;
    assert IsBlock(Ranges(before, records)[j], chunks[i]);
  }

  lemma {:induction false} SourceWithin(n: nat, chunks: seq<L.Chunk>, t: L.Chunk, k: nat)
    requires L.Sourced(chunks, t) && L.Shaped(n, chunks) && k < |t.sources|
    ensures t.first <= L.At(chunks, t.sources[k]).first
    ensures L.At(chunks, t.sources[k]).last <= L.At(chunks, t.sources[|t.sources| - 1]).last
  {
    StartsAfter(n, chunks, t, k);
    EndsBefore(n, chunks, t, k);
  }

  lemma {:induction false} StartsAfter(n: nat, chunks: seq<L.Chunk>, t: L.Chunk, k: nat)
    requires L.Sourced(chunks, t) && L.Shaped(n, chunks) && k < |t.sources|
    ensures t.first <= L.At(chunks, t.sources[k]).first
  {
    if k > 0 { StartsAfter(n, chunks, t, k - 1); }
  }

  lemma {:induction false} EndsBefore(n: nat, chunks: seq<L.Chunk>, t: L.Chunk, k: nat)
    requires L.Sourced(chunks, t) && L.Shaped(n, chunks) && k < |t.sources|
    ensures L.At(chunks, t.sources[k]).last <= L.At(chunks, t.sources[|t.sources| - 1]).last
    decreases |t.sources| - k
  {
    if k < |t.sources| - 1 { EndsBefore(n, chunks, t, k + 1); }
  }

  /** What these proofs use of a memory: its chunks are ordered and not empty, its
      applied blocks are disjoint, and `c` is spanned by its sources. */
  ghost predicate Spanned(n: nat, a: seq<L.Chunk>, c: L.Chunk) {
    c.first <= c.last && L.Ordered(a) && L.Shaped(n, a) && L.AppliedApart(a) && L.Sourced(a, c)
  }

  ghost predicate SourcesApplied(chunks: seq<L.Chunk>, t: L.Chunk)
    requires L.Sourced(chunks, t)
  {
    forall k :: 0 <= k < |t.sources| ==> L.At(chunks, t.sources[k]).status == L.Applied
  }

  /** A record of a target whose sources are applied lies in one of them. */
  lemma InSource(n: nat, a: seq<L.Chunk>, c: L.Chunk, x: int) returns (i: nat)
    requires Spanned(n, a, c) && SourcesApplied(a, c) && L.In(c, x)
    ensures i < |a| && a[i].status == L.Applied && L.In(a[i], x) && c.first <= a[i].first && a[i].last <= c.last
    ensures L.Represented(a, x)
  {
    var k := SourceOf(a, c, x, |c.sources| - 1);
    SourceWithin(n, a, c, k);
    i := L.Find(a, c.sources[k]).value;
  }

  /** Two applied blocks that hold the same record are one block. */
  lemma SameBlock(a: seq<L.Chunk>, i: nat, k: nat, x: int)
    requires L.AppliedApart(a) && i < |a| && k < |a|
    requires a[i].status == L.Applied && L.In(a[i], x) && a[k].status == L.Applied && L.In(a[k], x)
    ensures i == k
  {
  }

  lemma BlocksOnly(before: seq<Item>, chunks: seq<L.Chunk>)
    requires OnlyBlocks(before, chunks)
    ensures NoRaw(before)
  {
    forall b, k | 0 <= b < |before| && 0 <= k < |before[b].sources| ensures before[b].sources[k].chunk.Some? {
      var i :| BlockItem(before[b], chunks, i);
    }
  }

  /** What touches a target whose sources are applied is one of those sources. */
  lemma TouchingIsInside(n: nat, a: seq<L.Chunk>, c: L.Chunk, before: seq<Item>, records: seq<Record>, j: nat)
    requires Spanned(n, a, c) && SourcesApplied(a, c) && OnlyBlocks(before, a) && RawOnly(records, a)
    requires j < |Ranges(before, records)| && Touches(Ranges(before, records)[j], c.first, c.last)
    ensures Ranges(before, records)[j].source.chunk.Some? && Inside(Ranges(before, records)[j], c.first, c.last)
  {
    hide OnlyBlocks, Ranges, View, L.Represented, L.Sourced, SourcesApplied, NoRaw;
    var r := Ranges(before, records)[j];
    BlocksOnly(before, a);
    if r.source.chunk.None? {
      RawRangeIsRecord(before, records, j);
      var k := InSource(n, a, c, r.source.first);
      return;
    }
    RangeKinds(before, records, a, j);
    var i :| BlockItem(View(before, records)[r.index.value - 1], a, i) && r.source == BlockSource(a[i]);
    var x := Max(r.source.first, c.first);
    var k := InSource(n, a, c, x);
    SameBlock(a, i, k, x);
  }

  /** Ranges are never empty, and a block's message carries that block alone. */
  lemma OwnMessage(n: nat, a: seq<L.Chunk>, before: seq<Item>, records: seq<Record>, h: nat, j: nat)
    requires L.Shaped(n, a) && OnlyBlocks(before, a) && Distinct(records)
    requires h < |Ranges(before, records)| && j < |Ranges(before, records)|
    requires Ranges(before, records)[h].index.Some? && Ranges(before, records)[h].index == Ranges(before, records)[j].index
    ensures var r := Ranges(before, records)[h].source;
            r.first <= r.last && (r.chunk.Some? ==> Ranges(before, records)[j].source == r)
  {
    hide OnlyBlocks, Ranges, View, NoRaw;
    BlocksOnly(before, a);
    if Ranges(before, records)[h].source.chunk.Some? {
      RangeKinds(before, records, a, h);
      RangeOfItem(before, records, j);
    } else {
      RawRangeIsRecord(before, records, h);
    }
  }

  lemma OwnViewHolds(n: nat, a: seq<L.Chunk>, c: L.Chunk, before: seq<Item>, records: seq<Record>)
    requires Spanned(n, a, c) && SourcesApplied(a, c) && OfMemory(before, a) && RawOnly(records, a)
    ensures HoldsChunk(Ranges(before, records), c.first, c.last)
  {
    hide OnlyBlocks, AllBlocks, Ranges, View, L.Sourced, SourcesApplied, L.AppliedApart, L.Ordered, L.Represented;
    var ranges := Ranges(before, records);
    forall j | 0 <= j < |ranges| && Touches(ranges[j], c.first, c.last)
      ensures ranges[j].source.chunk.Some? && Inside(ranges[j], c.first, c.last)
    {
      TouchingIsInside(n, a, c, before, records, j);
    }
    forall j | 0 <= j < |ranges| && ranges[j].index.Some? && Selected(ranges, c.first, c.last, ranges[j].index.value)
      ensures Inside(ranges[j], c.first, c.last)
    {
      var h :| 0 <= h < |ranges| && Inside(ranges[h], c.first, c.last) && ranges[h].index == Some(ranges[j].index.value);
      OwnMessage(n, a, before, records, h, j);
      assert Touches(ranges[h], c.first, c.last);
    }
    forall x | c.first <= x <= c.last ensures CarriedInside(ranges, c.first, c.last, x) {
      var i := InSource(n, a, c, x);
      AppliedIsFrozen(before, records, a, i);
      var j :| 0 <= j < |ranges| && IsBlock(ranges[j], a[i]);
      assert Inside(ranges[j], c.first, c.last) && Carries(ranges[j], x);
    }
  }

  lemma OwnViewFreezes(n: nat, a: seq<L.Chunk>, c: L.Chunk, before: seq<Item>, records: seq<Record>)
    requires Spanned(n, a, c) && SourcesApplied(a, c) && AllBlocks(before, a)
    ensures SourcesFrozen(Ranges(before, records), a, c.sources)
  {
    hide Ranges, AllBlocks;
    forall k | 0 <= k < |c.sources| ensures SourceFrozen(Ranges(before, records), a, c.sources[k]) {
      var i := L.Find(a, c.sources[k]).value;
      AppliedIsFrozen(before, records, a, i);
      assert IsFirst(a, i, c.sources[k]);
    }
  }

  /** The view a memory renders to is fit to branch for a chunk of blocks exactly
      while every one of its source blocks is still applied. */
  lemma OwnViewFitsIff(m: L.Memory, before: seq<Item>, records: seq<Record>, t: nat)
    requires L.Inv(m) && t < |m.chunks| && m.chunks[t].layer != 1
    requires OfMemory(before, m.chunks) && RawOnly(records, m.chunks)
    ensures Fit(Ranges(before, records), m.chunks, m.chunks[t]) <==> SourcesApplied(m.chunks, m.chunks[t])
  {
    hide OnlyBlocks, AllBlocks, Ranges, View, HoldsChunk, RawOnly;
    var ranges, a, c := Ranges(before, records), m.chunks, m.chunks[t];
    assert Spanned(|m.log|, a, c);
    if Fit(ranges, a, c) {
      forall k | 0 <= k < |c.sources| ensures L.At(a, c.sources[k]).status == L.Applied {
        assert SourceFrozen(ranges, a, c.sources[k]);
        var i :| IsFirst(a, i, c.sources[k]) && a[i].status == L.Applied && Frozen(ranges, a[i]);
        FoundIsFirst(a, i, c.sources[k]);
      }
    }
    if SourcesApplied(a, c) {
      OwnViewFreezes(|m.log|, a, c, before, records);
      OwnViewHolds(|m.log|, a, c, before, records);
    }
  }

  // ------------------------------------------------- raw chunks in that view

  ghost predicate Present(records: seq<Record>, first: int, last: int) {
    forall x :: first <= x <= last ==> IsRecord(records, x)
  }

  ghost predicate IsRecord(records: seq<Record>, x: int) { exists i :: 0 <= i < |records| && records[i].num == x }

  predicate Within(s: Source, first: int, last: int) { first <= s.first && s.last <= last }

  /** The message stands for something inside the range and for something else. */
  ghost predicate Crosses(x: Item, first: int, last: int) {
    exists k, h :: 0 <= k < |x.sources| && 0 <= h < |x.sources| && Within(x.sources[k], first, last) && !Within(x.sources[h], first, last)
  }

  ghost predicate NoneCrosses(view: seq<Item>, first: int, last: int) {
    forall v :: 0 <= v < |view| ==> !Crosses(view[v], first, last)
  }

  /** A range of every source of the view. */
  lemma SourceHasRange(before: seq<Item>, records: seq<Record>, v: nat, k: nat) returns (j: nat)
    requires v < |View(before, records)| && k < |View(before, records)[v].sources|
    ensures j < |Ranges(before, records)| && Ranges(before, records)[j] == Range(View(before, records)[v].sources[k], Some(v + 1))
  {
    hide View, Unmapped, Attributed;
    AttributedHolds(View(before, records), v, k);
    var r := Range(View(before, records)[v].sources[k], Some(v + 1));
    assert r in Ranges(before, records);
    j :| 0 <= j < |Ranges(before, records)| && Ranges(before, records)[j] == r;
  }

  lemma HeldIsUncrossed(before: seq<Item>, records: seq<Record>, first: int, last: int)
    requires HoldsChunk(Ranges(before, records), first, last)
    ensures NoneCrosses(View(before, records), first, last)
  {
    var ranges, view := Ranges(before, records), View(before, records);
    hide Ranges, View;
    forall v, k, h | 0 <= v < |view| && 0 <= k < |view[v].sources| && 0 <= h < |view[v].sources| && Within(view[v].sources[k], first, last)
      ensures Within(view[v].sources[h], first, last)
    {
      var i := SourceHasRange(before, records, v, k);
      var j := SourceHasRange(before, records, v, h);
      assert Inside(ranges[i], first, last) && ranges[i].index == Some(v + 1);
      assert Selected(ranges, first, last, v + 1);
      assert Inside(ranges[j], first, last);
    }
  }

  /** What touches a chunk whose records are all present is one of them. */
  lemma TouchingIsRaw(n: nat, a: seq<L.Chunk>, before: seq<Item>, records: seq<Record>, first: int, last: int, j: nat)
    requires L.Shaped(n, a) && OnlyBlocks(before, a) && RawOnly(records, a) && Present(records, first, last)
    requires j < |Ranges(before, records)| && Touches(Ranges(before, records)[j], first, last) && first <= last
    ensures Ranges(before, records)[j].source.chunk.None? && Inside(Ranges(before, records)[j], first, last)
  {
    hide OnlyBlocks, Ranges, View, NoRaw;
    var r := Ranges(before, records)[j];
    BlocksOnly(before, a);
    if r.source.chunk.None? {
      RawRangeIsRecord(before, records, j);
      return;
    }
    RangeKinds(before, records, a, j);
    var i :| BlockItem(View(before, records)[r.index.value - 1], a, i) && r.source == BlockSource(a[i]);
    if IsRecord(records, Max(r.source.first, first)) { return; }
  }

  lemma RangeNotEmpty(n: nat, a: seq<L.Chunk>, before: seq<Item>, records: seq<Record>, j: nat)
    requires L.Shaped(n, a) && OnlyBlocks(before, a) && Distinct(records) && j < |Ranges(before, records)|
    ensures Ranges(before, records)[j].source.first <= Ranges(before, records)[j].source.last
  {
    hide OnlyBlocks, Ranges, View, NoRaw;
    BlocksOnly(before, a);
    if Ranges(before, records)[j].source.chunk.Some? {
      RangeKinds(before, records, a, j);
    } else {
      RawRangeIsRecord(before, records, j);
    }
  }

  lemma UncrossedIsHeld(n: nat, a: seq<L.Chunk>, before: seq<Item>, records: seq<Record>, first: int, last: int)
    requires L.Shaped(n, a) && OnlyBlocks(before, a) && RawOnly(records, a) && first <= last
    requires Present(records, first, last) && NoneCrosses(View(before, records), first, last)
    ensures HoldsChunk(Ranges(before, records), first, last) && RawInside(Ranges(before, records), first, last)
  {
    var ranges, view := Ranges(before, records), View(before, records);
    hide OnlyBlocks, Ranges, View, L.Shaped, L.Represented;
    forall j | 0 <= j < |ranges| && Touches(ranges[j], first, last)
      ensures ranges[j].source.chunk.None? && Inside(ranges[j], first, last)
    {
      TouchingIsRaw(n, a, before, records, first, last, j);
    }
    forall j | 0 <= j < |ranges| && Inside(ranges[j], first, last) ensures ranges[j].source.chunk.None? {
      RangeNotEmpty(n, a, before, records, j);
      assert Touches(ranges[j], first, last);
    }
    forall j | 0 <= j < |ranges| && ranges[j].index.Some? && Selected(ranges, first, last, ranges[j].index.value)
      ensures Inside(ranges[j], first, last)
    {
      var h :| 0 <= h < |ranges| && Inside(ranges[h], first, last) && ranges[h].index == Some(ranges[j].index.value);
      RangeOfItem(before, records, h);
      RangeOfItem(before, records, j);
      assert !Crosses(view[ranges[j].index.value - 1], first, last);
    }
    forall x | first <= x <= last ensures CarriedInside(ranges, first, last, x) {
      BlocksOnly(before, a);
      assert IsRecord(records, x);
      var i :| 0 <= i < |records| && records[i].num == x;
      AttributedOnce(before, records, i);
      var j :| Attribution.At(ranges, j, x);
      RangeNamesMessage(before, records, i, j);
      assert Inside(ranges[j], first, last) && Carries(ranges[j], x);
    }
  }

  /** The view a memory renders to is fit to branch for a raw chunk exactly when it
      holds every record of the chunk and no message stands for records both inside
      and outside it. */
  lemma OwnViewFitsRawIff(m: L.Memory, before: seq<Item>, records: seq<Record>, t: nat)
    requires L.Inv(m) && t < |m.chunks| && m.chunks[t].layer == 1
    requires OfMemory(before, m.chunks) && RawOnly(records, m.chunks)
    ensures var c := m.chunks[t];
            Fit(Ranges(before, records), m.chunks, c)
            <==> Present(records, c.first, c.last) && NoneCrosses(View(before, records), c.first, c.last)
  {
    hide OnlyBlocks, AllBlocks, Ranges, View, HoldsChunk, RawInside, NoneCrosses, HeldRaw, NoRaw;
    var ranges, a, c := Ranges(before, records), m.chunks, m.chunks[t];
    if Fit(ranges, a, c) {
      BlocksOnly(before, a);
      HeldIsUncrossed(before, records, c.first, c.last);
      forall x | c.first <= x <= c.last ensures IsRecord(records, x) { RawChunkIsHeld(before, records, a, c, x); }
    }
    if Present(records, c.first, c.last) && NoneCrosses(View(before, records), c.first, c.last) {
      UncrossedIsHeld(|m.log|, a, before, records, c.first, c.last);
    }
  }
}
