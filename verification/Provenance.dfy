/** Where what is remembered came from: every record a memory block stands for was
    in the source that the block's own branch read in full, as itself or inside a
    block of which the same is true. */
module Provenance {
  import opened Common
  import opened CertifiedMemory
  import F = SourceFiles
  import N = Snapshot
  import A = Attribution
  import R = Render
  import L = Layers
  import V = MemoryView
  import B = Branch
  import SealedViews
  import Sealing
  import Pager

  // ------------------------------------------------------------- what is stable

  /** The journal only grows, and chunks keep their place and what they stand for. */
  ghost predicate Grows(m: L.Memory, m': L.Memory) {
    && m.log <= m'.log && |m.chunks| <= |m'.chunks|
    && forall i :: 0 <= i < |m.chunks| ==> SameId(m.chunks[i], m'.chunks[i])
  }

  /** The view has the message of the chunk of this number. */
  ghost predicate SourceKept(ranges: seq<R.Range>, chunks: seq<L.Chunk>, num: nat) {
    exists h :: N.IsFirst(chunks, h, num) && N.Frozen(ranges, chunks[h])
  }

  /** The view holds the chunk: its records as themselves, or all of its sources. */
  ghost predicate Sound(m: L.Memory, c: L.Chunk, snap: F.Snap) {
    var ranges := F.RangesOf(snap);
    && IsView(m, snap) && A.HoldsChunk(ranges, c.first, c.last)
    && if c.layer == 1 then N.RawInside(ranges, c.first, c.last)
       else forall k :: 0 <= k < |c.sources| ==> SourceKept(ranges, m.chunks, c.sources[k])
  }

  ghost predicate Tied(write: Writing, m: L.Memory, i: nat, b: B.Branch, snap: F.Snap) {
    i < |m.chunks| && b.source == SourceIn(write, m.chunks[i], snap) && Sound(m, m.chunks[i], snap)
  }

  ghost predicate AllTied(write: Writing, s: Shelf) {
    forall i :: i in s.branches ==> i in s.snaps && Tied(write, s.memory, i, s.branches[i], s.snaps[i])
  }

  /** A target's sources are older than it. */
  ghost predicate Earlier(chunks: seq<L.Chunk>) {
    forall i, k :: 0 <= i < |chunks| && 0 <= k < |chunks[i].sources| ==> chunks[i].sources[k] < chunks[i].num
  }

  lemma KeptStays(ranges: seq<R.Range>, m: L.Memory, m': L.Memory, num: nat)
    requires Grows(m, m') && SourceKept(ranges, m.chunks, num)
    ensures SourceKept(ranges, m'.chunks, num)
  {
    var h :| N.IsFirst(m.chunks, h, num) && N.Frozen(ranges, m.chunks[h]);
    forall k | 0 <= k <= h ensures m'.chunks[k].num == m.chunks[k].num { assert SameId(m.chunks[k], m'.chunks[k]); }
    var j :| 0 <= j < |ranges| && N.IsBlock(ranges[j], m.chunks[h]);
    assert SameId(m.chunks[h], m'.chunks[h]);
    assert N.IsBlock(ranges[j], m'.chunks[h]);
    assert N.IsFirst(m'.chunks, h, num);
  }

  lemma SoundStays(m: L.Memory, m': L.Memory, c: L.Chunk, c': L.Chunk, snap: F.Snap)
    requires Grows(m, m') && SameId(c, c') && Sound(m, c, snap)
    ensures Sound(m', c', snap)
  {
    hide A.HoldsChunk, N.RawInside, F.RangesOf, SourceKept, A.NoRaw, A.Distinct;
    var ranges := F.RangesOf(snap);
    assert SealedViews.AllRecorded(m'.log, snap.records) by { RecordedStays(m, m', snap.records); }
    if c.layer != 1 {
      forall k | 0 <= k < |c.sources| ensures SourceKept(ranges, m'.chunks, c.sources[k]) {
        KeptStays(ranges, m, m', c.sources[k]);
      }
    }
  }

  lemma RecordedStays(m: L.Memory, m': L.Memory, records: seq<R.Record>)
    requires m.log <= m'.log && SealedViews.AllRecorded(m.log, records)
    ensures SealedViews.AllRecorded(m'.log, records)
  {
    forall i | 0 <= i < |records| ensures SealedViews.Recorded(m'.log, records[i]) {
      assert SealedViews.Recorded(m.log, records[i]);
      assert m'.log[records[i].num - 1] == m.log[records[i].num - 1];
    }
  }

  lemma TiedStays(write: Writing, m: L.Memory, m': L.Memory, i: nat, b: B.Branch, b': B.Branch, snap: F.Snap)
    requires Grows(m, m') && Tied(write, m, i, b, snap) && b'.source == b.source
    ensures Tied(write, m', i, b', snap)
  {
    hide Sound;
    assert SameId(m.chunks[i], m'.chunks[i]);
    SoundStays(m, m', m.chunks[i], m'.chunks[i], snap);
  }

  lemma BranchableIsSound(m: L.Memory, i: nat, snap: F.Snap)
    requires Branchable(m, i, snap)
    ensures Sound(m, m.chunks[i], snap)
  {
    hide A.HoldsChunk, N.RawInside, F.RangesOf, IsView;
    var c, ranges := m.chunks[i], F.RangesOf(snap);
    if c.layer != 1 {
      forall k | 0 <= k < |c.sources| ensures SourceKept(ranges, m.chunks, c.sources[k]) {
        assert N.SourceFrozen(ranges, m.chunks, c.sources[k]);
        var h :| N.IsFirst(m.chunks, h, c.sources[k]) && m.chunks[h].status == L.Applied && N.Frozen(ranges, m.chunks[h]);
      }
    }
  }

  // ---------------------------------------------------------------- every step

  lemma StepGrows(write: Writing, s: Shelf, step: JointStep)
    requires JointInv(s)
    ensures Grows(s.memory, Step(write, s, step).memory)
  {
    hide L.Inv, L.Maintain, B.Apply, Branched, Branchable, AllAgree, Pager.EstTokens;
    match step {
      case Maintenance =>
        MaintainAdvances(s.memory);
        SealedViews.MaintainLog(s.memory);
        forall i | 0 <= i < |s.memory.chunks| ensures SameId(s.memory.chunks[i], L.Maintain(s.memory).chunks[i]) {
          assert Moves(s.memory.chunks[i], L.Maintain(s.memory).chunks[i]);
        }
      case _ =>
    }
  }

  lemma SourceStays(b: B.Branch, step: B.Step)
    requires !step.Reclaim? && !step.Rebranch?
    ensures B.Apply(b, step).source == b.source
  {
    hide B.Next;
  }

  lemma NewSource(s: Shelf, i: nat, source: B.Bytes, size: nat)
    requires JointInv(s) && i < |s.memory.chunks| && s.memory.chunks[i].status == L.Sealed
    ensures i in Branched(s.branches, i, source, size) && Branched(s.branches, i, source, size)[i].source == source
  {
    hide L.Inv, B.BranchInv, B.Next;
    assert Agrees(s.memory.chunks[i], BranchOf(s.branches, i));
  }

  /** Only the branch of chunk `i` changes, and it is tied again. */
  lemma OneTied(write: Writing, s: Shelf, s': Shelf, i: nat)
    requires AllTied(write, s) && Grows(s.memory, s'.memory)
    requires forall k :: k in s'.branches && k != i ==>
               k in s.branches && s'.branches[k] == s.branches[k] && k in s.snaps && k in s'.snaps && s'.snaps[k] == s.snaps[k]
    requires i in s'.branches ==> i in s'.snaps && Tied(write, s'.memory, i, s'.branches[i], s'.snaps[i])
    ensures AllTied(write, s')
  {
    hide Tied, Grows;
    forall k | k in s'.branches ensures k in s'.snaps && Tied(write, s'.memory, k, s'.branches[k], s'.snaps[k]) {
      if k != i { TiedStays(write, s.memory, s'.memory, k, s.branches[k], s'.branches[k], s.snaps[k]); }
    }
  }

  lemma SameBranches(write: Writing, s: Shelf, s': Shelf)
    requires AllTied(write, s) && Grows(s.memory, s'.memory) && s'.branches == s.branches && s'.snaps == s.snaps
    ensures AllTied(write, s')
  {
    hide Tied, Grows;
    forall k | k in s'.branches ensures k in s'.snaps && Tied(write, s'.memory, k, s'.branches[k], s'.snaps[k]) {
      TiedStays(write, s.memory, s'.memory, k, s.branches[k], s'.branches[k], s.snaps[k]);
    }
  }

  lemma ClaimTies(write: Writing, s: Shelf, i: nat, snap: F.Snap)
    requires JointInv(s) && AllTied(write, s) && Branchable(s.memory, i, snap) && s.memory.chunks[i].status == L.Sealed
    requires Grows(s.memory, Step(write, s, Claim(i, snap)).memory)
    ensures AllTied(write, Step(write, s, Claim(i, snap)))
  {
    hide JointInv, Sound, SourceIn, Grows, L.Apply;
    var s', c := Step(write, s, Claim(i, snap)), s.memory.chunks[i];
    NewSource(s, i, SourceIn(write, c, snap), c.tokens);
    BranchableIsSound(s.memory, i, snap);
    assert Tied(write, s.memory, i, s'.branches[i], snap);
    hide Branchable, Branched, Tied;
    TiedStays(write, s.memory, s'.memory, i, s'.branches[i], s'.branches[i], snap);
    OthersStay(s.branches, s.snaps, i, s'.branches[i], snap, s'.branches, s'.snaps);
    OneTied(write, s, s', i);
  }

  lemma OthersStay(branches: map<nat, B.Branch>, snaps: map<nat, F.Snap>, i: nat, b: B.Branch, snap: F.Snap,
                   branches': map<nat, B.Branch>, snaps': map<nat, F.Snap>)
    requires branches' == branches[i := b] && snaps' == snaps[i := snap]
    ensures forall k :: k in branches' && k != i ==> k in branches && branches'[k] == branches[k]
    ensures forall k :: k in snaps && k != i ==> k in snaps' && snaps'[k] == snaps[k]
    ensures i in branches' && i in snaps' && branches'[i] == b && snaps'[i] == snap
  {
  }

  lemma AgainSource(b: B.Branch, source: B.Bytes)
    requires b.chunk == B.Preparing && b.work.Some? && b.work.value.rebranch
    ensures B.Apply(b, B.Rebranch(source)).source == source
  {
    hide B.Next;
  }

  lemma GrowsSelf(m: L.Memory)
    ensures Grows(m, m)
  {
  }

  lemma TiedHasSnap(write: Writing, s: Shelf)
    ensures AllTied(write, s) ==> forall k :: k in s.branches ==> k in s.snaps
  {
  }

  lemma AgainTies(write: Writing, s: Shelf, i: nat, snap: F.Snap)
    requires AllTied(write, s) && Branchable(s.memory, i, snap) && WantsAgain(s, i)
    ensures AllTied(write, Step(write, s, Again(i, snap)))
  {
    hide Sound, SourceIn, B.Apply, Grows, N.Fit, IsView, AllTied;
    var s', c := Step(write, s, Again(i, snap)), s.memory.chunks[i];
    AgainSource(s.branches[i], SourceIn(write, c, snap));
    BranchableIsSound(s.memory, i, snap);
    assert Tied(write, s.memory, i, s'.branches[i], snap);
    hide Branchable, Tied;
    GrowsSelf(s.memory);
    assert AllTied(write, s) ==> forall k :: k in s.branches ==> k in s.snaps by { TiedHasSnap(write, s); }
    OthersStay(s.branches, s.snaps, i, s'.branches[i], snap, s'.branches, s'.snaps);
    OneTied(write, s, s', i);
  }

  lemma WorkTies(write: Writing, s: Shelf, i: nat, work: B.Step)
    requires AllTied(write, s) && GoesOn(s, i, work) && Grows(s.memory, Step(write, s, Work(i, work)).memory)
    ensures AllTied(write, Step(write, s, Work(i, work)))
  {
    hide Tied, B.Apply, Settled, Grows;
    var s' := Step(write, s, Work(i, work));
    SourceStays(s.branches[i], work);
    TiedStays(write, s.memory, s'.memory, i, s.branches[i], s'.branches[i], s.snaps[i]);
    OneTied(write, s, s', i);
  }

  lemma StepTies(write: Writing, s: Shelf, step: JointStep)
    requires JointInv(s) && AllTied(write, s)
    ensures AllTied(write, Step(write, s, step))
  {
    hide AllTied, JointInv, Grows, B.Apply, L.Apply, L.Maintain, Branchable, Settled, Branched;
    var s' := Step(write, s, step);
    StepGrows(write, s, step);
    match step {
      case Write(_) => SameBranches(write, s, s');
      case Maintenance => SameBranches(write, s, s');
      case Reopen(_) => SameBranches(write, s, s');
      case Claim(i, snap) => if Branchable(s.memory, i, snap) { ClaimMayTie(write, s, i, snap); }
      case Again(i, snap) => if Branchable(s.memory, i, snap) && WantsAgain(s, i) { AgainTies(write, s, i, snap); }
      case Work(i, work) => if GoesOn(s, i, work) { WorkTies(write, s, i, work); }
    }
  }

  lemma ClaimMayTie(write: Writing, s: Shelf, i: nat, snap: F.Snap)
    requires JointInv(s) && AllTied(write, s) && Branchable(s.memory, i, snap)
    requires Grows(s.memory, Step(write, s, Claim(i, snap)).memory)
    ensures AllTied(write, Step(write, s, Claim(i, snap)))
  {
    hide AllTied, JointInv, Grows;
    if s.memory.chunks[i].status == L.Sealed { ClaimTies(write, s, i, snap); }
  }

  // ---------------------------------------------------------- older than the target

  lemma SameEarlier(a: seq<L.Chunk>, b: seq<L.Chunk>)
    requires Earlier(a) && |a| == |b| && forall i :: 0 <= i < |a| ==> SameId(a[i], b[i])
    ensures Earlier(b)
  {
    forall i, k | 0 <= i < |b| && 0 <= k < |b[i].sources| ensures b[i].sources[k] < b[i].num { assert SameId(a[i], b[i]); }
  }

  lemma ShapeEarlier(a: seq<L.Chunk>, b: seq<L.Chunk>)
    requires Earlier(a) && L.SameShape(a, b)
    ensures Earlier(b)
  {
    forall i, k | 0 <= i < |b| && 0 <= k < |b[i].sources| ensures b[i].sources[k] < b[i].num { assert L.SameChunk(a[i], b[i]); }
  }

  lemma CreateEarlier(a: seq<L.Chunk>)
    requires Earlier(a)
    ensures Earlier(L.CreateTarget(a))
  {
    hide L.RunOf, Earlier;
    if L.RunOf(a, 1).Some? {
      L.RunOfIsGood(a, 1);
      TargetEarlier(a, L.RunOf(a, 1).value);
    } else if L.RunOf(a, 2).Some? {
      L.RunOfIsGood(a, 2);
      TargetEarlier(a, L.RunOf(a, 2).value);
    }
  }

  lemma TargetEarlier(a: seq<L.Chunk>, run: seq<L.Chunk>)
    requires Earlier(a) && L.GoodRun(a, run)
    ensures Earlier(a + [L.TargetFor(a, run)])
  {
    hide L.NextNum, L.Shrunk;
    var t := L.TargetFor(a, run);
    forall k | 0 <= k < |t.sources| ensures t.sources[k] < t.num {
      var i :| 0 <= i < |a| && a[i] == run[k];
    }
  }

  lemma MaintainEarlier(m: L.Memory)
    requires L.Inv(m) && Earlier(m.chunks)
    ensures Earlier(L.Maintain(m).chunks)
  {
    hide L.Formed, L.Representing, Sealing.SealWalk, L.ApplyRaw, L.SettleTargets, L.CreateTarget, L.Covered, L.RawTokens, L.NextNum;
    L.SealKeeps(m);
    L.SealKeepsLog(m);
    var sealed, n := L.SealTail(m), |m.log|;
    var live := Sealing.SealWalk(L.Tail(m)).tokens + L.RawTokens(sealed.chunks);
    var applied := L.ApplyRaw(sealed.chunks, live, 0);
    var settled := L.SettleTargets(applied, 0);
    assert Earlier(sealed.chunks);
    hide Earlier;
    V.ApplyRawShape(sealed.chunks, live, 0);
    ShapeEarlier(sealed.chunks, applied);
    L.ApplyRawKeeps(n, sealed.chunks, live, 0);
    V.SettleTargetsShape(n, applied, 0);
    ShapeEarlier(applied, settled);
    CreateEarlier(settled);
  }

  lemma StepEarlier(write: Writing, s: Shelf, step: JointStep)
    requires JointInv(s) && Earlier(s.memory.chunks)
    ensures Earlier(Step(write, s, step).memory.chunks)
  {
    var a, b := s.memory.chunks, Step(write, s, step).memory.chunks;
    hide L.Inv, AllAgree, L.Maintain, B.Apply, Branched, Branchable, Earlier, Pager.EstTokens;
    StepGrows(write, s, step);
    if step.Maintenance? {
      MaintainEarlier(s.memory);
    } else {
      SameEarlier(a, b);
    }
  }

  ghost predicate Invariant(write: Writing, s: Shelf) { JointInv(s) && AllTied(write, s) && Earlier(s.memory.chunks) }

  lemma {:induction false} RunKeeps(write: Writing, steps: seq<JointStep>)
    ensures Invariant(write, Run(write, steps))
  {
    if steps == [] {
      JointRunKeeps(write, steps);
      return;
    }
    hide JointInv, Step, AllTied, Earlier;
    var s, step := Run(write, steps[..|steps| - 1]), steps[|steps| - 1];
    RunKeeps(write, steps[..|steps| - 1]);
    JointStepKeeps(write, s, step);
    StepTies(write, s, step);
    StepEarlier(write, s, step);
  }

  // ------------------------------------------------------------------ provenance

  predicate Names(ranges: seq<R.Range>, source: R.Source) { exists q :: 0 <= q < |ranges| && ranges[q].source == source }

  /** The file renders the record. */
  ghost predicate RecordIn(file: F.SourceFile, r: R.Record) {
    exists p :: && 0 <= p < |file.passages| && A.Shows(file.passages[p].message, r)
                && Names(file.passages[p].ranges, R.RawSource(r.num))
  }

  /** The file has the message of the block. */
  ghost predicate BlockIn(file: F.SourceFile, c: L.Chunk) {
    exists p :: 0 <= p < |file.passages| && Names(file.passages[p].ranges, N.BlockSource(c))
  }

  /** The chunk's replacement was certified against the source file of its view, and
      no message in that file carries anything outside the chunk. */
  ghost predicate CertifiedFrom(write: Writing, s: Shelf, i: nat) {
    && i < |s.memory.chunks| && i in s.branches && i in s.snaps
    && var c, b, snap := s.memory.chunks[i], s.branches[i], s.snaps[i];
       && c.replacement.Some? && B.Certified(b.source, c.tokens, b.trail, c.replacement.value) && B.SourceOf(b.trail, b.source)
       && b.source == write(F.FileOf(snap, c.first, c.last)) && A.HoldsChunk(F.RangesOf(snap), c.first, c.last)
  }

  ghost predicate RawIn(write: Writing, s: Shelf, i: nat, x: int)
    requires CertifiedFrom(write, s, i)
  {
    var c, snap := s.memory.chunks[i], s.snaps[i];
    exists r :: && 0 <= r < |snap.records| && snap.records[r].num == x && SealedViews.Recorded(s.memory.log, snap.records[r])
                && (A.IsShown(snap.records[r]) ==> RecordIn(F.FileOf(snap, c.first, c.last), snap.records[r]))
  }

  /** Record `x` was read where the chunk's replacement was made: as itself, or in
      the block of an older chunk where it was read in the same way. */
  ghost predicate Traced(write: Writing, s: Shelf, i: nat, x: int)
    decreases i
  {
    && CertifiedFrom(write, s, i)
    && var c := s.memory.chunks[i];
       && L.In(c, x)
       && if c.layer == 1 then RawIn(write, s, i, x)
          else exists h: nat ::
                 && h < i && s.memory.chunks[h].num in c.sources
                 && BlockIn(F.FileOf(s.snaps[i], c.first, c.last), s.memory.chunks[h])
                 && Traced(write, s, h, x)
  }

  lemma ShelfIsCertified(write: Writing, s: Shelf, i: nat)
    requires Invariant(write, s) && i < |s.memory.chunks| && OnShelf(s.memory.chunks[i])
    ensures CertifiedFrom(write, s, i) && Sound(s.memory, s.memory.chunks[i], s.snaps[i])
  {
    hide L.Inv, B.WorkInv, B.CertifiedBy, B.SourceOf, Pager.EstTokens, F.RangesOf, F.FileOf, A.HoldsChunk;
    OneAgreed(s.memory.chunks, s.branches, i);
    assert Tied(write, s.memory, i, s.branches[i], s.snaps[i]);
  }

  lemma InFileNames(file: F.SourceFile, r: R.Range, message: R.Message)
    requires F.InFile(file, r, message)
    ensures exists p :: 0 <= p < |file.passages| && file.passages[p].message == message && Names(file.passages[p].ranges, r.source)
  {
    var p :| 0 <= p < |file.passages| && file.passages[p].message == message && r in file.passages[p].ranges;
    var q :| 0 <= q < |file.passages[p].ranges| && file.passages[p].ranges[q] == r;
  }

  lemma RawIsIn(write: Writing, s: Shelf, i: nat, x: int)
    requires CertifiedFrom(write, s, i) && Sound(s.memory, s.memory.chunks[i], s.snaps[i])
    requires s.memory.chunks[i].layer == 1 && L.In(s.memory.chunks[i], x)
    ensures RawIn(write, s, i, x)
  {
    hide A.HoldsChunk, N.RawInside, A.Shows, A.IsShown, F.FileOf, R.Ranges, R.View, B.Certified, B.SourceOf, A.NoRaw, A.Distinct;
    var c, snap := s.memory.chunks[i], s.snaps[i];
    N.RawChunkIsHeld(snap.before, snap.records, s.memory.chunks, c, x);
    var r :| 0 <= r < |snap.records| && snap.records[r].num == x && N.HeldRaw(snap.before, snap.records, c.first, c.last, r);
    assert SealedViews.Recorded(s.memory.log, snap.records[r]);
    var ranges, view := R.Ranges(snap.before, snap.records), R.View(snap.before, snap.records);
    var j :| && A.At(ranges, j, x) && A.Inside(ranges[j], c.first, c.last)
             && (ranges[j].index.None? <==> !A.IsShown(snap.records[r]))
             && (ranges[j].index.Some? ==>
                   1 <= ranges[j].index.value <= |view| && A.Shows(view[ranges[j].index.value - 1].message, snap.records[r]));
    A.RangeNamesMessage(snap.before, snap.records, r, j);
    if A.IsShown(snap.records[r]) {
      F.RangeInFile(snap, c.first, c.last, j);
      InFileNames(F.FileOf(snap, c.first, c.last), ranges[j], view[ranges[j].index.value - 1].message);
      assert ranges[j].source == R.RawSource(x);
      assert RecordIn(F.FileOf(snap, c.first, c.last), snap.records[r]);
    }
  }

  lemma OlderIsBefore(a: seq<L.Chunk>, h: nat, i: nat)
    requires L.Ordered(a) && h < |a| && i < |a| && a[h].num < a[i].num
    ensures h < i
  {
  }

  lemma SameNum(a: seq<L.Chunk>, g: nat, h: nat)
    requires L.Ordered(a) && g < |a| && h < |a| && a[g].num == a[h].num
    ensures g == h
  {
  }

  /** Which source holds the record, and that it is an older chunk on the shelf. */
  lemma OlderSource(n: nat, a: seq<L.Chunk>, i: nat, x: int) returns (h: nat, k: nat)
    requires L.Ordered(a) && L.Shaped(n, a) && Earlier(a)
    requires i < |a| && L.Sourced(a, a[i]) && L.In(a[i], x)
    ensures h < i && k < |a[i].sources| && a[h].num == a[i].sources[k]
    ensures L.Covering(a[h]) && L.In(a[h], x) && a[i].first <= a[h].first && a[h].last <= a[i].last
  {
    hide L.Ordered;
    k := N.SourceOf(a, a[i], x, |a[i].sources| - 1);
    N.SourceWithin(n, a, a[i], k);
    h := L.Find(a, a[i].sources[k]).value;
    OlderIsBefore(a, h, i);
  }

  lemma BlockIsIn(s: Shelf, i: nat, h: nat, k: nat)
    requires L.Ordered(s.memory.chunks) && L.Shaped(|s.memory.log|, s.memory.chunks)
    requires i < |s.memory.chunks| && s.memory.chunks[i].layer != 1 && i in s.snaps && h < i
    requires Sound(s.memory, s.memory.chunks[i], s.snaps[i])
    requires k < |s.memory.chunks[i].sources| && s.memory.chunks[h].num == s.memory.chunks[i].sources[k]
    requires s.memory.chunks[i].first <= s.memory.chunks[h].first && s.memory.chunks[h].last <= s.memory.chunks[i].last
    ensures BlockIn(F.FileOf(s.snaps[i], s.memory.chunks[i].first, s.memory.chunks[i].last), s.memory.chunks[h])
  {
    hide F.RangesOf, F.FileOf, A.HoldsChunk, IsView, L.Ordered, L.Shaped;
    var a, c, snap := s.memory.chunks, s.memory.chunks[i], s.snaps[i];
    var ranges := F.RangesOf(snap);
    assert SourceKept(ranges, a, c.sources[k]);
    var g :| N.IsFirst(a, g, c.sources[k]) && N.Frozen(ranges, a[g]);
    SameNum(a, g, h);
    var j :| 0 <= j < |ranges| && N.IsBlock(ranges[j], a[h]);
    F.RangeInFile(snap, c.first, c.last, j);
    InFileNames(F.FileOf(snap, c.first, c.last), ranges[j], F.ViewOf(snap)[ranges[j].index.value - 1].message);
    assert ranges[j].source == N.BlockSource(a[h]);
  }

  lemma {:induction false} ShelfIsTraced(write: Writing, s: Shelf, i: nat, x: int)
    requires Invariant(write, s) && i < |s.memory.chunks| && OnShelf(s.memory.chunks[i]) && L.In(s.memory.chunks[i], x)
    ensures Traced(write, s, i, x)
    decreases i
  {
    hide CertifiedFrom, Sound, RawIn, BlockIn, AllTied, AllAgree, L.Representing, L.NoGap, L.AllSourced, F.FileOf;
    ShelfIsCertified(write, s, i);
    var c := s.memory.chunks[i];
    assert i in s.snaps by { IsTied(write, s, i); }
    if c.layer == 1 {
      RawIsIn(write, s, i, x);
      return;
    }
    assert L.Sourced(s.memory.chunks, c) by { TargetSourced(s.memory, i); }
    var h, k := OlderSource(|s.memory.log|, s.memory.chunks, i, x);
    ShelfIsTraced(write, s, h, x);
    BlockIsIn(s, i, h, k);
    assert s.memory.chunks[h].num in c.sources;
  }

  lemma TargetSourced(m: L.Memory, i: nat)
    requires L.Inv(m) && i < |m.chunks| && m.chunks[i].layer != 1
    ensures L.Sourced(m.chunks, m.chunks[i])
  {
    hide L.Representing, L.Sourced;
  }

  lemma IsTied(write: Writing, s: Shelf, i: nat)
    requires CertifiedFrom(write, s, i)
    ensures i in s.snaps
  {
  }

  /** On every joint run, a block that is sent in place of records carries exactly
      the text its branch certified: written last, read in full with its source
      after that, reviewed at that version, confirmed in a strictly later round.
      The source is the file of a view that holds the block's chunk, and the block
      is smaller than what it replaces. */
  lemma BlocksAreCertified(write: Writing, steps: seq<JointStep>, k: nat)
    requires k < |V.Blocks(Run(write, steps).memory)|
    ensures var s := Run(write, steps);
            var block := V.Blocks(s.memory)[k];
            exists i :: && 0 <= i < |s.memory.chunks| && s.memory.chunks[i] == block && CertifiedFrom(write, s, i)
                        && Sound(s.memory, block, s.snaps[i])
                        && block.shrunk == Pager.EstTokens(block.replacement.value) < block.tokens
  {
    hide Run, L.Inv, B.Certified, B.BranchInv, Sound, Pager.EstTokens, AllTied, Earlier, CertifiedFrom;
    var s := Run(write, steps);
    RunKeeps(write, steps);
    var block := V.Blocks(s.memory)[k];
    L.InOrderHolds(s.memory.chunks, 0);
    assert block in V.Blocks(s.memory);
    var i :| 0 <= i < |s.memory.chunks| && s.memory.chunks[i] == block;
    ShelfIsCertified(write, s, i);
    assert CertifiedFrom(write, s, i) && i in s.snaps by { IsTied(write, s, i); }
    OneAgreed(s.memory.chunks, s.branches, i);
    Smaller(s.memory, i);
  }

  lemma Smaller(m: L.Memory, i: nat)
    requires L.Inv(m) && i < |m.chunks| && OnShelf(m.chunks[i])
    ensures m.chunks[i].shrunk < m.chunks[i].tokens
  {
    hide L.Representing, L.Sourced;
  }

  /** On every joint run, every record a sent block stands for was read in full where
      the block was made. */
  lemma RecordsWereRead(write: Writing, steps: seq<JointStep>, k: nat, x: int)
    requires var s := Run(write, steps); k < |V.Blocks(s.memory)| && L.In(V.Blocks(s.memory)[k], x)
    ensures var s := Run(write, steps);
            exists i :: 0 <= i < |s.memory.chunks| && s.memory.chunks[i] == V.Blocks(s.memory)[k] && Traced(write, s, i, x)
  {
    hide Run, Invariant, Traced;
    var s := Run(write, steps);
    RunKeeps(write, steps);
    var block := V.Blocks(s.memory)[k];
    L.InOrderHolds(s.memory.chunks, 0);
    assert block in V.Blocks(s.memory);
    var i :| 0 <= i < |s.memory.chunks| && s.memory.chunks[i] == block;
    ShelfIsTraced(write, s, i, x);
  }
}
