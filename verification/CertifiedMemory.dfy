/** Layered memory together with its branches: a chunk is claimed with a view it can
    be branched from, and its replacement is what its branch certified. */
module CertifiedMemory {
  import opened Common
  import opened Sealing
  import opened Layers
  import opened MemoryView
  import B = Branch
  import Pager
  import F = SourceFiles
  import N = Snapshot
  import A = Attribution
  import SealedViews

  /** How a source file is written down. */
  type Writing = F.SourceFile -> B.Bytes

  /** One persona's memory, and the stored branch of each chunk that has one with
      the view it was last branched from. */
  datatype Shelf = Shelf(memory: Memory, branches: map<nat, B.Branch>, snaps: map<nat, F.Snap>)

  /** What can happen: the journal grows, memory is maintained, a kept chunk is
      reopened, a sealed chunk is claimed with a frozen view, a branch that asked
      for it is branched again, and a branch goes on. */
  datatype JointStep =
    | Write(entries: seq<Entry>)
    | Maintenance
    | Reopen(i: nat)
    | Claim(i: nat, snap: F.Snap)
    | Again(i: nat, snap: F.Snap)
    | Work(i: nat, step: B.Step)

  /** A view of this memory's journal: blocks and notices, then records of the
      journal, none twice. */
  ghost predicate IsView(m: Memory, snap: F.Snap) {
    A.NoRaw(snap.before) && A.Distinct(snap.records) && SealedViews.AllRecorded(m.log, snap.records)
  }

  /** A view from which the chunk may be branched. */
  ghost predicate Branchable(m: Memory, i: nat, snap: F.Snap) {
    i < |m.chunks| && IsView(m, snap) && N.Fit(F.RangesOf(snap), m.chunks, m.chunks[i])
  }

  /** The source a branch of the chunk reads. */
  function SourceIn(write: Writing, c: Chunk, snap: F.Snap): B.Bytes { write(F.FileOf(snap, c.first, c.last)) }

  /** A first claim starts a branch; a reopened chunk's branch is claimed again. */
  ghost function Branched(branches: map<nat, B.Branch>, i: nat, source: B.Bytes, size: nat): map<nat, B.Branch> {
    branches[i := if i in branches then B.Apply(branches[i], B.Reclaim(source))
                  else B.Branch(source, size, B.Preparing, None, None, None, 0, [])]
  }

  /** What a branch's settlement does to its chunk. */
  function Settled(m: Memory, i: nat, b: B.Branch): Memory {
    if b.chunk == B.Prepared && b.replacement.Some? then Layers.Apply(m, Shelved(i, b.replacement.value))
    else if b.chunk == B.Kept then Layers.Apply(m, KeptRaw(i))
    else m
  }

  predicate WantsAgain(s: Shelf, i: nat) {
    && i in s.branches && s.branches[i].chunk == B.Preparing
    && s.branches[i].work.Some? && s.branches[i].work.value.rebranch
  }

  predicate GoesOn(s: Shelf, i: nat, work: B.Step) {
    i in s.branches && s.branches[i].chunk == B.Preparing && !work.Reclaim? && !work.Rebranch?
  }

  ghost function Step(write: Writing, s: Shelf, step: JointStep): Shelf {
    match step
    case Write(entries) => s.(memory := Layers.Apply(s.memory, Journaled(entries)))
    case Maintenance => s.(memory := Maintain(s.memory))
    case Reopen(i) => s.(memory := Layers.Apply(s.memory, Reopened(i)))
    case Claim(i, snap) =>
      if Branchable(s.memory, i, snap) && s.memory.chunks[i].status == Sealed
      then var c := s.memory.chunks[i];
           Shelf(Layers.Apply(s.memory, Claimed(i)), Branched(s.branches, i, SourceIn(write, c, snap), c.tokens), s.snaps[i := snap])
      else s
    case Again(i, snap) =>
      if Branchable(s.memory, i, snap) && WantsAgain(s, i)
      then s.(branches := s.branches[i := B.Apply(s.branches[i], B.Rebranch(SourceIn(write, s.memory.chunks[i], snap)))],
              snaps := s.snaps[i := snap])
      else s
    case Work(i, work) =>
      if GoesOn(s, i, work)
      then var b := B.Apply(s.branches[i], work);
           s.(memory := Settled(s.memory, i, b), branches := s.branches[i := b])
      else s
  }

  ghost function Run(write: Writing, steps: seq<JointStep>): Shelf {
    if steps == [] then Shelf(Memory([], []), map[], map[])
    else Step(write, Run(write, steps[..|steps| - 1]), steps[|steps| - 1])
  }

  // ---------------------------------------------------------------- invariants

  /** The chunk carries a replacement. */
  predicate OnShelf(c: Chunk) { c.status == Prepared || Covering(c) }

  /** The chunk's status and its branch's agree, and a replacement on the shelf is
      the branch's own. */
  ghost predicate Agrees(c: Chunk, b: Option<B.Branch>) {
    && (b.Some? ==> b.value.size == c.tokens && B.BranchInv(b.value))
    && match c.status
       case Sealed => b.Some? ==> b.value.chunk == B.Kept
       case Preparing => b.Some? && b.value.chunk == B.Preparing
       case Kept => b.Some? && b.value.chunk == B.Kept
       case Failed => b.Some? ==> b.value.chunk == B.Prepared
       case _ => && b.Some? && b.value.chunk == B.Prepared && c.replacement.Some? && c.replacement == b.value.replacement
                 && c.shrunk == Pager.EstTokens(c.replacement.value)
  }

  function BranchOf(branches: map<nat, B.Branch>, i: nat): Option<B.Branch> {
    if i in branches then Some(branches[i]) else None
  }

  ghost predicate AllAgree(chunks: seq<Chunk>, branches: map<nat, B.Branch>) {
    && (forall i :: 0 <= i < |chunks| ==> Agrees(chunks[i], BranchOf(branches, i)))
    && (forall i :: i in branches ==> i < |chunks|)
  }

  ghost predicate JointInv(s: Shelf) { Layers.Inv(s.memory) && AllAgree(s.memory.chunks, s.branches) }

  // ------------------------------------------------------------- maintenance

  /** What a chunk stands for never changes. */
  predicate SameId(a: Chunk, b: Chunk) {
    b.num == a.num && b.layer == a.layer && b.sources == a.sources && b.first == a.first && b.last == a.last
  }

  /** Maintenance may apply, supersede or fail what is on the shelf, and seals new
      chunks; it changes no replacement. */
  predicate Moves(a: Chunk, b: Chunk) {
    && SameId(a, b) && b.tokens == a.tokens && b.replacement == a.replacement && b.shrunk == a.shrunk
    && (b.status == a.status || (OnShelf(a) && (OnShelf(b) || b.status == Failed)))
  }

  ghost predicate Advances(a: seq<Chunk>, b: seq<Chunk>) {
    && |a| <= |b|
    && (forall i :: 0 <= i < |a| ==> Moves(a[i], b[i]))
    && (forall i :: |a| <= i < |b| ==> b[i].status == Sealed)
  }

  lemma AdvancesTransitive(a: seq<Chunk>, b: seq<Chunk>, c: seq<Chunk>)
    requires Advances(a, b) && Advances(b, c)
    ensures Advances(a, c)
  {
    forall i | 0 <= i < |a| ensures Moves(a[i], c[i]) { assert Moves(a[i], b[i]) && Moves(b[i], c[i]); }
    forall i | |a| <= i < |c| ensures c[i].status == Sealed {
      if i < |b| { assert Moves(b[i], c[i]); }
    }
  }

  lemma {:induction false} ApplyRawAdvances(a: seq<Chunk>, live: int, i: nat)
    requires i <= |a|
    ensures Advances(a, ApplyRaw(a, live, i))
    decreases |a| - i
  {
    if i == |a| { return; }
    if live > LIVE_LIMIT && a[i].layer == 1 && a[i].status == Prepared {
      ApplyRawAdvances(Marked(a, i, Applied), live - a[i].tokens, i + 1);
      AdvancesTransitive(a, Marked(a, i, Applied), ApplyRaw(a, live, i));
      return;
    }
    ApplyRawAdvances(a, live, i + 1);
  }

  lemma SettleTargetAdvances(n: nat, a: seq<Chunk>, i: nat)
    requires Formed(n, a) && Representing(a) && i < |a|
    ensures Advances(a, SettleTarget(a, i))
  {
    hide Formed, Representing, Install, AppliedTokens;
    var t := a[i];
    if t.layer < 2 || t.status != Prepared || Stale(a, t) { return; }
    if AppliedTokens(a, SourceLayer(a, t)) <= LimitOf(SourceLayer(a, t)) { return; }
    LayerIsTwo(n, a, i);
    InstallShape(n, a, i);
  }

  lemma {:induction false} SettleTargetsAdvance(n: nat, a: seq<Chunk>, i: nat)
    requires Formed(n, a) && Representing(a) && i <= |a|
    ensures Advances(a, SettleTargets(a, i))
    decreases |a| - i
  {
    hide Formed, Representing, SettleTarget;
    if i == |a| { return; }
    SettleTargetAdvances(n, a, i);
    SettleTargetKeeps(n, a, i);
    SettleTargetsAdvance(n, SettleTarget(a, i), i + 1);
    AdvancesTransitive(a, SettleTarget(a, i), SettleTargets(a, i));
  }

  lemma CreateAdvances(a: seq<Chunk>)
    ensures Advances(a, CreateTarget(a))
  {
    hide RunOf, NextNum, Nums, Shrunk;
    if Busy(a) { return; }
    if RunOf(a, 1).Some? { return; }
    if RunOf(a, 2).Some? { return; }
  }

  lemma MaintainAdvances(m: Memory)
    requires Layers.Inv(m)
    ensures Advances(m.chunks, Maintain(m).chunks)
  {
    hide Formed, Representing, SealWalk, ApplyRaw, SettleTargets, CreateTarget, Covered, RawTokens, Advances;
    SealKeeps(m);
    var sealed, n := SealTail(m), |m.log|;
    assert Advances(m.chunks, sealed.chunks) by { SealAdvances(m); }
    var live := SealWalk(Tail(m)).tokens + RawTokens(sealed.chunks);
    var applied := ApplyRaw(sealed.chunks, live, 0);
    ApplyRawAdvances(sealed.chunks, live, 0);
    ApplyRawKeeps(n, sealed.chunks, live, 0);
    var settled := SettleTargets(applied, 0);
    SettleTargetsAdvance(n, applied, 0);
    CreateAdvances(settled);
    AdvancesTransitive(m.chunks, sealed.chunks, applied);
    AdvancesTransitive(m.chunks, applied, settled);
    AdvancesTransitive(m.chunks, settled, CreateTarget(settled));
  }

  lemma SealAdvances(m: Memory)
    ensures Advances(m.chunks, SealTail(m).chunks)
  {
    hide SealWalk, Covered, NextNum;
  }

  lemma AdvancedAgree(a: seq<Chunk>, b: seq<Chunk>, branches: map<nat, B.Branch>)
    requires AllAgree(a, branches) && Advances(a, b)
    ensures AllAgree(b, branches)
  {
    hide B.BranchInv;
    forall i | 0 <= i < |b| ensures Agrees(b[i], BranchOf(branches, i)) {
      if i < |a| {
        assert Agrees(a[i], BranchOf(branches, i)) && Moves(a[i], b[i]);
      } else {
        assert i !in branches;
      }
    }
  }

  // ------------------------------------------------------------------- branches

  lemma SizeStays(b: B.Branch, step: B.Step)
    ensures B.Apply(b, step).size == b.size
  {
    hide B.Next;
  }

  lemma FirstBranch(source: B.Bytes, size: nat)
    ensures B.BranchInv(B.Branch(source, size, B.Preparing, None, None, None, 0, []))
  {
    B.RunKeeps(source, size, []);
  }

  /** One chunk and its branch change; the others stay. */
  lemma OneAgrees(chunks: seq<Chunk>, branches: map<nat, B.Branch>, i: nat, c: Chunk, b: B.Branch)
    requires AllAgree(chunks, branches) && i < |chunks| && Agrees(c, Some(b))
    ensures AllAgree(chunks[i := c], branches[i := b])
  {
    hide B.BranchInv, Agrees;
    var chunks', branches' := chunks[i := c], branches[i := b];
    forall k | 0 <= k < |chunks'| ensures Agrees(chunks'[k], BranchOf(branches', k)) {
      if k != i { assert BranchOf(branches', k) == BranchOf(branches, k); }
    }
  }

  lemma OneAgreed(chunks: seq<Chunk>, branches: map<nat, B.Branch>, i: nat)
    requires AllAgree(chunks, branches) && i < |chunks|
    ensures Agrees(chunks[i], BranchOf(branches, i))
  {
  }

  lemma ClaimAgrees(write: Writing, s: Shelf, i: nat, snap: F.Snap)
    requires JointInv(s) && Branchable(s.memory, i, snap) && s.memory.chunks[i].status == Sealed
    ensures var s' := Step(write, s, Claim(i, snap)); AllAgree(s'.memory.chunks, s'.branches)
  {
    hide B.BranchInv, Layers.Inv, B.Next, N.Fit, IsView, SourceIn;
    var c := s.memory.chunks[i];
    var source := SourceIn(write, c, snap);
    var b := Branched(s.branches, i, source, c.tokens)[i];
    assert Agrees(c, BranchOf(s.branches, i));
    if i in s.branches {
      SizeStays(s.branches[i], B.Reclaim(source));
      B.StepKeeps(s.branches[i], B.Reclaim(source));
    } else {
      FirstBranch(source, c.tokens);
    }
    OneAgrees(s.memory.chunks, s.branches, i, c.(status := Preparing), b);
  }

  lemma AgainAgrees(write: Writing, s: Shelf, i: nat, snap: F.Snap)
    requires JointInv(s) && Branchable(s.memory, i, snap) && WantsAgain(s, i)
    ensures var s' := Step(write, s, Again(i, snap)); AllAgree(s'.memory.chunks, s'.branches)
  {
    hide B.BranchInv, Layers.Inv, B.Next, N.Fit, IsView, SourceIn, AllAgree;
    var c := s.memory.chunks[i];
    var again := B.Rebranch(SourceIn(write, c, snap));
    OneAgreed(s.memory.chunks, s.branches, i);
    assert c.status == Preparing;
    SizeStays(s.branches[i], again);
    B.StepKeeps(s.branches[i], again);
    OneAgrees(s.memory.chunks, s.branches, i, c, B.Apply(s.branches[i], again));
    assert s.memory.chunks[i := c] == s.memory.chunks;
  }

  /** A branch that settles hands over exactly what it certified. */
  lemma WorkAgrees(write: Writing, s: Shelf, i: nat, work: B.Step)
    requires JointInv(s) && GoesOn(s, i, work)
    ensures var s' := Step(write, s, Work(i, work)); AllAgree(s'.memory.chunks, s'.branches)
  {
    hide Layers.Inv, B.Next, B.WorkInv, B.SourceOf, Pager.EstTokens;
    var c, b := s.memory.chunks[i], B.Apply(s.branches[i], work);
    assert Agrees(c, BranchOf(s.branches, i));
    SizeStays(s.branches[i], work);
    B.StepKeeps(s.branches[i], work);
    assert c.status == Preparing;
    if b.chunk == B.Prepared {
      var text := b.replacement.value;
      OneAgrees(s.memory.chunks, s.branches, i, c.(status := Prepared, replacement := Some(text), shrunk := Pager.EstTokens(text)), b);
      return;
    }
    if b.chunk == B.Kept {
      OneAgrees(s.memory.chunks, s.branches, i, c.(status := Layers.Kept), b);
      return;
    }
    assert s.memory.chunks[i := c] == s.memory.chunks;
    OneAgrees(s.memory.chunks, s.branches, i, c, b);
  }

  lemma ReopenAgrees(s: Shelf, i: nat)
    requires JointInv(s) && i < |s.memory.chunks| && s.memory.chunks[i].status == Kept
    ensures AllAgree(Layers.Apply(s.memory, Reopened(i)).chunks, s.branches)
  {
    hide B.BranchInv, Layers.Inv;
    var c := s.memory.chunks[i];
    assert Agrees(c, BranchOf(s.branches, i));
    OneAgrees(s.memory.chunks, s.branches, i, c.(status := Sealed), s.branches[i]);
    assert s.branches[i := s.branches[i]] == s.branches;
  }

  // -------------------------------------------------------------------- every run

  lemma JointStepKeeps(write: Writing, s: Shelf, step: JointStep)
    requires JointInv(s)
    ensures JointInv(Step(write, s, step))
  {
    hide AllAgree, Layers.Inv, Maintain, B.Apply, Branched, Branchable;
    match step {
      case Write(entries) => Layers.StepKeeps(s.memory, Journaled(entries));
      case Maintenance =>
        Layers.StepKeeps(s.memory, Maintained);
        MaintainAdvances(s.memory);
        AdvancedAgree(s.memory.chunks, Maintain(s.memory).chunks, s.branches);
      case Reopen(i) =>
        Layers.StepKeeps(s.memory, Reopened(i));
        if i < |s.memory.chunks| && s.memory.chunks[i].status == Kept { ReopenAgrees(s, i); }
      case Claim(i, snap) =>
        Layers.StepKeeps(s.memory, Claimed(i));
        if Branchable(s.memory, i, snap) { ClaimedOnly(write, s, i, snap); }
      case Again(i, snap) =>
        if Branchable(s.memory, i, snap) && WantsAgain(s, i) { AgainAgrees(write, s, i, snap); }
      case Work(i, work) =>
        if GoesOn(s, i, work) {
          var b := B.Apply(s.branches[i], work);
          Layers.StepKeeps(s.memory, KeptRaw(i));
          if b.replacement.Some? { Layers.StepKeeps(s.memory, Shelved(i, b.replacement.value)); }
          WorkAgrees(write, s, i, work);
        }
    }
  }

  lemma ClaimedOnly(write: Writing, s: Shelf, i: nat, snap: F.Snap)
    requires JointInv(s) && Branchable(s.memory, i, snap)
    ensures var s' := Step(write, s, Claim(i, snap));
            AllAgree(s'.memory.chunks, s'.branches) && (s' == s || s'.memory == Layers.Apply(s.memory, Claimed(i)))
  {
    hide AllAgree, Layers.Inv, Layers.Apply, Branched, SourceIn, N.Fit, IsView;
    if s.memory.chunks[i].status == Sealed { ClaimAgrees(write, s, i, snap); }
  }

  lemma {:induction false} JointRunKeeps(write: Writing, steps: seq<JointStep>)
    ensures JointInv(Run(write, steps))
  {
    if steps == [] { return; }
    hide JointInv, Step;
    JointRunKeeps(write, steps[..|steps| - 1]);
    JointStepKeeps(write, Run(write, steps[..|steps| - 1]), steps[|steps| - 1]);
  }

  /** On every joint run each record is sent raw or stands in exactly one block. */
  lemma EachRecordOnceJointly(write: Writing, steps: seq<JointStep>, loading: Option<InputId>, x: int)
    requires var m := Run(write, steps).memory; 1 <= x <= |m.log| && !Excluded(m.log[x - 1], loading)
    ensures var m := Run(write, steps).memory;
            var raw, blocks := RawView(m, loading, |m.log|), Blocks(m);
            && (x in raw <==> !InBlock(blocks, x))
            && (forall b, c :: 0 <= b < |blocks| && 0 <= c < |blocks| && In(blocks[b], x) && In(blocks[c], x) ==> b == c)
  {
    hide AllAgree, Run;
    JointRunKeeps(write, steps);
    OnceIn(Run(write, steps).memory, loading, x);
  }
}
