/** The one source file of a memory branch, made of messages of its frozen view. */
module SourceFiles {
  import opened Common
  import opened Render
  import opened Attribution
  import opened Snapshot
  import L = Layers

  /** A frozen view: the items put before the records, and the records. */
  datatype Snap = Snap(before: seq<Item>, records: seq<Record>)

  /** A message of the view, with the ranges it carries. */
  datatype Passage = Passage(ranges: seq<Range>, message: Message)

  datatype SourceFile = SourceFile(first: int, last: int, passages: seq<Passage>)

  function RangesOf(snap: Snap): seq<Range> { Ranges(snap.before, snap.records) }

  function ViewOf(snap: Snap): seq<Item> { View(snap.before, snap.records) }

  /** The passages of the first `n` messages. */
  function Passages(ranges: seq<Range>, view: seq<Item>, first: int, last: int, n: nat): seq<Passage>
    requires n <= |view|
  {
    if n == 0 then []
    else
      var group := GroupOf(ranges, first, last, n);
      Passages(ranges, view, first, last, n - 1) + if group == [] then [] else [Passage(group, view[n - 1].message)]
  }

  /** memorySource: the messages that carry the chunk, in order. */
  function FileOf(snap: Snap, first: int, last: int): SourceFile {
    SourceFile(first, last, Passages(RangesOf(snap), ViewOf(snap), first, last, |ViewOf(snap)|))
  }

  // ---------------------------------------------------------- as the code builds it

  lemma {:induction false} PassagesSkip(ranges: seq<Range>, view: seq<Item>, first: int, last: int, from: nat, to: nat)
    requires from <= to <= |view| && forall m :: from < m <= to ==> !Selected(ranges, first, last, m)
    ensures Passages(ranges, view, first, last, to) == Passages(ranges, view, first, last, from)
  {
    if from < to {
      PassagesSkip(ranges, view, first, last, from, to - 1);
      GroupEmpty(ranges, first, last, to);
    }
  }

  ghost predicate IndicesIn(ranges: seq<Range>, view: seq<Item>) {
    forall j :: 0 <= j < |ranges| && ranges[j].index.Some? ==> 1 <= ranges[j].index.value <= |view|
  }

  /** memorySource as it runs: group the ranges by message, then list the messages
      by index. */
  method WriteSource(ranges: seq<Range>, view: seq<Item>, first: int, last: int) returns (file: SourceFile)
    requires IndicesIn(ranges, view)
    ensures file == SourceFile(first, last, Passages(ranges, view, first, last, |view|))
  {
    hide Passages, GroupOf;
    var order, groups := MemorySource(ranges, first, last);
    var passages: seq<Passage> := [];
    var i: nat, done: nat := 0, 0;
    assert passages == Passages(ranges, view, first, last, 0) by { NoPassages(ranges, view, first, last); }
    while i < |order|
      invariant 0 <= i <= |order| && done <= |view|
      invariant done == if i == 0 then 0 else order[i - 1]
      invariant passages == Passages(ranges, view, first, last, done)
    {
      var m := order[i];
      assert m in order;
      IndexIn(ranges, view, first, last, m);
      forall k | done < k < m ensures !Selected(ranges, first, last, k) { NotBetween(order, i, k); }
      PassagesSkip(ranges, view, first, last, done, m - 1);
      GroupEmpty(ranges, first, last, m);
      OnePassage(ranges, view, first, last, m);
      passages := passages + [Passage(groups[m], view[m - 1].message)];
      i, done := i + 1, m;
    }
    forall k | done < k <= |view| ensures !Selected(ranges, first, last, k) { NotBetween(order, i, k); }
    PassagesSkip(ranges, view, first, last, done, |view|);
    file := SourceFile(first, last, passages);
  }

  lemma NoPassages(ranges: seq<Range>, view: seq<Item>, first: int, last: int)
    ensures Passages(ranges, view, first, last, 0) == []
  {
  }

  lemma OnePassage(ranges: seq<Range>, view: seq<Item>, first: int, last: int, m: nat)
    requires 1 <= m <= |view| && GroupOf(ranges, first, last, m) != []
    ensures Passages(ranges, view, first, last, m)
            == Passages(ranges, view, first, last, m - 1) + [Passage(GroupOf(ranges, first, last, m), view[m - 1].message)]
  {
  }

  lemma IndexIn(ranges: seq<Range>, view: seq<Item>, first: int, last: int, m: nat)
    requires IndicesIn(ranges, view) && Selected(ranges, first, last, m)
    ensures 1 <= m <= |view|
  {
  }

  lemma NotBetween(order: seq<nat>, i: nat, k: nat)
    requires (forall p, q :: 0 <= p < q < |order| ==> order[p] < order[q]) && i <= |order|
    requires (i > 0 ==> order[i - 1] < k) && (i < |order| ==> k < order[i])
    ensures k !in order
  {
  }

  // --------------------------------------------------------------- what is in it

  ghost predicate InFile(file: SourceFile, r: Range, message: Message) {
    exists p :: 0 <= p < |file.passages| && file.passages[p].message == message && r in file.passages[p].ranges
  }

  lemma {:induction false} PassageAt(ranges: seq<Range>, view: seq<Item>, first: int, last: int, n: nat, m: nat) returns (p: nat)
    requires 1 <= m <= n <= |view| && GroupOf(ranges, first, last, m) != []
    ensures p < |Passages(ranges, view, first, last, n)|
    ensures Passages(ranges, view, first, last, n)[p] == Passage(GroupOf(ranges, first, last, m), view[m - 1].message)
  {
    if m == n { return |Passages(ranges, view, first, last, n)| - 1; }
    p := PassageAt(ranges, view, first, last, n - 1, m);
  }

  /** A range inside the chunk is in the file with its message. */
  lemma RangeInFile(snap: Snap, first: int, last: int, j: nat)
    requires j < |RangesOf(snap)| && Inside(RangesOf(snap)[j], first, last) && RangesOf(snap)[j].index.Some?
    ensures var r := RangesOf(snap)[j];
            1 <= r.index.value <= |ViewOf(snap)| && InFile(FileOf(snap, first, last), r, ViewOf(snap)[r.index.value - 1].message)
  {
    var ranges, view := RangesOf(snap), ViewOf(snap);
    var r := ranges[j];
    RangeOfItem(snap.before, snap.records, j);
    hide RangesOf, ViewOf, Passages, GroupOf;
    var m := r.index.value;
    GroupHolds(ranges, first, last, m);
    assert r in GroupOf(ranges, first, last, m);
    var p := PassageAt(ranges, view, first, last, |view|, m);
    assert FileOf(snap, first, last).passages[p].message == view[m - 1].message;
  }
}
