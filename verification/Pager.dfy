/** Reading a private file page by page: UTF-8 pages that never split a code
    point, and the test that every byte was read. */
module Pager {
  import opened Common

  // -------------------------------------------------------------------- UTF-8

  type Byte = b: int | 0 <= b < 256

  /** A Unicode scalar value: no surrogates. */
  type Scalar = c: int | 0 <= c < 0xD800 || 0xE000 <= c < 0x11_0000

  /** The encoding of section 3 of RFC 3629. */
  function EncodeOne(c: Scalar): (r: seq<Byte>)
    ensures 1 <= |r| <= 4
    ensures !Continuation(r[0]) && forall k :: 1 <= k < |r| ==> Continuation(r[k])
  {
    if c < 0x80 then [c]
    else if c < 0x800 then [0xC0 + c / 0x40, 0x80 + c % 0x40]
    else if c < 0x1_0000 then [0xE0 + c / 0x1000, 0x80 + c / 0x40 % 0x40, 0x80 + c % 0x40]
    else [0xF0 + c / 0x4_0000, 0x80 + c / 0x1000 % 0x40, 0x80 + c / 0x40 % 0x40, 0x80 + c % 0x40]
  }

  /** The estimate of a stored text: four bytes a token, rounded up. */
  function EstTokens(text: seq<Byte>): nat { (|text| + 3) / 4 }

  /** `(b & 0xc0) === 0x80`. */
  predicate Continuation(b: Byte) { 0x80 <= b < 0xC0 }

  function Encode(text: seq<Scalar>): seq<Byte> {
    if text == [] then [] else Encode(text[..|text| - 1]) + EncodeOne(text[|text| - 1])
  }

  /** The byte offset of code point `k`. */
  function OffsetOf(text: seq<Scalar>, k: nat): nat
    requires k <= |text|
  {
    |Encode(text[..k])|
  }

  ghost predicate Boundary(text: seq<Scalar>, i: int) {
    exists k: nat :: k <= |text| && OffsetOf(text, k) == i
  }

  lemma {:induction false} EncodeAppend(a: seq<Scalar>, b: seq<Scalar>)
    ensures Encode(a + b) == Encode(a) + Encode(b)
  {
    if b == [] {
      assert a + b == a;
      return;
    }
    var n := |b| - 1;
    assert (a + b)[..|a + b| - 1] == a + b[..n];
    EncodeAppend(a, b[..n]);
  }

  /** The bytes between two code points are the encoding of the text between. */
  lemma SliceEncodes(text: seq<Scalar>, j: nat, k: nat)
    requires j <= k <= |text|
    ensures OffsetOf(text, j) <= OffsetOf(text, k) <= |Encode(text)|
    ensures Encode(text)[OffsetOf(text, j)..OffsetOf(text, k)] == Encode(text[j..k])
  {
    assert text[..k] == text[..j] + text[j..k];
    assert text == text[..k] + text[k..];
    EncodeAppend(text[..j], text[j..k]);
    EncodeAppend(text[..k], text[k..]);
  }

  lemma OneFurther(text: seq<Scalar>, k: nat)
    requires k < |text|
    ensures OffsetOf(text, k) < OffsetOf(text, k + 1) <= OffsetOf(text, k) + 4
    ensures OffsetOf(text, k + 1) <= |Encode(text)|
    ensures OffsetOf(text, k + 1) == OffsetOf(text, k) + |EncodeOne(text[k])|
  {
    SliceEncodes(text, k + 1, |text|);
    assert text[..k + 1][..k] == text[..k];
  }

  /** A byte starts a code point exactly when it is not a continuation byte. */
  lemma {:induction false} StartsIffNotContinuation(text: seq<Scalar>, i: nat)
    requires i < |Encode(text)|
    ensures !Continuation(Encode(text)[i]) <==> Boundary(text, i)
  {
    var n := |text| - 1;
    var init, at := text[..n], OffsetOf(text, n);
    forall k: nat | k <= n ensures OffsetOf(text, k) == OffsetOf(init, k) { assert init[..k] == text[..k]; }
    assert text[..|text|] == text;
    if i < at {
      StartsIffNotContinuation(init, i);
      if Boundary(init, i) {
        var k: nat :| k <= n && OffsetOf(init, k) == i;
        assert OffsetOf(text, k) == i;
      }
      if Boundary(text, i) {
        var k: nat :| k <= |text| && OffsetOf(text, k) == i;
        assert k <= n && OffsetOf(init, k) == i;
      }
    } else {
      LastOne(text, i);
    }
  }

  lemma LastOne(text: seq<Scalar>, i: nat)
    requires text != [] && OffsetOf(text, |text| - 1) <= i < |Encode(text)|
    ensures !Continuation(Encode(text)[i]) <==> Boundary(text, i)
  {
    var n := |text| - 1;
    var at := OffsetOf(text, n);
    assert Encode(text)[i] == EncodeOne(text[n])[i - at];
    if i == at { return; }
    forall k: nat | k <= |text| ensures OffsetOf(text, k) != i {
      if k <= n { SliceEncodes(text, k, n); } else { assert text[..k] == text; }
    }
  }

  // -------------------------------------------------------------------- pages

  const MAX_LEN := 1_048_576

  datatype PageResult =
    | Page(start: nat, end: nat)
    | InvalidRange
    | NotBoundary
    | LenTooSmall

  /** Back off to the last code point that starts at or before `end`. */
  function BackOff(bytes: seq<Byte>, start: nat, end: nat): (r: nat)
    requires start <= end <= |bytes|
    ensures start <= r <= end
    ensures r == start || r == |bytes| || !Continuation(bytes[r])
    ensures forall k :: r < k <= end ==> k < |bytes| && Continuation(bytes[k])
    decreases end
  {
    if end > start && end < |bytes| && Continuation(bytes[end]) then BackOff(bytes, start, end - 1) else end
  }

  function ReadAt(bytes: seq<Byte>, offset: int, len: int): PageResult {
    if offset < 0 || len < 1 || len > MAX_LEN || offset > |bytes| then InvalidRange
    else if offset < |bytes| && Continuation(bytes[offset]) then NotBoundary
    else
      var end := BackOff(bytes, offset, Min(|bytes|, offset + len));
      if end == offset && offset < |bytes| then LenTooSmall else Page(offset, end)
  }

  /** The read as privateFile runs it. */
  method ReadPage(bytes: seq<Byte>, offset: int, len: int) returns (r: PageResult)
    ensures r == ReadAt(bytes, offset, len)
  {
    if offset < 0 || len < 1 || len > MAX_LEN || offset > |bytes| { return InvalidRange; }
    var start: nat, end: nat := offset, Min(|bytes|, offset + len);
    if start < |bytes| && Continuation(bytes[start]) { return NotBoundary; }
    while end > start && end < |bytes| && Continuation(bytes[end])
      invariant start <= end <= |bytes|
      invariant BackOff(bytes, start, end) == BackOff(bytes, start, Min(|bytes|, offset + len))
    {
      end := end - 1;
    }
    if end == start && start < |bytes| { return LenTooSmall; }
    return Page(start, end);
  }

  /** From a code point, a page of at least four bytes succeeds, ends at a code
      point, advances unless the file is exhausted, and stays within `len`. */
  lemma PageAdvances(text: seq<Scalar>, k: nat, len: int)
    requires k <= |text| && 4 <= len <= MAX_LEN
    ensures var start := OffsetOf(text, k);
            var r := ReadAt(Encode(text), start, len);
            && r.Page? && r.start == start && r.end <= start + len && r.end <= |Encode(text)|
            && Boundary(text, r.end)
            && (k < |text| ==> start < r.end)
            && (k == |text| ==> r.end == start == |Encode(text)|)
  {
    EndIsBoundary(text);
    hide Encode, OffsetOf, EncodeOne, BackOff;
    var bytes, start := Encode(text), OffsetOf(text, k);
    if k == |text| { return; }
    OneFurther(text, k);
    var next := OffsetOf(text, k + 1);
    assert Boundary(text, start) && Boundary(text, next);
    StartsIffNotContinuation(text, start);
    var end := BackOff(bytes, start, Min(|bytes|, start + len));
    if next < |bytes| { StartsIffNotContinuation(text, next); }
    assert end >= next;
    if end < |bytes| { StartsIffNotContinuation(text, end); }
  }

  lemma EndIsBoundary(text: seq<Scalar>)
    ensures OffsetOf(text, |text|) == |Encode(text)| && Boundary(text, |Encode(text)|)
  {
    assert text[..|text|] == text;
    assert OffsetOf(text, |text|) == |Encode(text)|;
  }

  /** Refused are exactly a start outside the file, a length that is not between 1 and
      1,048,576, and within these a start inside a code point and a page too short for
      the next code point. */
  lemma RefusedExactly(text: seq<Scalar>, offset: int, len: int)
    ensures var bytes := Encode(text);
            && (ReadAt(bytes, offset, len) == InvalidRange <==> !(0 <= offset <= |bytes| && 1 <= len <= 1_048_576))
            && (0 <= offset <= |bytes| && 1 <= len <= 1_048_576 ==>
                  && (ReadAt(bytes, offset, len) == NotBoundary <==> !Boundary(text, offset))
                  && (ReadAt(bytes, offset, len) == LenTooSmall <==>
                        exists k: nat :: k < |text| && OffsetOf(text, k) == offset && OffsetOf(text, k + 1) > offset + len))
  {
    EndIsBoundary(text);
    hide Encode, OffsetOf, BackOff;
    var bytes := Encode(text);
    if !(0 <= offset <= |bytes| && 1 <= len <= 1_048_576) { return; }
    if offset == |bytes| {
      forall k: nat | k < |text| ensures OffsetOf(text, k) != offset { OneFurther(text, k); }
      return;
    }
    StartsIffNotContinuation(text, offset);
    if !Boundary(text, offset) {
      forall k: nat | k < |text| ensures OffsetOf(text, k) != offset { assert OffsetOf(text, k) == OffsetOf(text, k); }
      return;
    }
    var k: nat :| k <= |text| && OffsetOf(text, k) == offset;
    TooShort(text, k, len);
    forall j: nat | j < |text| && OffsetOf(text, j) == offset ensures j == k { SameOffset(text, j, k); }
  }

  lemma OffsetsDistinct(text: seq<Scalar>, j: nat, k: nat)
    requires j < k <= |text|
    ensures OffsetOf(text, j) < OffsetOf(text, k)
  {
    OneFurther(text, j);
    SliceEncodes(text, j + 1, k);
  }

  lemma SameOffset(text: seq<Scalar>, j: nat, k: nat)
    requires j <= |text| && k <= |text| && OffsetOf(text, j) == OffsetOf(text, k)
    ensures j == k
  {
    if j < k { OffsetsDistinct(text, j, k); } else if k < j { OffsetsDistinct(text, k, j); }
  }

  /** The bytes inside a code point are continuation bytes. */
  lemma InsideContinues(text: seq<Scalar>, k: nat, i: nat)
    requires k < |text| && OffsetOf(text, k) < i < OffsetOf(text, k + 1)
    ensures i < |Encode(text)| && Continuation(Encode(text)[i])
  {
    OneFurther(text, k);
    forall j: nat | j <= |text| ensures OffsetOf(text, j) != i {
      if j <= k { SliceEncodes(text, j, k); } else { SliceEncodes(text, k + 1, j); }
    }
    StartsIffNotContinuation(text, i);
  }

  lemma TooShort(text: seq<Scalar>, k: nat, len: int)
    requires k < |text| && 1 <= len <= MAX_LEN
    ensures var offset := OffsetOf(text, k);
            && ReadAt(Encode(text), offset, len) != NotBoundary
            && (ReadAt(Encode(text), offset, len) == LenTooSmall <==> OffsetOf(text, k + 1) > offset + len)
  {
    hide Encode, OffsetOf, EncodeOne;
    var bytes, offset, next := Encode(text), OffsetOf(text, k), OffsetOf(text, k + 1);
    OneFurther(text, k);
    assert Boundary(text, offset) && Boundary(text, next);
    StartsIffNotContinuation(text, offset);
    if next <= offset + len {
      if next < |bytes| { StartsIffNotContinuation(text, next); }
    } else {
      forall i | offset < i < next ensures Continuation(bytes[i]) { InsideContinues(text, k, i); }
    }
  }

  // ------------------------------------------------------------ the whole file

  type Range = (nat, nat)

  /** Follow next_offset from code point `k` to the end of the file; `lens` is
      the page length the reader asks for at each offset. */
  ghost function Pages(text: seq<Scalar>, k: nat, lens: int -> int): (r: seq<Range>)
    requires k <= |text| && forall i :: 4 <= lens(i) <= MAX_LEN
    ensures r != []
    decreases |text| - k
  {
    PageAdvances(text, k, lens(OffsetOf(text, k)));
    var page := ReadAt(Encode(text), OffsetOf(text, k), lens(OffsetOf(text, k)));
    if page.end == |Encode(text)| then [(page.start, page.end)]
    else
      var j := IndexAt(text, page.end);
      assert k < j by { NextIsLater(text, k, j, page.end); }
      [(page.start, page.end)] + Pages(text, j, lens)
  }

  ghost function IndexAt(text: seq<Scalar>, i: int): (k: nat)
    requires Boundary(text, i)
    ensures k <= |text| && OffsetOf(text, k) == i
  {
    var k: nat :| k <= |text| && OffsetOf(text, k) == i; k
  }

  lemma NextIsLater(text: seq<Scalar>, k: nat, j: nat, end: nat)
    requires k <= |text| && j <= |text| && OffsetOf(text, j) == end
    requires (k < |text| ==> OffsetOf(text, k) < end) && (k == |text| ==> end == |Encode(text)|)
    requires end != |Encode(text)|
    ensures k < j
  {
    if j <= k { SliceEncodes(text, j, k); }
  }

  /** Consecutive pages from `from` to the end. */
  ghost predicate Consecutive(pages: seq<Range>, from: nat, to: nat) {
    && pages != [] && pages[0].0 == from && pages[|pages| - 1].1 == to
    && (forall p :: 0 <= p < |pages| ==> pages[p].0 <= pages[p].1)
    && (forall p :: 0 < p < |pages| ==> pages[p].0 == pages[p - 1].1)
  }

  /** What the pages spell, put together. */
  ghost function Joined(bytes: seq<Byte>, pages: seq<Range>): seq<Byte> {
    if pages == [] then []
    else if pages[0].0 <= pages[0].1 <= |bytes| then bytes[pages[0].0..pages[0].1] + Joined(bytes, pages[1..])
    else []
  }

  /** The pages follow one another from `from` to the end, each starts and ends
      at a code point, every page but the last advances, and together they are
      the rest of the file. */
  ghost predicate ReadOn(text: seq<Scalar>, from: nat, pages: seq<Range>) {
    && Consecutive(pages, from, |Encode(text)|)
    && (forall p :: 0 <= p < |pages| ==> Boundary(text, pages[p].0) && Boundary(text, pages[p].1))
    && (forall p :: 0 <= p < |pages| - 1 ==> pages[p].0 < pages[p].1)
    && from <= |Encode(text)|
    && Joined(Encode(text), pages) == Encode(text)[from..]
  }

  lemma LastPage(text: seq<Scalar>, start: nat)
    requires Boundary(text, start) && Boundary(text, |Encode(text)|) && start <= |Encode(text)|
    ensures ReadOn(text, start, [(start, |Encode(text)|)])
  {
    hide Encode, OffsetOf, Boundary;
    var bytes := Encode(text);
    var pages: seq<Range> := [(start, |bytes|)];
    assert Joined(bytes, pages) == bytes[start..|bytes|] + Joined(bytes, pages[1..]);
  }

  lemma MorePages(text: seq<Scalar>, start: nat, end: nat, rest: seq<Range>)
    requires ReadOn(text, end, rest) && Boundary(text, start) && start < end
    ensures ReadOn(text, start, [(start, end)] + rest)
  {
    hide Encode, OffsetOf, Boundary;
    var pages: seq<Range> := [(start, end)] + rest;
    assert pages[1..] == rest;
    assert forall p :: 0 < p < |pages| ==> pages[p] == rest[p - 1];
  }

  /** Following next_offset from any code point on reads the rest of the file. */
  lemma {:induction false} PagesReadAll(text: seq<Scalar>, k: nat, lens: int -> int)
    requires k <= |text| && forall i :: 4 <= lens(i) <= MAX_LEN
    ensures ReadOn(text, OffsetOf(text, k), Pages(text, k, lens))
    decreases |text| - k
  {
    hide Encode, OffsetOf, ReadAt, ReadOn;
    var bytes, start := Encode(text), OffsetOf(text, k);
    PageAdvances(text, k, lens(start));
    var page := ReadAt(bytes, start, lens(start));
    assert Boundary(text, start);
    if page.end == |bytes| {
      LastPage(text, start);
      return;
    }
    var j := IndexAt(text, page.end);
    NextIsLater(text, k, j, page.end);
    PagesReadAll(text, j, lens);
    MorePages(text, start, page.end, Pages(text, j, lens));
  }

  // ------------------------------------------------------------- completeRead

  predicate Reads(r: Range, x: int) { r.0 <= x < r.1 }

  ghost predicate ReadAtAll(ranges: seq<Range>, x: int) { exists p :: 0 <= p < |ranges| && Reads(ranges[p], x) }

  /** Every byte of a file of this length was read. */
  ghost predicate AllRead(ranges: seq<Range>, length: nat) {
    forall x :: 0 <= x < length ==> ReadAtAll(ranges, x)
  }

  /** completeRead answers true exactly when every byte was read. */
  method CompleteRead(ranges: seq<Range>, length: nat) returns (complete: bool)
    requires forall p :: 0 <= p < |ranges| ==> ranges[p].0 <= length
    ensures complete <==> AllRead(ranges, length)
  {
    var sorted := SortedCopy(ranges, (r: Range) => r.0);
    assert forall p :: 0 <= p < |sorted| ==> sorted[p] in ranges;
    var end, i := 0, 0;
    while i < |sorted|
      invariant 0 <= i <= |sorted| && 0 <= end
      invariant forall x :: 0 <= x < end ==> ReadAtAll(ranges, x)
      invariant forall p :: 0 <= p < i ==> sorted[p].1 <= end
    {
      if sorted[i].0 > end {
        assert end < length;
        assert !ReadAtAll(ranges, end) by { Unread(ranges, sorted, i, end); }
        return false;
      }
      ghost var p :| 0 <= p < |ranges| && ranges[p] == sorted[i];
      assert forall x :: end <= x < sorted[i].1 ==> Reads(ranges[p], x);
      end := Max(end, sorted[i].1);
      i := i + 1;
    }
    if end < length { assert !ReadAtAll(ranges, end) by { Unread(ranges, sorted, i, end); } }
    return end >= length;
  }

  lemma Unread(ranges: seq<Range>, sorted: seq<Range>, i: nat, end: int)
    requires i <= |sorted| && forall e :: e in sorted <==> e in ranges
    requires forall p :: 0 <= p < i ==> sorted[p].1 <= end
    requires forall p, q :: 0 <= p < q < |sorted| ==> sorted[p].0 <= sorted[q].0
    requires i < |sorted| ==> sorted[i].0 > end
    ensures !ReadAtAll(ranges, end)
  {
    forall p | 0 <= p < |ranges| ensures !Reads(ranges[p], end) {
      assert ranges[p] in sorted;
      var q :| 0 <= q < |sorted| && sorted[q] == ranges[p];
      assert q < i || sorted[i].0 <= sorted[q].0;
    }
  }

  /** Consecutive pages read every byte between their ends. */
  lemma {:induction false} ConsecutiveReads(pages: seq<Range>, from: nat, to: nat, x: int)
    requires Consecutive(pages, from, to) && from <= x < to
    ensures ReadAtAll(pages, x)
  {
    if x < pages[0].1 {
      assert Reads(pages[0], x);
      return;
    }
    assert |pages| > 1;
    var rest := pages[1..];
    assert pages[1].0 == pages[0].1;
    ConsecutiveReads(rest, pages[0].1, to, x);
    var p :| 0 <= p < |rest| && Reads(rest[p], x);
    assert pages[p + 1] == rest[p];
  }

  /** A reader that follows next_offset from the start has read everything. */
  lemma ReadingThroughCompletes(text: seq<Scalar>, lens: int -> int)
    requires forall i :: 4 <= lens(i) <= MAX_LEN
    ensures AllRead(Pages(text, 0, lens), |Encode(text)|)
    ensures Joined(Encode(text), Pages(text, 0, lens)) == Encode(text)
  {
    PagesReadAll(text, 0, lens);
    assert OffsetOf(text, 0) == 0;
    forall x | 0 <= x < |Encode(text)| ensures ReadAtAll(Pages(text, 0, lens), x) {
      ConsecutiveReads(Pages(text, 0, lens), 0, |Encode(text)|, x);
    }
  }
}
