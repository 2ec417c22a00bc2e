/** conversation_history: reading and searching the journal page by page gives
    exactly what reading it whole would.

    Record k (from 1) is its serialization, a non-empty sequence of code points. */
module History {
  import opened Common

  type Text = seq<int>

  const READ_BUDGET := 16_384
  const SCAN_RECORDS := 2_000

  // ---------------------------------------------------------------------- read

  /** A part of record `num`: its code points from `start` on. */
  datatype Piece = Piece(num: nat, start: nat, text: Text)

  /** `nextAfter` continues after a record, `nextRead` inside one. */
  datatype Page = Page(pieces: seq<Piece>, nextAfter: Option<nat>, nextRead: Option<nat>)

  function Whole(texts: seq<Text>, k: nat): Piece
    requires 1 <= k <= |texts|
  {
    Piece(k, 0, texts[k - 1])
  }

  function Fragment(texts: seq<Text>, k: nat, offset: nat): Piece
    requires 1 <= k <= |texts| && offset <= |texts[k - 1]|
  {
    Piece(k, offset, texts[k - 1][offset..Min(offset + READ_BUDGET, |texts[k - 1]|)])
  }

  /** The rest of a page, at record `k` of the range up to `hi`, with room for
      `left` more records after `used` characters; `some` says whether the page
      already has a record. */
  function Take(texts: seq<Text>, k: nat, hi: nat, left: nat, used: nat, some: bool): Page
    requires 1 <= k && hi <= |texts|
    decreases hi + 1 - k
  {
    if k > hi then Page([], None, None)
    else
      var total := |texts[k - 1]|;
      if left == 0 || (some && used + total > READ_BUDGET) then Page([], Some(k - 1), None)
      else if used + total <= READ_BUDGET then
        var rest := Take(texts, k + 1, hi, left - 1, used + total, true);
        rest.(pieces := [Whole(texts, k)] + rest.pieces)
      else Page([Fragment(texts, k, 0)], if k < hi then Some(k) else None, Some(READ_BUDGET))
  }

  /** A record that fits is taken whole. */
  lemma TakesWhole(texts: seq<Text>, k: nat, hi: nat, left: nat, used: nat, some: bool)
    requires 1 <= k <= hi <= |texts| && left > 0 && used + |texts[k - 1]| <= READ_BUDGET
    ensures var rest := Take(texts, k + 1, hi, left - 1, used + |texts[k - 1]|, true);
            Take(texts, k, hi, left, used, some) == rest.(pieces := [Whole(texts, k)] + rest.pieces)
  {
  }

  /** A page ends at the end of the range, when it is full, or with a fragment. */
  lemma TakesNoMore(texts: seq<Text>, k: nat, hi: nat, left: nat, used: nat, some: bool)
    requires 1 <= k && hi <= |texts|
    ensures k > hi ==> Take(texts, k, hi, left, used, some) == Page([], None, None)
    ensures k <= hi && (left == 0 || (some && used + |texts[k - 1]| > READ_BUDGET)) ==>
              Take(texts, k, hi, left, used, some) == Page([], Some(k - 1), None)
    ensures k <= hi && left > 0 && !some && used == 0 && |texts[k - 1]| > READ_BUDGET ==>
              Take(texts, k, hi, left, used, some) == Page([Fragment(texts, k, 0)], if k < hi then Some(k) else None, Some(READ_BUDGET))
  {
  }

  function ReadPage(texts: seq<Text>, from: nat, hi: nat, limit: nat): Page
    requires 1 <= from && hi <= |texts|
  {
    Take(texts, from, hi, limit, 0, false)
  }

  /** The page as the tool builds it. */
  method BuildPage(texts: seq<Text>, from: nat, hi: nat, limit: nat) returns (page: Page)
    requires 1 <= from && hi <= |texts| && limit >= 1
    ensures page == ReadPage(texts, from, hi, limit)
  {
    hide Whole, Fragment, Take;
    var pieces: seq<Piece> := [];
    var k: nat, used: nat := from, 0;
    while k <= hi
      invariant from <= k && |pieces| == k - from <= limit && (pieces == [] ==> used == 0)
      invariant var rest := Take(texts, k, hi, limit - |pieces|, used, pieces != []);
                ReadPage(texts, from, hi, limit) == rest.(pieces := pieces + rest.pieces)
    {
      var total := |texts[k - 1]|;
      TakesNoMore(texts, k, hi, limit - |pieces|, used, pieces != []);
      if |pieces| >= limit || (pieces != [] && used + total > READ_BUDGET) {
        assert pieces + [] == pieces;
        return Page(pieces, Some(k - 1), None);
      }
      if used + total > READ_BUDGET {
        return Page(pieces + [Fragment(texts, k, 0)], if k < hi then Some(k) else None, Some(READ_BUDGET));
      }
      TakesWhole(texts, k, hi, limit - |pieces|, used, pieces != []);
      ghost var rest := Take(texts, k + 1, hi, limit - |pieces| - 1, used + total, true);
      assert pieces + ([Whole(texts, k)] + rest.pieces) == (pieces + [Whole(texts, k)]) + rest.pieces;
      pieces, used, k := pieces + [Whole(texts, k)], used + total, k + 1;
    }
    TakesNoMore(texts, k, hi, limit - |pieces|, used, pieces != []);
    assert pieces + [] == pieces;
    return Page(pieces, None, None);
  }

  /** Reading on inside record `k`: its remaining fragments. */
  function Fragments(texts: seq<Text>, k: nat, offset: nat): seq<Piece>
    requires 1 <= k <= |texts| && offset <= |texts[k - 1]|
    decreases |texts[k - 1]| - offset
  {
    var end := Min(offset + READ_BUDGET, |texts[k - 1]|);
    [Fragment(texts, k, offset)] + if end < |texts[k - 1]| then Fragments(texts, k, end) else []
  }

  /** What a page promises about its continuation. */
  ghost predicate Continues(texts: seq<Text>, from: nat, hi: nat, page: Page)
    requires 1 <= from && hi <= |texts|
  {
    && (page.nextAfter.Some? ==> from <= page.nextAfter.value < hi)
    && (page.nextRead.Some? ==>
          && page.pieces != [] && from <= hi && page.pieces == [Fragment(texts, from, 0)]
          && page.nextRead.value == READ_BUDGET < |texts[from - 1]|
          && (page.nextAfter == if from < hi then Some(from) else None))
  }

  lemma {:induction false} TakeContinues(texts: seq<Text>, k: nat, hi: nat, left: nat, used: nat, some: bool)
    requires 1 <= k && hi <= |texts| && (left == 0 ==> some) && (!some ==> used == 0)
    ensures var page := Take(texts, k, hi, left, used, some);
            && (page.nextAfter.Some? ==> (if some then k - 1 else k) <= page.nextAfter.value < hi)
            && (page.nextRead.Some? ==>
                  && !some && k <= hi && page.pieces == [Fragment(texts, k, 0)]
                  && page.nextRead.value == READ_BUDGET < |texts[k - 1]|
                  && (page.nextAfter == if k < hi then Some(k) else None))
    decreases hi + 1 - k
  {
    if k > hi { return; }
    var total := |texts[k - 1]|;
    if left == 0 || (some && used + total > READ_BUDGET) { return; }
    if used + total <= READ_BUDGET {
      TakeContinues(texts, k + 1, hi, left - 1, used + total, true);
    }
  }

  lemma PageContinues(texts: seq<Text>, from: nat, hi: nat, limit: nat)
    requires 1 <= from && hi <= |texts| && limit >= 1
    ensures Continues(texts, from, hi, ReadPage(texts, from, hi, limit))
  {
    TakeContinues(texts, from, hi, limit, 0, false);
  }

  /** Follow next_read to the end of its record, then next_after_seq, until
      neither is given; `limits` is the limit asked for at each position. */
  function ReadThrough(texts: seq<Text>, from: nat, hi: nat, limits: int -> int): seq<Piece>
    requires 1 <= from && hi <= |texts| && forall i :: 1 <= limits(i) <= 20
    decreases hi + 1 - from
  {
    PageContinues(texts, from, hi, limits(from));
    var page := ReadPage(texts, from, hi, limits(from));
    page.pieces
    + (if page.nextRead.Some? then Fragments(texts, from, page.nextRead.value) else [])
    + (if page.nextAfter.Some? then ReadThrough(texts, page.nextAfter.value + 1, hi, limits) else [])
  }

  // ------------------------------------------------------------ what is returned

  /** A code point with the record it belongs to and its place there. */
  datatype Unit = Unit(num: nat, at: nat, code: int)

  function Units(num: nat, start: nat, text: Text): (r: seq<Unit>)
    ensures |r| == |text| && forall i :: 0 <= i < |text| ==> r[i] == Unit(num, start + i, text[i])
  {
    seq(|text|, i requires 0 <= i < |text| => Unit(num, start + i, text[i]))
  }

  function Spelled(pieces: seq<Piece>): seq<Unit> {
    if pieces == [] then [] else Units(pieces[0].num, pieces[0].start, pieces[0].text) + Spelled(pieces[1..])
  }

  /** The records `from..hi` read whole, one after the other. */
  function FullRead(texts: seq<Text>, from: nat, hi: nat): seq<Unit>
    requires 1 <= from && hi <= |texts|
    decreases hi + 1 - from
  {
    if from > hi then [] else Units(from, 0, texts[from - 1]) + FullRead(texts, from + 1, hi)
  }

  lemma {:induction false} SpelledConcat(a: seq<Piece>, b: seq<Piece>)
    ensures Spelled(a + b) == Spelled(a) + Spelled(b)
  {
    if a == [] {
      assert a + b == b;
      return;
    }
    assert (a + b)[1..] == a[1..] + b;
    SpelledConcat(a[1..], b);
  }

  lemma OnePiece(p: Piece)
    ensures Spelled([p]) == Units(p.num, p.start, p.text)
  {
    assert [p][1..] == [];
  }

  /** The fragments of a record spell it from the offset on. */
  lemma {:induction false} FragmentsSpell(texts: seq<Text>, k: nat, offset: nat)
    requires 1 <= k <= |texts| && offset <= |texts[k - 1]|
    ensures Spelled(Fragments(texts, k, offset)) == Units(k, offset, texts[k - 1][offset..])
    decreases |texts[k - 1]| - offset
  {
    var text := texts[k - 1];
    var end := Min(offset + READ_BUDGET, |text|);
    OnePiece(Fragment(texts, k, offset));
    if end < |text| {
      FragmentsSpell(texts, k, end);
      SpelledConcat([Fragment(texts, k, offset)], Fragments(texts, k, end));
      assert Units(k, offset, text[offset..]) == Units(k, offset, text[offset..end]) + Units(k, end, text[end..]);
    } else {
      assert Fragments(texts, k, offset) == [Fragment(texts, k, offset)];
    }
  }

  lemma {:induction false} FullSplit(texts: seq<Text>, from: nat, mid: nat, hi: nat)
    requires 1 <= from <= mid <= hi + 1 && hi <= |texts|
    ensures FullRead(texts, from, hi) == FullRead(texts, from, mid - 1) + FullRead(texts, mid, hi)
    decreases mid - from
  {
    if from < mid { FullSplit(texts, from + 1, mid, hi); }
  }

  /** A page without a fragment spells its records whole, up to where it says
      to continue. */
  lemma {:induction false} TakeSpells(texts: seq<Text>, k: nat, hi: nat, left: nat, used: nat, some: bool)
    requires 1 <= k && hi <= |texts| && (left == 0 ==> some) && (!some ==> used == 0)
    ensures var page := Take(texts, k, hi, left, used, some);
            page.nextRead.None? ==>
              var last := if page.nextAfter.Some? then page.nextAfter.value else hi;
              (k <= hi ==> k - 1 <= last) && last <= hi && Spelled(page.pieces) == FullRead(texts, k, last)
    decreases hi + 1 - k
  {
    hide Take, FullRead, Spelled, Units;
    TakeContinues(texts, k, hi, left, used, some);
    TakesNoMore(texts, k, hi, left, used, some);
    NothingSpelled();
    if k > hi || left == 0 || (some && used + |texts[k - 1]| > READ_BUDGET) {
      NothingLeft(texts, k, if k > hi then hi else k - 1);
      return;
    }
    var total := |texts[k - 1]|;
    if used + total > READ_BUDGET { return; }
    var rest := Take(texts, k + 1, hi, left - 1, used + total, true);
    TakeContinues(texts, k + 1, hi, left - 1, used + total, true);
    TakeSpells(texts, k + 1, hi, left - 1, used + total, true);
    OnePiece(Whole(texts, k));
    SpelledConcat([Whole(texts, k)], rest.pieces);
    TakesWhole(texts, k, hi, left, used, some);
    WholeFirst(texts, k, if rest.nextAfter.Some? then rest.nextAfter.value else hi);
  }

  lemma WholeFirst(texts: seq<Text>, k: nat, last: nat)
    requires 1 <= k <= last <= |texts|
    ensures FullRead(texts, k, last) == Units(k, 0, texts[k - 1]) + FullRead(texts, k + 1, last)
  {
  }

  /** Reading through a range page by page returns every record once, in order,
      its fragments spelling its serialization: exactly the full read. */
  lemma {:induction false} PagingRefinesFullRead(texts: seq<Text>, from: nat, hi: nat, limits: int -> int)
    requires 1 <= from && hi <= |texts| && forall i :: 1 <= limits(i) <= 20
    ensures Spelled(ReadThrough(texts, from, hi, limits)) == FullRead(texts, from, hi)
    decreases hi + 1 - from
  {
    hide Spelled, FullRead, Take, Fragments;
    if from > hi {
      PastTheEnd(texts, from, hi, limits);
      NothingSpelled();
      return;
    }
    var page := ReadPage(texts, from, hi, limits(from));
    PageContinues(texts, from, hi, limits(from));
    TakeSpells(texts, from, hi, limits(from), 0, false);
    var inside := if page.nextRead.Some? then Fragments(texts, from, page.nextRead.value) else [];
    var after := if page.nextAfter.Some? then ReadThrough(texts, page.nextAfter.value + 1, hi, limits) else [];
    SpelledConcat(page.pieces, inside);
    SpelledConcat(page.pieces + inside, after);
    assert Spelled([]) == [] by { NothingSpelled(); }
    var last := if page.nextAfter.Some? then page.nextAfter.value else hi;
    if page.nextAfter.Some? { PagingRefinesFullRead(texts, last + 1, hi, limits); }
    if page.nextRead.Some? { FirstFragment(texts, from, page.nextRead.value); }
    assert Spelled(page.pieces + inside) == FullRead(texts, from, last);
    FullSplit(texts, from, last + 1, hi);
    if page.nextAfter.None? { assert FullRead(texts, hi + 1, hi) == [] by { NothingLeft(texts, hi + 1, hi); } }
  }

  /** A start past the last record reads nothing. */
  lemma PastTheEnd(texts: seq<Text>, from: nat, hi: nat, limits: int -> int)
    requires 1 <= from && hi < from && hi <= |texts| && forall i :: 1 <= limits(i) <= 20
    ensures ReadThrough(texts, from, hi, limits) == [] && FullRead(texts, from, hi) == []
  {
    assert ReadPage(texts, from, hi, limits(from)) == Page([], None, None);
  }

  lemma NothingSpelled()
    ensures Spelled([]) == []
  {
  }

  lemma NothingLeft(texts: seq<Text>, from: nat, hi: nat)
    requires 1 <= from && hi < from && hi <= |texts|
    ensures FullRead(texts, from, hi) == []
  {
  }

  /** A first fragment and the fragments after it spell one whole record. */
  lemma FirstFragment(texts: seq<Text>, k: nat, end: nat)
    requires 1 <= k <= |texts| && end == READ_BUDGET < |texts[k - 1]|
    ensures Spelled([Fragment(texts, k, 0)]) + Spelled(Fragments(texts, k, end)) == FullRead(texts, k, k)
  {
    FragmentsSpell(texts, k, 0);
    SpelledConcat([Fragment(texts, k, 0)], Fragments(texts, k, end));
    assert texts[k - 1][0..] == texts[k - 1];
    assert FullRead(texts, k + 1, k) == [];
  }

  function PageChars(pieces: seq<Piece>): nat {
    if pieces == [] then 0 else |pieces[0].text| + PageChars(pieces[1..])
  }

  /** A page never carries more than its character budget. */
  lemma {:induction false} TakeBounded(texts: seq<Text>, k: nat, hi: nat, left: nat, used: nat, some: bool)
    requires 1 <= k && hi <= |texts| && used <= READ_BUDGET && (!some ==> used == 0)
    ensures used + PageChars(Take(texts, k, hi, left, used, some).pieces) <= READ_BUDGET
    ensures |Take(texts, k, hi, left, used, some).pieces| <= left
    decreases hi + 1 - k
  {
    if k > hi { return; }
    var total := |texts[k - 1]|;
    if left == 0 || (some && used + total > READ_BUDGET) { return; }
    if used + total <= READ_BUDGET {
      TakeBounded(texts, k + 1, hi, left - 1, used + total, true);
      var rest := Take(texts, k + 1, hi, left - 1, used + total, true);
      assert ([Whole(texts, k)] + rest.pieces)[1..] == rest.pieces;
    } else {
      assert [Fragment(texts, k, 0)][1..] == [];
    }
  }

  lemma PageBounded(texts: seq<Text>, from: nat, hi: nat, limit: nat)
    requires 1 <= from && hi <= |texts|
    ensures PageChars(ReadPage(texts, from, hi, limit).pieces) <= READ_BUDGET
    ensures |ReadPage(texts, from, hi, limit).pieces| <= limit
  {
    TakeBounded(texts, from, hi, limit, 0, false);
  }

  lemma {:induction false} TakeStops(texts: seq<Text>, k: nat, hi: nat, left: nat, used: nat, some: bool)
    requires 1 <= k && hi <= |texts| && (left == 0 ==> some) && (!some ==> used == 0)
    ensures var page := Take(texts, k, hi, left, used, some);
            && (page.nextRead.None? && page.nextAfter.Some? ==>
                  && k - 1 <= page.nextAfter.value < hi
                  && (|page.pieces| == left || used + PageChars(page.pieces) + |texts[page.nextAfter.value]| > READ_BUDGET))
            && (page.nextRead.Some? <==> k <= hi && !some && left > 0 && |texts[k - 1]| > READ_BUDGET)
    decreases hi + 1 - k
  {
    if k > hi { return; }
    var total := |texts[k - 1]|;
    if left == 0 || (some && used + total > READ_BUDGET) { return; }
    if used + total <= READ_BUDGET {
      TakeStops(texts, k + 1, hi, left - 1, used + total, true);
      var rest := Take(texts, k + 1, hi, left - 1, used + total, true);
      assert ([Whole(texts, k)] + rest.pieces)[1..] == rest.pieces;
    }
  }

  /** A page breaks off only when it has its limit of records or the next one would
      go over 16,384 characters; and it gives a fragment exactly when its first record
      alone is longer than that. */
  lemma PageFills(texts: seq<Text>, from: nat, hi: nat, limit: nat)
    requires 1 <= from && hi <= |texts| && limit >= 1
    ensures var page := ReadPage(texts, from, hi, limit);
            && (page.nextRead.None? && page.nextAfter.Some? ==>
                  && page.nextAfter.value < hi
                  && (|page.pieces| == limit || PageChars(page.pieces) + |texts[page.nextAfter.value]| > 16_384))
            && (page.nextRead.Some? <==> from <= hi && |texts[from - 1]| > 16_384)
  {
    TakeStops(texts, from, hi, limit, 0, false);
  }

  // -------------------------------------------------------------------- search

  /** What one search call finds: the matching records, where to continue. */
  datatype Found = Found(hits: seq<nat>, next: Option<nat>)

  /** `matches[k - 1]` says whether record k matches the query. */
  function Matching(matches: seq<bool>, after: nat, end: nat): (r: seq<nat>)
    requires end <= |matches|
    ensures forall i :: 0 <= i < |r| ==> after < r[i] <= end
    decreases end
  {
    if after >= end then [] else Matching(matches, after, end - 1) + if matches[end - 1] then [end] else []
  }

  lemma NothingPast(matches: seq<bool>, after: nat)
    ensures after >= |matches| ==> Matching(matches, after, |matches|) == []
    ensures after <= |matches| ==> Matching(matches, after, after) == []
  {
  }

  lemma MatchingNext(matches: seq<bool>, after: nat, cursor: nat)
    requires after <= cursor < |matches|
    ensures Matching(matches, after, cursor + 1) == Matching(matches, after, cursor) + if matches[cursor] then [cursor + 1] else []
  {
  }

  /** The scan: stop at the record budget, or once more than `limit` matched. */
  method Search(matches: seq<bool>, after: nat, limit: nat) returns (found: Found)
    requires limit >= 1
    ensures found.next.None? ==> found.hits == Matching(matches, after, |matches|)
    ensures found.next.Some? ==> after < found.next.value <= |matches| && found.hits == Matching(matches, after, found.next.value)
    ensures |found.hits| <= limit
    ensures found.next.Some? ==> |found.hits| == limit || found.next.value == after + 2_000
  {
    NothingPast(matches, after);
    hide Matching;
    if after > |matches| { return Found([], None); }
    var hits: seq<nat>, scanned: nat, cursor: nat := [], 0, after;
    while cursor < |matches| && scanned < SCAN_RECORDS && |hits| <= limit
      invariant after <= cursor <= |matches| && scanned == cursor - after <= SCAN_RECORDS
      invariant hits == Matching(matches, after, cursor)
      invariant |hits| <= limit + 1 && (|hits| == limit + 1 ==> cursor > after && hits[limit] == cursor)
    {
      MatchingNext(matches, after, cursor);
      cursor, scanned := cursor + 1, scanned + 1;
      if matches[cursor - 1] { hits := hits + [cursor]; }
    }
    if |hits| > limit {
      MatchingPrefix(matches, after, cursor, limit);
      return Found(hits[..limit], Some(hits[limit - 1]));
    }
    return Found(hits, if cursor < |matches| then Some(cursor) else None);
  }

  lemma {:induction false} MatchingSplit(matches: seq<bool>, after: nat, mid: nat, end: nat)
    requires after <= mid <= end <= |matches|
    ensures Matching(matches, after, end) == Matching(matches, after, mid) + Matching(matches, mid, end)
    decreases end
  {
    if mid < end { MatchingSplit(matches, after, mid, end - 1); }
  }

  /** The first `limit` matches are the matches up to the last of them. */
  lemma {:induction false} MatchingPrefix(matches: seq<bool>, after: nat, end: nat, limit: nat)
    requires after <= end <= |matches| && 1 <= limit <= |Matching(matches, after, end)|
    ensures var hits := Matching(matches, after, end);
            after < hits[limit - 1] <= end && hits[..limit] == Matching(matches, after, hits[limit - 1])
    decreases end
  {
    var hits, init := Matching(matches, after, end), Matching(matches, after, end - 1);
    assert hits == init + if matches[end - 1] then [end] else [];
    hide Matching;
    if limit <= |init| {
      MatchingPrefix(matches, after, end - 1, limit);
      assert hits[..limit] == init[..limit];
    }
  }

  /** Following `next` from any position ends, with every match found. */
  method SearchThrough(matches: seq<bool>, after: nat, limit: nat) returns (hits: seq<nat>)
    requires limit >= 1
    ensures hits == Matching(matches, after, |matches|)
  {
    hits := [];
    var at, more := after, true;
    while more
      invariant after <= at && (at <= |matches| || at == after)
      invariant hits == if more && at <= |matches| then Matching(matches, after, at) else if more then [] else Matching(matches, after, |matches|)
      decreases more, if at <= |matches| then |matches| - at else 0
    {
      var found := Search(matches, at, limit);
      hits := hits + found.hits;
      if found.next.Some? {
        MatchingSplit(matches, after, at, found.next.value);
        at := found.next.value;
      } else {
        if at <= |matches| { MatchingSplit(matches, after, at, |matches|); }
        more := false;
      }
    }
  }

  /** The matches in a range are its matching records, each once, in order. */
  lemma {:induction false} MatchingIsExact(matches: seq<bool>, after: nat, end: nat)
    requires end <= |matches|
    ensures forall k: nat :: k in Matching(matches, after, end) <==> after < k <= end && matches[k - 1]
    ensures forall i, j :: 0 <= i < j < |Matching(matches, after, end)| ==>
              Matching(matches, after, end)[i] < Matching(matches, after, end)[j]
    decreases end
  {
    if after < end { MatchingIsExact(matches, after, end - 1); }
  }
}
