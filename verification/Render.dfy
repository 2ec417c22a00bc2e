/** The journal as a model sees it: provider-native call/result pairs, and the
    exact record each message stands for. */
module Render {
  import opened Common

  // ------------------------------------------------------------------ records

  /** A record by what rendering looks at.  A call id is None when missing and
      Some(0) when it is the empty string; an index is Some only when it is a
      safe integer; `shown` is None for kinds with no standalone rendering. */
  datatype Body =
    | Text(round: Option<int>, text: Payload)
    | Call(round: Option<int>, callId: Option<int>, index: Option<int>, content: Payload)
    | Result(callId: Option<int>, index: Option<int>, content: Payload)
    | Plain(shown: Option<Payload>)

  datatype Record = Record(num: int, turn: TurnId, body: Body)

  // ----------------------------------------------------------------- messages

  /** Call ids stay as recorded; a missing one is named after its record. */
  datatype WireId = Named(id: int) | AfterRecord(num: int)

  datatype WireCall = WireCall(id: WireId, content: Payload)

  /** Assistant messages may carry calls, tool messages answer one; everything
      else is a standalone message. */
  datatype Message =
    | Assistant(text: Option<Payload>, calls: seq<WireCall>)
    | Tool(id: WireId, content: Payload)
    | Standalone(content: Payload)
    | MissingResult(num: int, content: Payload)
    | OrphanResult(num: int, content: Payload)
    | Notice(content: Payload)

  /** The chunk a memory block was made from. */
  datatype Block = Block(num: nat, layer: nat)

  /** What a message stands for: one record, or the range of a memory block. */
  datatype Source = Source(first: int, last: int, chunk: Option<Block>)

  datatype Item = Item(num: int, message: Message, sources: seq<Source>)

  function RawSource(num: int): Source { Source(num, num, None) }

  function WireIdOf(r: Record): WireId {
    if r.body.Call? && r.body.callId.Some? && r.body.callId.value != 0 then Named(r.body.callId.value) else AfterRecord(r.num)
  }

  function ContentOf(r: Record): Payload {
    match r.body
    case Text(_, text) => text
    case Call(_, _, _, content) => content
    case Result(_, _, content) => content
    case Plain(shown) => shown.GetOr(0)
  }

  // ------------------------------------------------------------------- rounds

  datatype Pairing = Pairing(call: Record, result: Option<Record>)

  /** One model round: its deciding text, its calls with their results, and what
      was journaled while a call awaited its result. */
  datatype Group = Group(num: int, turn: TurnId, round: Option<int>, text: Option<Payload>, calls: seq<Pairing>, after: seq<Item>)

  function Answered(calls: seq<Pairing>): (r: seq<Pairing>)
    ensures forall k :: 0 <= k < |r| ==> r[k].result.Some?
  {
    if calls == [] then []
    else Answered(calls[..|calls| - 1]) + if calls[|calls| - 1].result.Some? then [calls[|calls| - 1]] else []
  }

  function Unanswered(calls: seq<Pairing>): seq<Pairing> {
    if calls == [] then []
    else Unanswered(calls[..|calls| - 1]) + if calls[|calls| - 1].result.None? then [calls[|calls| - 1]] else []
  }

  function CallNums(calls: seq<Pairing>): (r: seq<Source>)
    ensures |r| == |calls|
  {
    seq(|calls|, k requires 0 <= k < |calls| => RawSource(calls[k].call.num))
  }

  function Head(g: Group): seq<Item> {
    var paired := Answered(g.calls);
    if g.text.None? && paired == [] then []
    else [Item(g.num,
               Assistant(g.text, seq(|paired|, k requires 0 <= k < |paired| => WireCall(WireIdOf(paired[k].call), ContentOf(paired[k].call)))),
               (if g.text.Some? then [RawSource(g.num)] else []) + CallNums(paired))]
  }

  function Results(num: int, paired: seq<Pairing>): (r: seq<Item>)
    requires forall k :: 0 <= k < |paired| ==> paired[k].result.Some?
    ensures |r| == |paired|
    ensures forall k :: 0 <= k < |paired| ==>
              r[k] == Item(num, Tool(WireIdOf(paired[k].call), ContentOf(paired[k].result.value)), [RawSource(paired[k].result.value.num)])
  {
    seq(|paired|, k requires 0 <= k < |paired| =>
      Item(num, Tool(WireIdOf(paired[k].call), ContentOf(paired[k].result.value)), [RawSource(paired[k].result.value.num)]))
  }

  function Missing(num: int, open: seq<Pairing>): (r: seq<Item>)
    ensures |r| == |open|
    ensures forall k :: 0 <= k < |open| ==>
              r[k] == Item(num, MissingResult(open[k].call.num, ContentOf(open[k].call)), [RawSource(open[k].call.num)])
  {
    seq(|open|, k requires 0 <= k < |open| =>
      Item(num, MissingResult(open[k].call.num, ContentOf(open[k].call)), [RawSource(open[k].call.num)]))
  }

  function Flush(g: Option<Group>): seq<Item> {
    match g
    case None => []
    case Some(g) =>
      Head(g) + Results(g.num, Answered(g.calls)) + Missing(g.num, Unanswered(g.calls)) + g.after
  }

  // ---------------------------------------------------------------- rendering

  datatype Rendering = Rendering(out: seq<Item>, group: Option<Group>)

  /** Does this result answer that call? */
  predicate Fits(p: Pairing, result: Record)
    requires result.body.Result?
  {
    && p.result.None? && p.call.body.Call?
    && if result.body.index.Some? then p.call.body.index == result.body.index else p.call.body.callId == result.body.callId
  }

  function FindCall(calls: seq<Pairing>, result: Record, k: nat): (r: Option<nat>)
    requires result.body.Result? && k <= |calls|
    ensures r.Some? ==> k <= r.value < |calls| && Fits(calls[r.value], result)
    ensures forall j :: k <= j < (if r.Some? then r.value else |calls|) ==> !Fits(calls[j], result)
    decreases |calls| - k
  {
    if k == |calls| then None else if Fits(calls[k], result) then Some(k) else FindCall(calls, result, k + 1)
  }

  predicate Waiting(g: Option<Group>) {
    g.Some? && exists k :: 0 <= k < |g.value.calls| && g.value.calls[k].result.None?
  }

  predicate SameRound(g: Option<Group>, r: Record)
    requires r.body.Call?
  {
    g.Some? && g.value.turn == r.turn && g.value.round == r.body.round
  }

  function Feed(st: Rendering, r: Record): Rendering {
    match r.body
    case Text(round, text) =>
      Rendering(st.out + Flush(st.group), Some(Group(r.num, r.turn, round, Some(text), [], [])))
    case Call(round, _, _, _) =>
      if SameRound(st.group, r) then
        st.(group := Some(st.group.value.(calls := st.group.value.calls + [Pairing(r, None)])))
      else
        Rendering(st.out + Flush(st.group), Some(Group(r.num, r.turn, round, None, [Pairing(r, None)], [])))
    case Result(_, _, content) =>
      var k := if st.group.Some? then FindCall(st.group.value.calls, r, 0) else None;
      if k.Some? then
        var calls := st.group.value.calls;
        st.(group := Some(st.group.value.(calls := calls[k.value := calls[k.value].(result := Some(r))])))
      else
        Rendering(st.out + Flush(st.group) + [Item(r.num, OrphanResult(r.num, content), [RawSource(r.num)])], None)
    case Plain(shown) =>
      var items := if shown.Some? then [Item(r.num, Standalone(shown.value), [RawSource(r.num)])] else [];
      if Waiting(st.group) then st.(group := Some(st.group.value.(after := st.group.value.after + items)))
      else Rendering(st.out + Flush(st.group) + items, None)
  }

  function FeedAll(records: seq<Record>): Rendering {
    if records == [] then Rendering([], None) else Feed(FeedAll(records[..|records| - 1]), records[|records| - 1])
  }

  function Rendered(records: seq<Record>): seq<Item> {
    var st := FeedAll(records);
    st.out + Flush(st.group)
  }

  /** renderEvents as it runs: one pass, an open group, a growing list. */
  method RenderEvents(records: seq<Record>) returns (out: seq<Item>)
    ensures out == Rendered(records)
  {
    out := [];
    var group: Option<Group> := None;
    var i := 0;
    while i < |records|
      invariant 0 <= i <= |records|
      invariant Rendering(out, group) == FeedAll(records[..i])
    {
      assert records[..i + 1][..i] == records[..i];
      var r := records[i];
      match r.body {
        case Text(round, text) =>
          out := out + Flush(group);
          group := Some(Group(r.num, r.turn, round, Some(text), [], []));
        case Call(round, _, _, _) =>
          if !SameRound(group, r) {
            out := out + Flush(group);
            group := Some(Group(r.num, r.turn, round, None, [], []));
          }
          assert [] + [Pairing(r, None)] == [Pairing(r, None)];
          group := Some(group.value.(calls := group.value.calls + [Pairing(r, None)]));
        case Result(_, _, content) =>
          var k := if group.Some? then FindCall(group.value.calls, r, 0) else None;
          if k.Some? {
            var calls := group.value.calls;
            group := Some(group.value.(calls := calls[k.value := calls[k.value].(result := Some(r))]));
          } else {
            out := out + Flush(group) + [Item(r.num, OrphanResult(r.num, content), [RawSource(r.num)])];
            group := None;
          }
        case Plain(shown) =>
          var items := if shown.Some? then [Item(r.num, Standalone(shown.value), [RawSource(r.num)])] else [];
          if Waiting(group) {
            group := Some(group.value.(after := group.value.after + items));
          } else {
            out := out + Flush(group) + items;
            group := None;
          }
      }
      i := i + 1;
    }
    assert records[..i] == records;
    out := out + Flush(group);
  }

  // ------------------------------------------------------------ the whole view

  /** Stable: an item goes after every item with the same or a smaller number. */
  function Insert(s: seq<Item>, x: Item): seq<Item> {
    if s == [] || s[|s| - 1].num <= x.num then s + [x]
    else Insert(s[..|s| - 1], x) + [s[|s| - 1]]
  }

  function Sort(items: seq<Item>): seq<Item> {
    if items == [] then [] else Insert(Sort(items[..|items| - 1]), items[|items| - 1])
  }

  /** A range of the snapshot: `index` is the position of the message that stands
      for it; the view follows the system message, so its first is 1. */
  datatype Range = Range(source: Source, index: Option<nat>)

  function Indexed(sources: seq<Source>, index: nat): (r: seq<Range>)
    ensures |r| == |sources| && forall k :: 0 <= k < |r| ==> r[k] == Range(sources[k], Some(index))
  {
    seq(|sources|, k requires 0 <= k < |sources| => Range(sources[k], Some(index)))
  }

  function Attributed(items: seq<Item>): seq<Range> {
    if items == [] then []
    else Attributed(items[..|items| - 1]) + Indexed(items[|items| - 1].sources, |items|)
  }

  predicate Mapped(items: seq<Item>, num: int) {
    exists i, k :: 0 <= i < |items| && 0 <= k < |items[i].sources| && items[i].sources[k].first == num
  }

  function Unmapped(records: seq<Record>, items: seq<Item>): seq<Range> {
    if records == [] then []
    else
      var n := |records| - 1;
      Unmapped(records[..n], items)
      + if Mapped(items, records[n].num) then [] else [Range(RawSource(records[n].num), None)]
  }

  /** renderJournalContext: notices, blocks and extras first, then the records,
      stably ordered by the first record each stands for. */
  function View(before: seq<Item>, records: seq<Record>): seq<Item> { Sort(before + Rendered(records)) }

  function Ranges(before: seq<Item>, records: seq<Record>): seq<Range> {
    Unmapped(records, Rendered(records)) + Attributed(View(before, records))
  }

  // --------------------------------------------------------- well-formed pairs

  predicate Quiet(m: Message) { !m.Tool? && !(m.Assistant? && m.calls != []) }

  /** The k messages after an assistant message with k calls answer them, in
      order. */
  predicate Replies(items: seq<Item>, i: nat)
    requires i < |items| && items[i].message.Assistant?
  {
    var n := |items[i].message.calls|;
    i + n < |items| && ReplySeq(items[i + 1..i + 1 + n], items[i].message.calls)
  }

  predicate ReplySeq(replies: seq<Item>, calls: seq<WireCall>) {
    && |replies| == |calls|
    && forall k :: 0 <= k < |replies| ==> replies[k].message.Tool? && replies[k].message.id == calls[k].id
  }

  /** Reading left to right: every assistant message with calls is followed at
      once by its results, and no tool message stands anywhere else. */
  ghost predicate Paired(items: seq<Item>) {
    if items == [] then true
    else if items[0].message.Tool? then false
    else if items[0].message.Assistant? then Replies(items, 0) && Paired(items[1 + |items[0].message.calls|..])
    else Paired(items[1..])
  }

  lemma {:induction false} PairedConcat(a: seq<Item>, b: seq<Item>)
    requires Paired(a) && Paired(b)
    ensures Paired(a + b)
    decreases |a|
  {
    if a == [] {
      assert a + b == b;
      return;
    }
    var n := if a[0].message.Assistant? then 1 + |a[0].message.calls| else 1;
    assert n <= |a|;
    assert (a + b)[n..] == a[n..] + b;
    PairedConcat(a[n..], b);
    assert (a + b)[1..n] == a[1..n];
  }

  lemma {:induction false} QuietPaired(a: seq<Item>)
    requires forall i :: 0 <= i < |a| ==> Quiet(a[i].message)
    ensures Paired(a)
  {
    if a != [] {
      QuietPaired(a[1..]);
    }
  }

  function Only(items: seq<Item>, num: int): seq<Item> {
    if items == [] then []
    else Only(items[..|items| - 1], num) + if items[|items| - 1].num == num then [items[|items| - 1]] else []
  }

  lemma {:induction false} OnlyConcat(a: seq<Item>, b: seq<Item>, num: int)
    ensures Only(a + b, num) == Only(a, num) + Only(b, num)
  {
    if b == [] {
      assert a + b == a;
      return;
    }
    var n := |b| - 1;
    assert (a + b)[..|a + b| - 1] == a + b[..n];
    OnlyConcat(a, b[..n], num);
  }

  lemma {:induction false} OnlyAll(a: seq<Item>, num: int)
    ensures (forall i :: 0 <= i < |a| ==> a[i].num == num) ==> Only(a, num) == a
    ensures (forall i :: 0 <= i < |a| ==> a[i].num != num) ==> Only(a, num) == []
  {
    if a == [] { return; }
    var n := |a| - 1;
    OnlyAll(a[..n], num);
    assert a == a[..n] + [a[n]];
    if a[n].num == num { return; }
  }

  lemma {:induction false} OnlyFrom(a: seq<Item>, num: int)
    ensures forall x :: x in Only(a, num) ==> x in a
  {
    if a != [] { OnlyFrom(a[..|a| - 1], num); }
  }

  /** A flushed round pairs its calls with their results. */
  lemma RoundPaired(g: Group)
    ensures Paired(Head(g) + Results(g.num, Answered(g.calls)))
  {
    var paired := Answered(g.calls);
    var h, rs := Head(g), Results(g.num, paired);
    if h == [] {
      assert h + rs == [];
      return;
    }
    assert (h + rs)[1..1 + |paired|] == rs;
    assert (h + rs)[1 + |paired|..] == [];
  }

  ghost predicate QuietAfter(g: Option<Group>) {
    g.Some? ==> forall i :: 0 <= i < |g.value.after| ==> Quiet(g.value.after[i].message)
  }

  lemma UnitNums(g: Group, num: int)
    ensures var unit := Head(g) + Results(g.num, Answered(g.calls));
            Only(unit, num) == if num == g.num then unit else []
  {
    OnlyAll(Head(g) + Results(g.num, Answered(g.calls)), num);
  }

  lemma QuietOnly(a: seq<Item>, num: int)
    requires forall i :: 0 <= i < |a| ==> Quiet(a[i].message)
    ensures Paired(Only(a, num))
  {
    hide Only, Paired;
    OnlyFrom(a, num);
    forall i | 0 <= i < |Only(a, num)| ensures Quiet(Only(a, num)[i].message) { assert Only(a, num)[i] in Only(a, num); }
    QuietPaired(Only(a, num));
  }

  lemma FlushPaired(g: Option<Group>, num: int)
    requires QuietAfter(g)
    ensures Paired(Only(Flush(g), num))
  {
    if g.None? { return; }
    hide Only, Paired, Head;
    var g := g.value;
    var unit, rest := Head(g) + Results(g.num, Answered(g.calls)), Missing(g.num, Unanswered(g.calls)) + g.after;
    assert Flush(Some(g)) == unit + rest;
    OnlyConcat(unit, rest, num);
    UnitNums(g, num);
    RoundPaired(g);
    QuietPaired([]);
    QuietOnly(rest, num);
    PairedConcat(Only(unit, num), Only(rest, num));
  }

  lemma AddOne(a: seq<Item>, x: Item, num: int)
    requires Paired(Only(a, num)) && Quiet(x.message)
    ensures Paired(Only(a + [x], num))
  {
    hide Only, Paired;
    OnlyConcat(a, [x], num);
    QuietOnly([x], num);
    PairedConcat(Only(a, num), Only([x], num));
  }

  lemma FeedPaired(st: Rendering, r: Record, num: int)
    requires QuietAfter(st.group) && Paired(Only(st.out, num))
    ensures QuietAfter(Feed(st, r).group) && Paired(Only(Feed(st, r).out, num))
  {
    hide Flush, Paired, Only;
    FlushPaired(st.group, num);
    var flushed := st.out + Flush(st.group);
    OnlyConcat(st.out, Flush(st.group), num);
    PairedConcat(Only(st.out, num), Only(Flush(st.group), num));
    match r.body {
      case Text(_, _) =>
      case Call(_, _, _, _) => if SameRound(st.group, r) { return; }
      case Result(_, _, content) =>
        if st.group.Some? && FindCall(st.group.value.calls, r, 0).Some? { return; }
        AddOne(flushed, Item(r.num, OrphanResult(r.num, content), [RawSource(r.num)]), num);
      case Plain(shown) =>
        if Waiting(st.group) { return; }
        if shown.None? { assert flushed + [] == flushed; return; }
        AddOne(flushed, Item(r.num, Standalone(shown.value), [RawSource(r.num)]), num);
    }
  }

  lemma {:induction false} FeedAllPaired(records: seq<Record>, num: int)
    ensures QuietAfter(FeedAll(records).group) && Paired(Only(FeedAll(records).out, num))
  {
    if records != [] {
      var n := |records| - 1;
      FeedAllPaired(records[..n], num);
      FeedPaired(FeedAll(records[..n]), records[n], num);
    }
  }

  lemma RenderedPaired(records: seq<Record>, num: int)
    ensures Paired(Only(Rendered(records), num))
  {
    hide Flush, Paired, QuietAfter, Feed;
    var st := FeedAll(records);
    FeedAllPaired(records, num);
    FlushPaired(st.group, num);
    OnlyConcat(st.out, Flush(st.group), num);
    PairedConcat(Only(st.out, num), Only(Flush(st.group), num));
  }

  // ------------------------------------------------------------ the stable order

  ghost predicate Sorted(s: seq<Item>) { forall i, j :: 0 <= i < j < |s| ==> s[i].num <= s[j].num }

  lemma {:induction false} InsertHolds(s: seq<Item>, x: Item)
    ensures multiset(Insert(s, x)) == multiset(s) + multiset{x}
  {
    if s == [] || s[|s| - 1].num <= x.num { return; }
    InsertHolds(s[..|s| - 1], x);
    assert s == s[..|s| - 1] + [s[|s| - 1]];
  }

  lemma {:induction false} InsertSorted(s: seq<Item>, x: Item)
    requires Sorted(s)
    ensures Sorted(Insert(s, x))
  {
    if s == [] || s[|s| - 1].num <= x.num { return; }
    var n := |s| - 1;
    InsertSorted(s[..n], x);
    InsertHolds(s[..n], x);
    var r := Insert(s[..n], x);
    forall i | 0 <= i < |r| ensures r[i].num <= s[n].num {
      assert r[i] in multiset(r);
      assert r[i] in multiset(s[..n]) || r[i] == x;
    }
  }

  lemma {:induction false} InsertKeeps(s: seq<Item>, x: Item, num: int)
    requires Sorted(s)
    ensures Only(Insert(s, x), num) == Only(s, num) + if x.num == num then [x] else []
  {
    if s == [] || s[|s| - 1].num <= x.num {
      assert (s + [x])[..|s|] == s;
      return;
    }
    var n := |s| - 1;
    InsertKeeps(s[..n], x, num);
    var r := Insert(s[..n], x);
    assert Insert(s, x)[..|r|] == r;
  }

  lemma {:induction false} SortKeeps(items: seq<Item>, num: int)
    ensures Sorted(Sort(items)) && Only(Sort(items), num) == Only(items, num)
  {
    if items == [] { return; }
    hide Insert, Sorted;
    var n := |items| - 1;
    SortKeeps(items[..n], num);
    InsertSorted(Sort(items[..n]), items[n]);
    InsertKeeps(Sort(items[..n]), items[n], num);
  }

  lemma {:induction false} SortHolds(items: seq<Item>)
    ensures multiset(Sort(items)) == multiset(items)
  {
    if items == [] { return; }
    hide Insert;
    var n := |items| - 1;
    SortHolds(items[..n]);
    InsertHolds(Sort(items[..n]), items[n]);
    assert items == items[..n] + [items[n]];
  }

  /** How many leading items share the first item's number. */
  function Lead(s: seq<Item>, k: nat): (r: nat)
    requires 0 < k <= |s|
    ensures k <= r <= |s| && (r < |s| ==> s[r].num != s[0].num)
    ensures forall i :: k <= i < r ==> s[i].num == s[0].num
    decreases |s| - k
  {
    if k < |s| && s[k].num == s[0].num then Lead(s, k + 1) else k
  }

  /** A sorted list is its leading run and the rest, number by number. */
  lemma SplitLead(s: seq<Item>, num: int)
    requires Sorted(s) && s != []
    ensures var k := Lead(s, 1);
            && Only(s, s[0].num) == s[..k]
            && Only(s[k..], num) == if num == s[0].num then [] else Only(s, num)
  {
    hide Only, Lead;
    var k, num0 := Lead(s, 1), s[0].num;
    var run, rest := s[..k], s[k..];
    assert s == run + rest;
    assert forall i :: 0 <= i < |run| ==> run[i].num == num0;
    forall i | 0 <= i < |rest| ensures rest[i].num != num0 {
      assert s[0].num <= s[k].num <= s[k + i].num;
    }
    OnlyConcat(run, rest, num0);
    OnlyAll(run, num0);
    OnlyAll(rest, num0);
    if num == num0 { return; }
    OnlyConcat(run, rest, num);
    OnlyAll(run, num);
  }

  lemma {:induction false} SortedPaired(s: seq<Item>)
    requires Sorted(s) && forall num :: Paired(Only(s, num))
    ensures Paired(s)
    decreases |s|
  {
    if s == [] { return; }
    hide Paired, Only, Lead;
    var k := Lead(s, 1);
    assert Sorted(s[k..]);
    hide Sorted;
    QuietPaired([]);
    forall num ensures Paired(Only(s[k..], num)) {
      SplitLead(s, num);
    }
    SplitLead(s, 0);
    SortedPaired(s[k..]);
    PairedConcat(s[..k], s[k..]);
    assert s == s[..k] + s[k..];
  }

  lemma ViewPaired(before: seq<Item>, records: seq<Record>)
    requires forall i :: 0 <= i < |before| ==> Quiet(before[i].message)
    ensures Paired(View(before, records))
  {
    var items := before + Rendered(records);
    forall num ensures Paired(Only(Sort(items), num)) {
      SortKeeps(items, num);
      OnlyConcat(before, Rendered(records), num);
      QuietOnly(before, num);
      RenderedPaired(records, num);
      PairedConcat(Only(before, num), Only(Rendered(records), num));
    }
    SortKeeps(items, 0);
    SortedPaired(Sort(items));
  }

  /** Item `i` is one of the replies to the assistant message at `a`. */
  ghost predicate RepliesTo(items: seq<Item>, i: nat, a: int) {
    && 0 <= a < i < |items| && items[a].message.Assistant? && i <= a + |items[a].message.calls|
    && items[i].message.Tool? && items[i].message.id == items[a].message.calls[i - a - 1].id
  }

  lemma {:induction false} PairedAt(items: seq<Item>, i: nat)
    requires Paired(items) && i < |items|
    ensures items[i].message.Assistant? ==> Replies(items, i)
    ensures items[i].message.Tool? ==> exists a :: RepliesTo(items, i, a)
    decreases |items|
  {
    var n := if items[0].message.Assistant? then 1 + |items[0].message.calls| else 1;
    if i < n {
      if i > 0 {
        assert items[1..n][i - 1] == items[i];
        assert RepliesTo(items, i, 0);
      }
      return;
    }
    var rest := items[n..];
    PairedAt(rest, i - n);
    assert items[i] == rest[i - n];
    if items[i].message.Assistant? {
      var k := |items[i].message.calls|;
      assert items[i + 1..i + 1 + k] == rest[i - n + 1..i - n + 1 + k];
    }
    if items[i].message.Tool? {
      var a :| RepliesTo(rest, i - n, a);
      assert RepliesTo(items, i, a + n);
    }
  }

  /** For every list of records and any interleaved blocks or notices: each
      assistant message with k calls is immediately followed by exactly its k
      results, in order, and no other tool message exists. */
  lemma ToolPairsWellFormed(before: seq<Item>, records: seq<Record>, i: nat)
    requires forall j :: 0 <= j < |before| ==> Quiet(before[j].message)
    requires i < |View(before, records)|
    ensures var view := View(before, records);
            && (view[i].message.Assistant? ==>
                  && Replies(view, i)
                  && (var next := i + 1 + |view[i].message.calls|; next < |view| ==> !view[next].message.Tool?))
            && (view[i].message.Tool? ==> exists a :: RepliesTo(view, i, a))
  {
    hide Sort, Rendered;
    var view := View(before, records);
    ViewPaired(before, records);
    PairedAt(view, i);
    if view[i].message.Assistant? {
      var next := i + 1 + |view[i].message.calls|;
      if next < |view| { NoExtraReply(view, i, next); }
    }
  }

  /** The message after the last reply is not a tool message. */
  lemma {:induction false} NoExtraReply(items: seq<Item>, i: nat, next: nat)
    requires Paired(items) && i < next < |items| && items[i].message.Assistant?
    requires next == i + 1 + |items[i].message.calls|
    ensures !items[next].message.Tool?
    decreases |items|
  {
    var n := if items[0].message.Assistant? then 1 + |items[0].message.calls| else 1;
    if i == 0 {
      assert Paired(items[n..]);
      return;
    }
    forall j | 1 <= j < n ensures items[j].message.Tool? { assert items[1..n][j - 1] == items[j]; }
    var rest := items[n..];
    NoExtraReply(rest, i - n, next - n);
  }
}
