/** Which message stands for which record, and when a frozen view holds a chunk:
    every record has exactly one source range, and the range names the message
    that renders it. */
module Attribution {
  import opened Common
  import opened Render

  // ----------------------------------------------------------- counting records

  function One(a: int, n: int): nat { if a == n then 1 else 0 }

  function RawCount(s: Source, n: int): nat { if s.chunk.None? then One(s.first, n) else 0 }

  function SourceCount(ss: seq<Source>, n: int): nat {
    if ss == [] then 0 else SourceCount(ss[..|ss| - 1], n) + RawCount(ss[|ss| - 1], n)
  }

  /** How many sources of these items are record `n`. */
  function ItemCount(items: seq<Item>, n: int): nat {
    if items == [] then 0 else ItemCount(items[..|items| - 1], n) + SourceCount(items[|items| - 1].sources, n)
  }

  function PairingCount(c: Pairing, n: int): nat {
    One(c.call.num, n) + match c.result case Some(r) => One(r.num, n) case None => 0
  }

  function CallsCount(calls: seq<Pairing>, n: int): nat {
    if calls == [] then 0 else CallsCount(calls[..|calls| - 1], n) + PairingCount(calls[|calls| - 1], n)
  }

  function GroupCount(g: Option<Group>, n: int): nat {
    match g
    case None => 0
    case Some(g) => (if g.text.Some? then One(g.num, n) else 0) + CallsCount(g.calls, n) + ItemCount(g.after, n)
  }

  predicate IsShown(r: Record) { r.body != Plain(None) }

  function ShownCount(records: seq<Record>, n: int): nat {
    if records == [] then 0
    else
      var k := |records| - 1;
      ShownCount(records[..k], n) + if IsShown(records[k]) then One(records[k].num, n) else 0
  }

  lemma {:induction false} SourceConcat(a: seq<Source>, b: seq<Source>, n: int)
    ensures SourceCount(a + b, n) == SourceCount(a, n) + SourceCount(b, n)
  {
    if b == [] {
      assert a + b == a;
      return;
    }
    assert (a + b)[..|a + b| - 1] == a + b[..|b| - 1];
    SourceConcat(a, b[..|b| - 1], n);
  }

  lemma {:induction false} ItemConcat(a: seq<Item>, b: seq<Item>, n: int)
    ensures ItemCount(a + b, n) == ItemCount(a, n) + ItemCount(b, n)
  {
    if b == [] {
      assert a + b == a;
      return;
    }
    assert (a + b)[..|a + b| - 1] == a + b[..|b| - 1];
    ItemConcat(a, b[..|b| - 1], n);
  }

  lemma OneItem(x: Item, num: int, n: int)
    requires x.sources == [RawSource(num)]
    ensures ItemCount([x], n) == One(num, n)
  {
    assert [x][..0] == [];
    assert [RawSource(num)][..0] == [];
    assert SourceCount([RawSource(num)], n) == One(num, n);
  }

  // ---------------------------------------------------------- flushing a round

  function CallsOnly(calls: seq<Pairing>, n: int): nat {
    if calls == [] then 0 else CallsOnly(calls[..|calls| - 1], n) + One(calls[|calls| - 1].call.num, n)
  }

  lemma CallsOnlySnoc(calls: seq<Pairing>, c: Pairing, n: int)
    ensures CallsOnly(calls + [c], n) == CallsOnly(calls, n) + One(c.call.num, n)
    ensures CallsCount(calls + [c], n) == CallsCount(calls, n) + PairingCount(c, n)
  {
    assert (calls + [c])[..|calls|] == calls;
  }

  /** Answered and unanswered pairings together are all of them. */
  lemma {:induction false} CallsSplit(calls: seq<Pairing>, n: int)
    ensures CallsCount(calls, n) == CallsCount(Answered(calls), n) + CallsOnly(Unanswered(calls), n)
  {
    if calls == [] { return; }
    var init, c := calls[..|calls| - 1], calls[|calls| - 1];
    CallsSplit(init, n);
    CallsOnlySnoc(Answered(init), c, n);
    CallsOnlySnoc(Unanswered(init), c, n);
    if c.result.Some? {
      assert Unanswered(calls) == Unanswered(init);
    } else {
      assert Answered(calls) == Answered(init);
    }
  }

  lemma {:induction false} CallSources(calls: seq<Pairing>, n: int)
    ensures SourceCount(CallNums(calls), n) == CallsOnly(calls, n)
  {
    if calls == [] { return; }
    var k := |calls| - 1;
    CallSources(calls[..k], n);
    assert CallNums(calls)[..k] == CallNums(calls[..k]);
  }

  lemma {:induction false} ResultItems(num: int, paired: seq<Pairing>, n: int)
    requires forall k :: 0 <= k < |paired| ==> paired[k].result.Some?
    ensures CallsOnly(paired, n) + ItemCount(Results(num, paired), n) == CallsCount(paired, n)
  {
    if paired == [] { return; }
    var k := |paired| - 1;
    ResultItems(num, paired[..k], n);
    var rs := Results(num, paired);
    assert rs[..k] == Results(num, paired[..k]);
    assert rs == rs[..k] + [rs[k]];
    ItemConcat(rs[..k], [rs[k]], n);
    OneItem(rs[k], paired[k].result.value.num, n);
  }

  lemma {:induction false} MissingItems(num: int, open: seq<Pairing>, n: int)
    ensures ItemCount(Missing(num, open), n) == CallsOnly(open, n)
  {
    if open == [] { return; }
    var k := |open| - 1;
    MissingItems(num, open[..k], n);
    var ms := Missing(num, open);
    assert ms[..k] == Missing(num, open[..k]);
    assert ms == ms[..k] + [ms[k]];
    ItemConcat(ms[..k], [ms[k]], n);
    OneItem(ms[k], open[k].call.num, n);
  }

  lemma HeadItems(g: Group, n: int)
    ensures ItemCount(Head(g), n) == (if g.text.Some? then One(g.num, n) else 0) + CallsOnly(Answered(g.calls), n)
  {
    var paired := Answered(g.calls);
    if Head(g) == [] { return; }
    var own: seq<Source> := if g.text.Some? then [RawSource(g.num)] else [];
    assert Head(g)[..0] == [] && Head(g)[0].sources == own + CallNums(paired);
    SourceConcat(own, CallNums(paired), n);
    CallSources(paired, n);
    if g.text.Some? { assert own[..0] == []; }
  }

  /** Flushing a round loses none of its records and repeats none. */
  lemma FlushCount(g: Option<Group>, n: int)
    ensures ItemCount(Flush(g), n) == GroupCount(g, n)
  {
    if g.None? { return; }
    hide ItemCount, CallsCount, CallsOnly, Head;
    var g := g.value;
    var h, rs, ms := Head(g), Results(g.num, Answered(g.calls)), Missing(g.num, Unanswered(g.calls));
    HeadItems(g, n);
    ResultItems(g.num, Answered(g.calls), n);
    MissingItems(g.num, Unanswered(g.calls), n);
    CallsSplit(g.calls, n);
    ItemConcat(h, rs, n);
    ItemConcat(h + rs, ms, n);
    ItemConcat(h + rs + ms, g.after, n);
  }

  lemma {:induction false} AnswerOne(calls: seq<Pairing>, k: nat, r: Record, n: int)
    requires k < |calls| && calls[k].result.None?
    ensures CallsCount(calls[k := calls[k].(result := Some(r))], n) == CallsCount(calls, n) + One(r.num, n)
  {
    var m := |calls| - 1;
    var calls' := calls[k := calls[k].(result := Some(r))];
    if k == m {
      assert calls'[..m] == calls[..m];
    } else {
      assert calls'[..m] == calls[..m][k := calls[k].(result := Some(r))];
      AnswerOne(calls[..m], k, r, n);
    }
  }

  // --------------------------------------------------------- feeding the records

  function Pending(st: Rendering, n: int): nat { ItemCount(st.out, n) + GroupCount(st.group, n) }

  lemma Flushed(st: Rendering, x: seq<Item>, n: int)
    ensures ItemCount(st.out + Flush(st.group) + x, n) == Pending(st, n) + ItemCount(x, n)
    ensures ItemCount(st.out + Flush(st.group), n) == Pending(st, n)
  {
    hide ItemCount, Flush, GroupCount;
    FlushCount(st.group, n);
    ItemConcat(st.out, Flush(st.group), n);
    ItemConcat(st.out + Flush(st.group), x, n);
  }

  lemma FeedCall(st: Rendering, r: Record, n: int)
    requires r.body.Call?
    ensures Pending(Feed(st, r), n) == Pending(st, n) + One(r.num, n)
  {
    hide ItemCount, Flush;
    Flushed(st, [], n);
    if SameRound(st.group, r) {
      CallsOnlySnoc(st.group.value.calls, Pairing(r, None), n);
      return;
    }
    assert [] + [Pairing(r, None)] == [Pairing(r, None)];
    CallsOnlySnoc([], Pairing(r, None), n);
    assert ItemCount([], n) == 0 by { NoItems(n); }
  }

  lemma NoItems(n: int)
    ensures ItemCount([], n) == 0
  {
  }

  lemma FeedResult(st: Rendering, r: Record, n: int)
    requires r.body.Result?
    ensures Pending(Feed(st, r), n) == Pending(st, n) + One(r.num, n)
  {
    hide ItemCount, Flush, CallsCount;
    if st.group.Some? && FindCall(st.group.value.calls, r, 0).Some? {
      AnswerOne(st.group.value.calls, FindCall(st.group.value.calls, r, 0).value, r, n);
      return;
    }
    var x := Item(r.num, OrphanResult(r.num, r.body.content), [RawSource(r.num)]);
    Flushed(st, [x], n);
    OneItem(x, r.num, n);
  }

  lemma FeedPlain(st: Rendering, r: Record, n: int)
    requires r.body.Plain?
    ensures Pending(Feed(st, r), n) == Pending(st, n) + if IsShown(r) then One(r.num, n) else 0
  {
    hide ItemCount, Flush, CallsCount;
    var shown := r.body.shown;
    var items := if shown.Some? then [Item(r.num, Standalone(shown.value), [RawSource(r.num)])] else [];
    NoItems(n);
    if shown.Some? { OneItem(items[0], r.num, n); }
    if Waiting(st.group) {
      ItemConcat(st.group.value.after, items, n);
      return;
    }
    Flushed(st, items, n);
  }

  /** Each record fed is added once, unless it has no rendering. */
  lemma FeedCount(st: Rendering, r: Record, n: int)
    ensures Pending(Feed(st, r), n) == Pending(st, n) + if IsShown(r) then One(r.num, n) else 0
  {
    match r.body {
      case Text(_, _) => Flushed(st, [], n);
      case Call(_, _, _, _) => FeedCall(st, r, n);
      case Result(_, _, _) => FeedResult(st, r, n);
      case Plain(_) => FeedPlain(st, r, n);
    }
  }

  lemma {:induction false} FeedAllCount(records: seq<Record>, n: int)
    ensures Pending(FeedAll(records), n) == ShownCount(records, n)
  {
    if records == [] { return; }
    hide Feed, Pending;
    var k := |records| - 1;
    FeedAllCount(records[..k], n);
    FeedCount(FeedAll(records[..k]), records[k], n);
  }

  /** The rendered items stand for exactly the shown records, each once. */
  lemma RenderedCount(records: seq<Record>, n: int)
    ensures ItemCount(Rendered(records), n) == ShownCount(records, n)
  {
    hide FeedAll, ItemCount, Flush, GroupCount;
    FeedAllCount(records, n);
    Flushed(FeedAll(records), [], n);
  }

  // -------------------------------------------------------------- the ranges

  function RangeCount(ranges: seq<Range>, n: int): nat {
    if ranges == [] then 0 else RangeCount(ranges[..|ranges| - 1], n) + RawCount(ranges[|ranges| - 1].source, n)
  }

  lemma {:induction false} RangeConcat(a: seq<Range>, b: seq<Range>, n: int)
    ensures RangeCount(a + b, n) == RangeCount(a, n) + RangeCount(b, n)
  {
    if b == [] {
      assert a + b == a;
      return;
    }
    assert (a + b)[..|a + b| - 1] == a + b[..|b| - 1];
    RangeConcat(a, b[..|b| - 1], n);
  }

  lemma {:induction false} IndexedCount(sources: seq<Source>, index: nat, n: int)
    ensures RangeCount(Indexed(sources, index), n) == SourceCount(sources, n)
  {
    if sources == [] { return; }
    var k := |sources| - 1;
    IndexedCount(sources[..k], index, n);
    assert Indexed(sources, index)[..k] == Indexed(sources[..k], index);
  }

  lemma {:induction false} AttributedCount(items: seq<Item>, n: int)
    ensures RangeCount(Attributed(items), n) == ItemCount(items, n)
  {
    if items == [] { return; }
    var k := |items| - 1;
    AttributedCount(items[..k], n);
    IndexedCount(items[k].sources, |items|, n);
    RangeConcat(Attributed(items[..k]), Indexed(items[k].sources, |items|), n);
  }

  lemma {:induction false} InsertCount(s: seq<Item>, x: Item, n: int)
    ensures ItemCount(Insert(s, x), n) == ItemCount(s, n) + SourceCount(x.sources, n)
  {
    if s == [] || s[|s| - 1].num <= x.num {
      assert (s + [x])[..|s|] == s;
      return;
    }
    var k := |s| - 1;
    InsertCount(s[..k], x, n);
    var r := Insert(s[..k], x);
    assert (r + [s[k]])[..|r|] == r;
  }

  lemma {:induction false} SortCount(items: seq<Item>, n: int)
    ensures ItemCount(Sort(items), n) == ItemCount(items, n)
  {
    if items == [] { return; }
    var k := |items| - 1;
    SortCount(items[..k], n);
    InsertCount(Sort(items[..k]), items[k], n);
  }

  /** A number is mapped exactly when some rendered item stands for it; rendered
      items stand only for single records. */
  lemma {:induction false} MappedIffCounted(items: seq<Item>, n: int)
    requires forall i, k :: 0 <= i < |items| && 0 <= k < |items[i].sources| ==> items[i].sources[k].chunk.None?
    ensures Mapped(items, n) <==> ItemCount(items, n) > 0
  {
    if items == [] { return; }
    var m := |items| - 1;
    var init, last := items[..m], items[m];
    MappedIffCounted(init, n);
    SourceMapped(last.sources, n);
    if Mapped(items, n) {
      var i, k :| 0 <= i < |items| && 0 <= k < |items[i].sources| && items[i].sources[k].first == n;
      if i < m { assert init[i] == items[i]; }
    }
    if Mapped(init, n) {
      var i, k :| 0 <= i < |init| && 0 <= k < |init[i].sources| && init[i].sources[k].first == n;
      assert items[i] == init[i];
    }
  }

  lemma {:induction false} SourceMapped(ss: seq<Source>, n: int)
    requires forall k :: 0 <= k < |ss| ==> ss[k].chunk.None?
    ensures (exists k :: 0 <= k < |ss| && ss[k].first == n) <==> SourceCount(ss, n) > 0
  {
    if ss == [] { return; }
    var m := |ss| - 1;
    SourceMapped(ss[..m], n);
    if k :| 0 <= k < |ss[..m]| && ss[..m][k].first == n { assert ss[k].first == n; }
  }

  // ----------------------------------------------------- each record once

  function RecordCount(records: seq<Record>, n: int): nat {
    if records == [] then 0 else RecordCount(records[..|records| - 1], n) + One(records[|records| - 1].num, n)
  }

  ghost predicate Distinct(records: seq<Record>) {
    forall i, j :: 0 <= i < j < |records| ==> records[i].num != records[j].num
  }

  lemma {:induction false} UnmappedCount(records: seq<Record>, items: seq<Item>, n: int)
    ensures RangeCount(Unmapped(records, items), n) == if Mapped(items, n) then 0 else RecordCount(records, n)
  {
    if records == [] { return; }
    var k := |records| - 1;
    UnmappedCount(records[..k], items, n);
    var more := if Mapped(items, records[k].num) then [] else [Range(RawSource(records[k].num), None)];
    RangeConcat(Unmapped(records[..k], items), more, n);
    if more != [] { assert more[..0] == []; }
  }

  lemma {:induction false} AbsentCount(records: seq<Record>, n: int)
    requires forall i :: 0 <= i < |records| ==> records[i].num != n
    ensures RecordCount(records, n) == ShownCount(records, n) == 0
  {
    if records != [] { AbsentCount(records[..|records| - 1], n); }
  }

  lemma {:induction false} UniqueCount(records: seq<Record>, i: nat)
    requires Distinct(records) && i < |records|
    ensures RecordCount(records, records[i].num) == 1
    ensures ShownCount(records, records[i].num) == if IsShown(records[i]) then 1 else 0
  {
    var k := |records| - 1;
    if i == k {
      AbsentCount(records[..k], records[i].num);
    } else {
      UniqueCount(records[..k], i);
    }
  }

  // ---------------------------------------------------- the message it names

  /** The message renders this record. */
  predicate Shows(m: Message, r: Record) {
    match r.body
    case Text(_, text) => m.Assistant? && m.text == Some(text)
    case Call(_, _, _, content) =>
      (m.Assistant? && WireCall(WireIdOf(r), content) in m.calls) || m == MissingResult(r.num, content)
    case Result(_, _, content) => (m.Tool? && m.content == content) || m == OrphanResult(r.num, content)
    case Plain(shown) => shown.Some? && m == Standalone(shown.value)
  }

  ghost predicate ShownFrom(s: Source, m: Message, records: seq<Record>) {
    s.chunk.None? && s.first == s.last && exists i :: 0 <= i < |records| && records[i].num == s.first && Shows(m, records[i])
  }

  ghost predicate Faithful(x: Item, records: seq<Record>) {
    forall k :: 0 <= k < |x.sources| ==> ShownFrom(x.sources[k], x.message, records)
  }

  ghost predicate AllFaithful(items: seq<Item>, records: seq<Record>) {
    forall i :: 0 <= i < |items| ==> Faithful(items[i], records)
  }

  ghost predicate PairFrom(c: Pairing, records: seq<Record>) {
    && c.call in records && c.call.body.Call?
    && (c.result.Some? ==> c.result.value in records && c.result.value.body.Result?)
  }

  ghost predicate TextFrom(g: Group, records: seq<Record>) {
    g.text.Some? ==> exists i :: 0 <= i < |records| && records[i].num == g.num && records[i].body.Text? && records[i].body.text == g.text.value
  }

  /** Everything in the open group comes from the records fed so far. */
  ghost predicate GroupFrom(g: Group, records: seq<Record>) {
    && TextFrom(g, records) && AllFaithful(g.after, records)
    && forall k :: 0 <= k < |g.calls| ==> PairFrom(g.calls[k], records)
  }

  lemma {:induction false} AnsweredFrom(calls: seq<Pairing>, records: seq<Record>)
    requires forall k :: 0 <= k < |calls| ==> PairFrom(calls[k], records)
    ensures forall k :: 0 <= k < |Answered(calls)| ==> PairFrom(Answered(calls)[k], records)
    ensures forall k :: 0 <= k < |Unanswered(calls)| ==> PairFrom(Unanswered(calls)[k], records)
  {
    if calls != [] { AnsweredFrom(calls[..|calls| - 1], records); }
  }

  lemma ShowsOne(r: Record, m: Message, records: seq<Record>)
    requires r in records && Shows(m, r)
    ensures ShownFrom(RawSource(r.num), m, records)
  {
    var i :| 0 <= i < |records| && records[i] == r;
    assert records[i].num == r.num && Shows(m, records[i]);
  }

  lemma HeadFaithful(g: Group, records: seq<Record>)
    requires GroupFrom(g, records)
    ensures AllFaithful(Head(g), records)
  {
    hide ShownFrom;
    AnsweredFrom(g.calls, records);
    if Head(g) == [] { return; }
    var paired, x := Answered(g.calls), Head(g)[0];
    var own: seq<Source> := if g.text.Some? then [RawSource(g.num)] else [];
    forall k | 0 <= k < |x.sources| ensures ShownFrom(x.sources[k], x.message, records) {
      if k < |own| {
        var i :| 0 <= i < |records| && records[i].num == g.num && records[i].body.Text? && records[i].body.text == g.text.value;
        ShowsOne(records[i], x.message, records);
      } else {
        var c := paired[k - |own|];
        assert x.message.calls[k - |own|] == WireCall(WireIdOf(c.call), ContentOf(c.call));
        ShowsOne(c.call, x.message, records);
      }
    }
  }

  lemma FlushFaithful(g: Option<Group>, records: seq<Record>)
    requires g.Some? ==> GroupFrom(g.value, records)
    ensures AllFaithful(Flush(g), records)
  {
    if g.None? { return; }
    hide ShownFrom, Head;
    var g := g.value;
    var rs, ms := Results(g.num, Answered(g.calls)), Missing(g.num, Unanswered(g.calls));
    HeadFaithful(g, records);
    AnsweredFrom(g.calls, records);
    forall k | 0 <= k < |rs| ensures Faithful(rs[k], records) {
      ShowsOne(Answered(g.calls)[k].result.value, rs[k].message, records);
    }
    forall k | 0 <= k < |ms| ensures Faithful(ms[k], records) {
      ShowsOne(Unanswered(g.calls)[k].call, ms[k].message, records);
    }
  }

  ghost predicate FedFrom(st: Rendering, records: seq<Record>) {
    AllFaithful(st.out, records) && (st.group.Some? ==> GroupFrom(st.group.value, records))
  }

  lemma MoreRecords(x: Item, records: seq<Record>, r: Record)
    requires Faithful(x, records)
    ensures Faithful(x, records + [r])
  {
    forall k | 0 <= k < |x.sources| ensures ShownFrom(x.sources[k], x.message, records + [r]) {
      assert ShownFrom(x.sources[k], x.message, records);
      var i :| 0 <= i < |records| && records[i].num == x.sources[k].first && Shows(x.message, records[i]);
      assert (records + [r])[i] == records[i];
    }
  }

  lemma MoreFed(st: Rendering, records: seq<Record>, r: Record)
    requires FedFrom(st, records)
    ensures FedFrom(st, records + [r])
  {
    hide Faithful, ShownFrom;
    var more := records + [r];
    forall i | 0 <= i < |st.out| ensures Faithful(st.out[i], more) { MoreRecords(st.out[i], records, r); }
    if st.group.Some? {
      var g := st.group.value;
      forall i | 0 <= i < |g.after| ensures Faithful(g.after[i], more) { MoreRecords(g.after[i], records, r); }
      if g.text.Some? {
        var i :| 0 <= i < |records| && records[i].num == g.num && records[i].body.Text? && records[i].body.text == g.text.value;
        assert more[i] == records[i];
      }
      assert forall k :: 0 <= k < |g.calls| ==> PairFrom(g.calls[k], records);
    }
  }

  lemma FeedFaithful(st: Rendering, records: seq<Record>, r: Record)
    requires FedFrom(st, records) && r in records
    ensures FedFrom(Feed(st, r), records)
  {
    hide ShownFrom, Flush;
    FlushFaithful(st.group, records);
    match r.body {
      case Text(_, text) =>
        var i :| 0 <= i < |records| && records[i] == r;
        assert records[i].num == r.num && records[i].body.Text?;
      case Call(_, _, _, _) => if SameRound(st.group, r) { return; }
      case Result(_, _, content) =>
        if st.group.Some? && FindCall(st.group.value.calls, r, 0).Some? { return; }
        ShowsOne(r, OrphanResult(r.num, content), records);
      case Plain(shown) =>
        if shown.Some? { ShowsOne(r, Standalone(shown.value), records); }
        if Waiting(st.group) { return; }
    }
  }

  lemma {:induction false} FeedAllFaithful(records: seq<Record>)
    ensures FedFrom(FeedAll(records), records)
  {
    if records == [] { return; }
    hide FedFrom, Feed;
    var n := |records| - 1;
    FeedAllFaithful(records[..n]);
    MoreFed(FeedAll(records[..n]), records[..n], records[n]);
    assert records == records[..n] + [records[n]];
    FeedFaithful(FeedAll(records[..n]), records, records[n]);
  }

  lemma RenderedFaithful(records: seq<Record>)
    ensures AllFaithful(Rendered(records), records)
  {
    hide Faithful;
    FeedAllFaithful(records);
    FlushFaithful(FeedAll(records).group, records);
  }

  // ------------------------------------------------------------------ the claim

  /** Blocks stand for chunk ranges and notices for nothing. */
  ghost predicate NoRaw(before: seq<Item>) {
    forall i, k :: 0 <= i < |before| && 0 <= k < |before[i].sources| ==> before[i].sources[k].chunk.Some?
  }

  lemma {:induction false} SourceNone(ss: seq<Source>, n: int)
    requires forall k :: 0 <= k < |ss| ==> ss[k].chunk.Some?
    ensures SourceCount(ss, n) == 0
  {
    if ss != [] { SourceNone(ss[..|ss| - 1], n); }
  }

  lemma {:induction false} NoRawCount(before: seq<Item>, n: int)
    requires NoRaw(before)
    ensures ItemCount(before, n) == 0
  {
    if before == [] { return; }
    var k := |before| - 1;
    SourceNone(before[k].sources, n);
    assert forall i :: 0 <= i < k ==> before[..k][i] == before[i];
    NoRawCount(before[..k], n);
  }

  lemma RenderedMapped(records: seq<Record>, n: int)
    ensures Mapped(Rendered(records), n) <==> ShownCount(records, n) > 0
  {
    var items := Rendered(records);
    hide Rendered;
    RenderedFaithful(records);
    forall i, k | 0 <= i < |items| && 0 <= k < |items[i].sources| ensures items[i].sources[k].chunk.None? {
      assert Faithful(items[i], records);
      assert ShownFrom(items[i].sources[k], items[i].message, records);
    }
    MappedIffCounted(items, n);
    RenderedCount(records, n);
  }

  lemma RangesCount(before: seq<Item>, records: seq<Record>, n: int)
    requires NoRaw(before)
    ensures RangeCount(Ranges(before, records), n)
            == ShownCount(records, n) + if ShownCount(records, n) > 0 then 0 else RecordCount(records, n)
  {
    hide Rendered, Sort, ShownCount, RecordCount, RangeCount, ItemCount;
    var items := Rendered(records);
    RenderedMapped(records, n);
    RenderedCount(records, n);
    NoRawCount(before, n);
    ItemConcat(before, items, n);
    SortCount(before + items, n);
    AttributedCount(View(before, records), n);
    UnmappedCount(records, items, n);
    RangeConcat(Unmapped(records, items), Attributed(View(before, records)), n);
  }

  lemma {:induction false} CountedPosition(ranges: seq<Range>, n: int)
    ensures RangeCount(ranges, n) > 0 ==> exists j :: 0 <= j < |ranges| && RawCount(ranges[j].source, n) == 1
    ensures RangeCount(ranges, n) == 0 ==> forall j :: 0 <= j < |ranges| ==> RawCount(ranges[j].source, n) == 0
    ensures RangeCount(ranges, n) == 1 ==>
              forall j, k :: 0 <= j < k < |ranges| ==> RawCount(ranges[j].source, n) == 0 || RawCount(ranges[k].source, n) == 0
  {
    if ranges == [] { return; }
    var m := |ranges| - 1;
    var init := ranges[..m];
    CountedPosition(init, n);
    if RangeCount(init, n) > 0 {
      var j :| 0 <= j < |init| && RawCount(init[j].source, n) == 1;
      assert ranges[j] == init[j];
    } else if RawCount(ranges[m].source, n) == 1 {
    }
    forall j | 0 <= j < m ensures ranges[j] == init[j] {}
  }

  /** The range `j` attributes record `n`. */
  ghost predicate At(ranges: seq<Range>, j: int, n: int) {
    0 <= j < |ranges| && RawCount(ranges[j].source, n) == 1
  }

  /** For records with distinct numbers and any blocks or notices, every record
      has exactly one source range. */
  lemma AttributedOnce(before: seq<Item>, records: seq<Record>, i: nat)
    requires NoRaw(before) && Distinct(records) && i < |records|
    ensures var ranges, n := Ranges(before, records), records[i].num;
            && (exists j :: At(ranges, j, n))
            && (forall j, k :: At(ranges, j, n) && At(ranges, k, n) ==> j == k)
  {
    hide Ranges, RangeCount, RecordCount, ShownCount;
    var ranges, n := Ranges(before, records), records[i].num;
    RangesCount(before, records, n);
    UniqueCount(records, i);
    CountedPosition(ranges, n);
    var j :| 0 <= j < |ranges| && RawCount(ranges[j].source, n) == 1;
    assert At(ranges, j, n);
  }

  lemma {:induction false} AttributedIndex(items: seq<Item>, j: nat)
    requires j < |Attributed(items)|
    ensures var r := Attributed(items)[j];
            r.index.Some? && 1 <= r.index.value <= |items| && r.source in items[r.index.value - 1].sources
  {
    var k := |items| - 1;
    var init := Attributed(items[..k]);
    if j < |init| {
      AttributedIndex(items[..k], j);
    } else {
      assert Attributed(items)[j] == Indexed(items[k].sources, |items|)[j - |init|];
    }
  }

  lemma {:induction false} UnmappedIndex(records: seq<Record>, items: seq<Item>, j: nat)
    requires j < |Unmapped(records, items)|
    ensures var r := Unmapped(records, items)[j];
            r.index.None? && r.source.chunk.None? && !Mapped(items, r.source.first)
  {
    var k := |records| - 1;
    if j < |Unmapped(records[..k], items)| { UnmappedIndex(records[..k], items, j); }
  }

  lemma ViewFaithful(before: seq<Item>, records: seq<Record>, m: nat)
    requires m < |View(before, records)|
    ensures var x := View(before, records)[m]; x in before || Faithful(x, records)
  {
    hide Sort, Rendered, Faithful;
    var items := before + Rendered(records);
    SortHolds(items);
    var x := Sort(items)[m];
    assert x in multiset(Sort(items));
    assert x in items;
    RenderedFaithful(records);
  }

  /** The one range of a record names the message that renders it; it names none
      exactly when the record has no rendering. */
  lemma RangeNamesMessage(before: seq<Item>, records: seq<Record>, i: nat, j: nat)
    requires NoRaw(before) && Distinct(records) && i < |records| && At(Ranges(before, records), j, records[i].num)
    ensures var r, view := Ranges(before, records)[j], View(before, records);
            && r.source.first == r.source.last == records[i].num
            && (r.index.None? <==> !IsShown(records[i]))
            && (r.index.Some? ==> 1 <= r.index.value <= |view| && Shows(view[r.index.value - 1].message, records[i]))
  {
    hide View, Rendered, Mapped, ShownCount;
    var view, un := View(before, records), Unmapped(records, Rendered(records));
    var n := records[i].num;
    UniqueCount(records, i);
    RenderedMapped(records, n);
    if j < |un| {
      UnmappedIndex(records, Rendered(records), j);
      UnmappedSingle(records, Rendered(records), j);
      return;
    }
    AttributedIndex(view, j - |un|);
    var r := Ranges(before, records)[j];
    assert r == Attributed(view)[j - |un|];
    var x := view[r.index.value - 1];
    ViewFaithful(before, records, r.index.value - 1);
    var k :| 0 <= k < |x.sources| && x.sources[k] == r.source;
    FaithfulSource(x, k, records, i);
    RaisedCount(records, n);
  }

  lemma FaithfulSource(x: Item, k: nat, records: seq<Record>, i: nat)
    requires Faithful(x, records) && Distinct(records) && i < |records|
    requires k < |x.sources| && x.sources[k].first == records[i].num
    ensures x.sources[k].last == records[i].num && Shows(x.message, records[i])
  {
    assert ShownFrom(x.sources[k], x.message, records);
    var h :| 0 <= h < |records| && records[h].num == x.sources[k].first && Shows(x.message, records[h]);
    assert h == i;
  }

  lemma {:induction false} UnmappedSingle(records: seq<Record>, items: seq<Item>, j: nat)
    requires j < |Unmapped(records, items)|
    ensures Unmapped(records, items)[j].source.last == Unmapped(records, items)[j].source.first
  {
    var k := |records| - 1;
    if j < |Unmapped(records[..k], items)| { UnmappedSingle(records[..k], items, j); }
  }

  lemma RaisedCount(records: seq<Record>, n: int)
    ensures forall i :: 0 <= i < |records| && records[i].num == n && (exists m :: Shows(m, records[i])) ==> IsShown(records[i])
  {
  }

  // ------------------------------------------------------ a chunk in a snapshot

  predicate Inside(r: Range, first: int, last: int) { first <= r.source.first && r.source.last <= last }

  predicate Touches(r: Range, first: int, last: int) { r.source.first <= last && first <= r.source.last }

  predicate Carries(r: Range, x: int) { r.source.first <= x <= r.source.last }

  ghost predicate WellFormed(ranges: seq<Range>) {
    forall j :: 0 <= j < |ranges| ==> ranges[j].source.first <= ranges[j].source.last
  }

  ghost predicate CarriedInside(ranges: seq<Range>, first: int, last: int, x: int) {
    exists j :: 0 <= j < |ranges| && Inside(ranges[j], first, last) && Carries(ranges[j], x)
  }

  ghost predicate Selected(ranges: seq<Range>, first: int, last: int, m: nat) {
    exists j :: 0 <= j < |ranges| && Inside(ranges[j], first, last) && ranges[j].index == Some(m)
  }

  /** The snapshot holds the chunk `first..last`: no message that carries some of
      it carries anything else, no range straddles its ends, and its records are
      covered without a gap. */
  ghost predicate HoldsChunk(ranges: seq<Range>, first: int, last: int) {
    && (forall j :: 0 <= j < |ranges| && ranges[j].index.Some? && Selected(ranges, first, last, ranges[j].index.value) ==>
          Inside(ranges[j], first, last))
    && (forall j :: 0 <= j < |ranges| && Touches(ranges[j], first, last) ==> Inside(ranges[j], first, last))
    && (forall x :: first <= x <= last ==> CarriedInside(ranges, first, last, x))
  }

  /** The message indices of the ranges inside the chunk. */
  method SelectedMessages(ranges: seq<Range>, first: int, last: int) returns (selected: set<nat>)
    ensures forall m :: m in selected <==> Selected(ranges, first, last, m)
  {
    selected := {};
    var i := 0;
    while i < |ranges|
      invariant 0 <= i <= |ranges|
      invariant forall m :: m in selected <==> Selected(ranges[..i], first, last, m)
    {
      assert ranges[..i + 1] == ranges[..i] + [ranges[i]];
      ghost var before := selected;
      if Inside(ranges[i], first, last) && ranges[i].index.Some? { selected := selected + {ranges[i].index.value}; }
      forall m ensures m in selected <==> Selected(ranges[..i + 1], first, last, m) {
        SelectedSnoc(ranges[..i], ranges[i], first, last, m);
      }
      i := i + 1;
    }
    assert ranges[..i] == ranges;
  }

  lemma SelectedSnoc(ranges: seq<Range>, r: Range, first: int, last: int, m: nat)
    ensures Selected(ranges + [r], first, last, m)
            <==> Selected(ranges, first, last, m) || (Inside(r, first, last) && r.index == Some(m))
  {
    var more := ranges + [r];
    assert more[|ranges|] == r;
    if Selected(ranges, first, last, m) {
      var j :| 0 <= j < |ranges| && Inside(ranges[j], first, last) && ranges[j].index == Some(m);
      assert more[j] == ranges[j];
    }
  }

  /** claimMemoryBranch's `covers`: it accepts exactly the snapshots that hold
      the chunk. */
  method Covers(ranges: seq<Range>, first: int, last: int) returns (ok: bool)
    requires WellFormed(ranges) && first <= last
    ensures ok <==> HoldsChunk(ranges, first, last)
  {
    var selected := SelectedMessages(ranges, first, last);
    var i := 0;
    while i < |ranges|
      invariant 0 <= i <= |ranges|
      invariant forall j :: 0 <= j < i && ranges[j].index.Some? && Selected(ranges, first, last, ranges[j].index.value) ==>
                  Inside(ranges[j], first, last)
    {
      if ranges[i].index.Some? && ranges[i].index.value in selected && !Inside(ranges[i], first, last) { return false; }
      i := i + 1;
    }
    ok := Walk(ranges, first, last);
  }

  /** The walk over the ranges by their first record. */
  method Walk(ranges: seq<Range>, first: int, last: int) returns (ok: bool)
    requires WellFormed(ranges) && first <= last
    ensures ok <==>
            && (forall j :: 0 <= j < |ranges| && Touches(ranges[j], first, last) ==> Inside(ranges[j], first, last))
            && (forall x :: first <= x <= last ==> CarriedInside(ranges, first, last, x))
  {
    var sorted := SortedCopy(ranges, (r: Range) => r.source.first);
    assert forall p :: 0 <= p < |sorted| ==> sorted[p] in ranges;
    var next, i := first, 0;
    while i < |sorted|
      invariant 0 <= i <= |sorted| && first <= next <= last + 1
      invariant forall x :: first <= x < next ==> CarriedInside(ranges, first, last, x)
      invariant forall p :: 0 <= p < i && Touches(sorted[p], first, last) ==>
                  Inside(sorted[p], first, last) && sorted[p].source.last < next
    {
      var r := sorted[i];
      if Touches(r, first, last) {
        ghost var p :| 0 <= p < |ranges| && ranges[p] == r;
        if !Inside(r, first, last) { return false; }
        if r.source.first > next {
          Uncarried(ranges, sorted, i, first, last, next);
          return false;
        }
        assert forall x :: next <= x <= r.source.last ==> Carries(ranges[p], x);
        next := Max(next, r.source.last + 1);
      }
      i := i + 1;
    }
    forall j | 0 <= j < |ranges| && Touches(ranges[j], first, last) ensures Inside(ranges[j], first, last) {
      assert ranges[j] in sorted;
    }
    if next <= last { Uncarried(ranges, sorted, i, first, last, next); }
    return next == last + 1;
  }

  /** A record the walk stops before is carried by no range inside. */
  lemma Uncarried(ranges: seq<Range>, sorted: seq<Range>, i: nat, first: int, last: int, next: int)
    requires i <= |sorted| && first <= next <= last && WellFormed(ranges)
    requires forall e :: e in sorted <==> e in ranges
    requires forall p, q :: 0 <= p < q < |sorted| ==> sorted[p].source.first <= sorted[q].source.first
    requires forall p :: 0 <= p < i && Touches(sorted[p], first, last) ==> sorted[p].source.last < next
    requires i < |sorted| ==> sorted[i].source.first > next
    ensures !CarriedInside(ranges, first, last, next)
  {
    forall j | 0 <= j < |ranges| && Inside(ranges[j], first, last) ensures !Carries(ranges[j], next) {
      assert ranges[j] in sorted;
      var q :| 0 <= q < |sorted| && sorted[q] == ranges[j];
      assert q < i || sorted[i].source.first <= sorted[q].source.first;
    }
  }

  // ----------------------------------------------------------- the source file

  /** The ranges of one message inside the chunk, in order. */
  function GroupOf(ranges: seq<Range>, first: int, last: int, m: nat): seq<Range> {
    if ranges == [] then []
    else
      var r := ranges[|ranges| - 1];
      GroupOf(ranges[..|ranges| - 1], first, last, m) + if Inside(r, first, last) && r.index == Some(m) then [r] else []
  }

  lemma Twice(order: seq<nat>, p: nat, q: nat)
    requires p < q < |order| && order[p] == order[q]
    ensures multiset(order)[order[p]] >= 2
  {
    assert order == order[..q] + order[q..];
    assert order[..q][p] == order[p] && order[q..][0] == order[q];
    assert multiset(order[..q])[order[p]] >= 1 && multiset(order[q..])[order[p]] >= 1;
  }

  lemma StrictlySorted(order: seq<nat>)
    requires Ascending(order, (m: nat) => m) && forall m :: multiset(order)[m] <= 1
    ensures forall p, q :: 0 <= p < q < |order| ==> order[p] < order[q]
  {
    forall p, q | 0 <= p < q < |order| ensures order[p] < order[q] {
      assert ((m: nat) => m)(order[p]) <= ((m: nat) => m)(order[q]);
      if order[p] == order[q] { Twice(order, p, q); }
    }
  }

  ghost predicate NoneTwice(keys: seq<nat>) { forall p, q :: 0 <= p < q < |keys| ==> keys[p] != keys[q] }

  lemma {:induction false} CountedOnce(keys: seq<nat>)
    requires NoneTwice(keys)
    ensures forall m :: multiset(keys)[m] <= 1
  {
    if keys == [] { return; }
    var n := |keys| - 1;
    CountedOnce(keys[..n]);
    assert keys == keys[..n] + [keys[n]];
    assert keys[n] !in keys[..n];
  }

  lemma GroupSnoc(ranges: seq<Range>, r: Range, first: int, last: int, m: nat)
    ensures GroupOf(ranges + [r], first, last, m)
            == GroupOf(ranges, first, last, m) + if Inside(r, first, last) && r.index == Some(m) then [r] else []
  {
    assert (ranges + [r])[..|ranges|] == ranges;
  }

  /** The ranges inside the chunk, grouped by their message. */
  method GroupRanges(ranges: seq<Range>, first: int, last: int) returns (keys: seq<nat>, groups: map<nat, seq<Range>>)
    ensures NoneTwice(keys) && forall m :: m in keys <==> m in groups
    ensures forall m: nat :: m in groups <==> GroupOf(ranges, first, last, m) != []
    ensures forall m :: m in groups ==> groups[m] == GroupOf(ranges, first, last, m)
  {
    groups, keys := map[], [];
    var i := 0;
    while i < |ranges|
      invariant 0 <= i <= |ranges|
      invariant NoneTwice(keys) && forall m :: m in keys <==> m in groups
      invariant forall m: nat :: m in groups <==> GroupOf(ranges[..i], first, last, m) != []
      invariant forall m :: m in groups ==> groups[m] == GroupOf(ranges[..i], first, last, m)
    {
      hide Inside, GroupOf;
      var r := ranges[i];
      assert ranges[..i + 1] == ranges[..i] + [r];
      forall m: nat ensures GroupOf(ranges[..i + 1], first, last, m)
                            == GroupOf(ranges[..i], first, last, m) + if Inside(r, first, last) && r.index == Some(m) then [r] else [] {
        GroupSnoc(ranges[..i], r, first, last, m);
      }
      if Inside(r, first, last) && r.index.Some? {
        var m := r.index.value;
        if m !in groups { keys := keys + [m]; }
        groups := groups[m := (if m in groups then groups[m] else []) + [r]];
      }
      i := i + 1;
    }
    assert ranges[..i] == ranges;
  }

  lemma {:induction false} GroupHolds(ranges: seq<Range>, first: int, last: int, m: nat)
    ensures forall r :: r in GroupOf(ranges, first, last, m) <==> r in ranges && Inside(r, first, last) && r.index == Some(m)
  {
    if ranges != [] {
      GroupHolds(ranges[..|ranges| - 1], first, last, m);
      assert ranges == ranges[..|ranges| - 1] + [ranges[|ranges| - 1]];
    }
  }

  lemma GroupEmpty(ranges: seq<Range>, first: int, last: int, m: nat)
    ensures GroupOf(ranges, first, last, m) == [] <==> !Selected(ranges, first, last, m)
  {
    GroupHolds(ranges, first, last, m);
    var group := GroupOf(ranges, first, last, m);
    hide GroupOf;
    if group != [] {
      assert group[0] in group && group[0] in ranges;
    }
    if Selected(ranges, first, last, m) {
      var j :| 0 <= j < |ranges| && Inside(ranges[j], first, last) && ranges[j].index == Some(m);
      assert ranges[j] in group;
    }
  }

  /** memorySource: the frozen messages that carry the chunk, by index, each with
      the ranges it carries. */
  method MemorySource(ranges: seq<Range>, first: int, last: int) returns (order: seq<nat>, groups: map<nat, seq<Range>>)
    ensures forall m :: m in order <==> Selected(ranges, first, last, m)
    ensures forall p, q :: 0 <= p < q < |order| ==> order[p] < order[q]
    ensures forall m :: m in groups <==> Selected(ranges, first, last, m)
    ensures forall m :: m in groups ==> groups[m] == GroupOf(ranges, first, last, m)
  {
    hide Selected, GroupOf;
    var keys;
    keys, groups := GroupRanges(ranges, first, last);
    CountedOnce(keys);
    forall m: nat ensures m in groups <==> Selected(ranges, first, last, m) { GroupEmpty(ranges, first, last, m); }
    order := SortedCopy(keys, (m: nat) => m);
    StrictlySorted(order);
  }

  /** When a snapshot of distinct records holds a chunk, each record of the chunk
      has one range, inside it; the message that renders the record is one of the
      source file's; and that message carries nothing outside the chunk. */
  lemma SnapshotHoldsRecords(before: seq<Item>, records: seq<Record>, first: int, last: int, i: nat)
    requires NoRaw(before) && Distinct(records) && i < |records| && first <= records[i].num <= last
    requires HoldsChunk(Ranges(before, records), first, last)
    ensures var ranges, view := Ranges(before, records), View(before, records);
            exists j :: && At(ranges, j, records[i].num) && Inside(ranges[j], first, last)
                        && (ranges[j].index.None? <==> !IsShown(records[i]))
                        && (ranges[j].index.Some? ==>
                              var m := ranges[j].index.value;
                              && 1 <= m <= |view| && Shows(view[m - 1].message, records[i])
                              && Selected(ranges, first, last, m)
                              && forall k :: 0 <= k < |ranges| && ranges[k].index == Some(m) ==> Inside(ranges[k], first, last))
  {
    hide Ranges, View, Shows, IsShown;
    var ranges := Ranges(before, records);
    AttributedOnce(before, records, i);
    var j :| At(ranges, j, records[i].num);
    RangeNamesMessage(before, records, i, j);
    assert Touches(ranges[j], first, last);
    if ranges[j].index.Some? { assert Selected(ranges, first, last, ranges[j].index.value); }
  }
}
