/** Which result answers which call, said on the records alone, and that the
    rendering pairs exactly those. */
module Pairs {
  import opened Common
  import opened Render
  import A = Attribution

  // ------------------------------------------------------------ said on the records

  /** The result names the call: by its index, or without one by the call id. */
  predicate Names(call: Record, result: Record) {
    && call.body.Call? && result.body.Result?
    && if result.body.index.Some? then call.body.index == result.body.index else call.body.callId == result.body.callId
  }

  /** Both are texts or calls of one round. */
  predicate SameUnit(a: Record, b: Record) {
    a.turn == b.turn && (a.body.Text? || a.body.Call?) && (b.body.Text? || b.body.Call?) && a.body.round == b.body.round
  }

  /** Where the round open before record `n` starts; `n` when none is open.  A text
      starts one, a call starts one unless it has the turn and round of the open one;
      a result that answers none of its calls ends it, and so does any other record
      once every call of it is answered. */
  ghost function RoundStart(records: seq<Record>, n: nat): (r: nat)
    requires n <= |records|
    ensures r <= n
    decreases n, 0, 0
  {
    if n == 0 then 0
    else
      var start, last := RoundStart(records, n - 1), records[n - 1];
      match last.body
      case Text(_, _) => n - 1
      case Call(_, _, _, _) => if start < n - 1 && SameUnit(records[start], last) then start else n - 1
      case Result(_, _, _) => if Used(records, n - 1) then start else n
      case Plain(_) => if SomeLacks(records, n - 1) then start else n
  }

  /** The result at `m` answers the call at `i`: it names it, the call's round is
      open, the call has no answer yet, and every earlier call of the round that it
      names has one. */
  ghost predicate Answers(records: seq<Record>, m: nat, i: nat)
    requires m < |records|
    decreases m, 1, i
  {
    && i < m && RoundStart(records, m) <= i && Names(records[i], records[m])
    && (forall p :: i < p < m ==> !Answers(records, p, i))
    && (forall h :: RoundStart(records, m) <= h < i && Names(records[h], records[m]) ==> exists p :: h < p < m && Answers(records, p, h))
  }

  /** The result at `m` answers some call. */
  ghost predicate Used(records: seq<Record>, m: nat)
    requires m < |records|
    decreases m, 2, 0
  {
    exists i: nat :: Answers(records, m, i)
  }

  /** The call at `i` is in the round open before `n` and has no answer yet. */
  ghost predicate Lacks(records: seq<Record>, n: nat, i: int)
    requires n <= |records|
    decreases n, 1, 0
  {
    RoundStart(records, n) <= i < n && records[i].body.Call? && forall m :: i < m < n ==> !Answers(records, m, i)
  }

  ghost predicate SomeLacks(records: seq<Record>, n: nat)
    requires n <= |records|
    decreases n, 2, 0
  {
    exists i :: Lacks(records, n, i)
  }

  lemma {:induction false} OneAnswer(records: seq<Record>, m: nat, n: nat, i: nat)
    requires m < |records| && n < |records| && Answers(records, m, i) && Answers(records, n, i)
    ensures m == n
  {
  }

  lemma {:induction false} StartGrows(records: seq<Record>, n: nat)
    requires n < |records|
    ensures RoundStart(records, n) <= RoundStart(records, n + 1)
  {
  }

  lemma {:induction false} StartsGrow(records: seq<Record>, m: nat, n: nat)
    requires m <= n <= |records|
    ensures RoundStart(records, m) <= RoundStart(records, n)
  {
    if m < n {
      StartsGrow(records, m, n - 1);
      StartGrows(records, n - 1);
    }
  }

  // ------------------------------------------------------------ the open round

  /** The positions of the calls between `lo` and `n`. */
  function CallsIn(records: seq<Record>, lo: nat, n: nat): seq<nat>
    requires lo <= n <= |records|
  {
    if n == lo then [] else CallsIn(records, lo, n - 1) + if records[n - 1].body.Call? then [n - 1] else []
  }

  ghost predicate CallPositions(records: seq<Record>, lo: nat, n: nat, ps: seq<nat>) {
    && lo <= n <= |records|
    && (forall k :: 0 <= k < |ps| ==> lo <= ps[k] < n && records[ps[k]].body.Call?)
    && (forall j, k :: 0 <= j < k < |ps| ==> ps[j] < ps[k])
    && (forall i :: lo <= i < n && records[i].body.Call? ==> i in ps)
  }

  lemma {:induction false} CallsInAre(records: seq<Record>, lo: nat, n: nat)
    requires lo <= n <= |records|
    ensures CallPositions(records, lo, n, CallsIn(records, lo, n))
  {
    if lo == n { return; }
    hide CallPositions;
    CallsInAre(records, lo, n - 1);
    var ps := CallsIn(records, lo, n - 1);
    if records[n - 1].body.Call? {
      PositionsSnoc(records, lo, n - 1, ps);
    } else {
      PositionsSkip(records, lo, n - 1, ps);
      assert CallsIn(records, lo, n) == ps + [] == ps;
    }
  }

  lemma {:induction false} PositionsSkip(records: seq<Record>, lo: nat, n: nat, ps: seq<nat>)
    requires CallPositions(records, lo, n, ps) && n < |records| && !records[n].body.Call?
    ensures CallPositions(records, lo, n + 1, ps)
  {
  }

  lemma {:induction false} PositionsSnoc(records: seq<Record>, lo: nat, n: nat, ps: seq<nat>)
    requires CallPositions(records, lo, n, ps) && n < |records| && records[n].body.Call?
    ensures CallPositions(records, lo, n + 1, ps + [n])
  {
    var more := ps + [n];
    assert forall k :: 0 <= k < |ps| ==> more[k] == ps[k];
    assert more[|ps|] == n;
    forall i | lo <= i < n + 1 && records[i].body.Call? ensures i in more {
      if i < n { assert i in ps; }
    }
  }

  /** Before record `n` the call at `i` has its answer. */
  ghost predicate HasAnswer(records: seq<Record>, n: nat, i: nat)
    requires n <= |records|
  {
    exists m :: i < m < n && Answers(records, m, i)
  }

  /** The result kept beside a call is the record that answers it. */
  ghost predicate ResultIs(records: seq<Record>, n: nat, i: nat, result: Option<Record>)
    requires i < n <= |records|
  {
    match result
    case None => !HasAnswer(records, n, i)
    case Some(r) => exists m :: i < m < n && Answers(records, m, i) && records[m] == r
  }

  /** The group the rendering keeps open is the open round. */
  ghost predicate Corresponds(records: seq<Record>, n: nat, g: Option<Group>)
    requires n <= |records|
  {
    var start := RoundStart(records, n);
    match g
    case None => start == n
    case Some(g) =>
      && start < n && (records[start].body.Text? || records[start].body.Call?)
      && g.num == records[start].num && g.turn == records[start].turn && g.round == records[start].body.round
      && var ps := CallsIn(records, start, n);
         && |g.calls| == |ps|
         && forall k :: 0 <= k < |ps| ==>
              ps[k] < n && g.calls[k].call == records[ps[k]] && ResultIs(records, n, ps[k], g.calls[k].result)
  }

  lemma {:induction false} ResultStays(records: seq<Record>, n: nat, i: nat, result: Option<Record>)
    requires i < n < |records| && ResultIs(records, n, i, result) && !Answers(records, n, i)
    ensures ResultIs(records, n + 1, i, result)
  {
  }

  /** Which pairing a result fits, said on the positions. */
  lemma {:induction false} FitsIsNamed(records: seq<Record>, n: nat, g: Group, k: nat)
    requires n < |records| && Corresponds(records, n, Some(g)) && k < |g.calls| && records[n].body.Result?
    ensures var i := CallsIn(records, RoundStart(records, n), n)[k];
            Fits(g.calls[k], records[n]) <==> Names(records[i], records[n]) && !HasAnswer(records, n, i)
  {
    var ps := CallsIn(records, RoundStart(records, n), n);
    CallsInAre(records, RoundStart(records, n), n);
    var i, p := ps[k], g.calls[k];
    assert p.call == records[i] && ResultIs(records, n, i, p.result);
    NoneIffUnanswered(records, n, i, p.result);
  }

  lemma {:induction false} NoneIffUnanswered(records: seq<Record>, n: nat, i: nat, result: Option<Record>)
    requires i < n <= |records| && ResultIs(records, n, i, result)
    ensures result.None? <==> !HasAnswer(records, n, i)
  {
  }

  lemma {:induction false} NamedAreTaken(records: seq<Record>, n: nat, i: nat, h: nat)
    requires n < |records| && Answers(records, n, i) && RoundStart(records, n) <= h < i && Names(records[h], records[n])
    ensures exists p :: h < p < n && Answers(records, p, h)
  {
  }

  /** A call before the one answered, still open, is not named. */
  lemma {:induction false} EarlierTaken(records: seq<Record>, n: nat, i: nat, h: nat)
    requires h < n < |records| && Answers(records, n, i) && RoundStart(records, n) <= h && Names(records[h], records[n])
    requires !HasAnswer(records, n, h)
    ensures h >= i
  {
    if h < i { NamedAreTaken(records, n, i, h); }
  }

  lemma {:induction false} FoundAnswers(records: seq<Record>, n: nat, g: Group)
    requires n < |records| && Corresponds(records, n, Some(g)) && records[n].body.Result?
    ensures var start, found := RoundStart(records, n), FindCall(g.calls, records[n], 0);
            var ps := CallsIn(records, start, n);
            && (found.Some? ==> Answers(records, n, ps[found.value]))
            && (forall i: nat :: Answers(records, n, i) ==> found.Some? && i == ps[found.value])
  {
    var start := RoundStart(records, n);
    var ps := CallsIn(records, start, n);
    var found := FindCall(g.calls, records[n], 0);
    CallsInAre(records, start, n);
    forall k | 0 <= k < |ps| ensures Fits(g.calls[k], records[n])
                                     <==> Names(records[ps[k]], records[n]) && !HasAnswer(records, n, ps[k]) {
      FitsIsNamed(records, n, g, k);
    }
    hide Fits, FindCall, CallsIn;
    if found.Some? {
      var i := ps[found.value];
      forall h | start <= h < i && Names(records[h], records[n]) ensures exists p :: h < p < n && Answers(records, p, h) {
        assert h in ps;
        var q :| 0 <= q < |ps| && ps[q] == h;
        assert q < found.value;
      }
      assert Answers(records, n, i);
    }
    forall i: nat | Answers(records, n, i) ensures found.Some? && i == ps[found.value] {
      assert i in ps;
      var q :| 0 <= q < |ps| && ps[q] == i;
      assert Fits(g.calls[q], records[n]);
      EarlierTaken(records, n, i, ps[found.value]);
    }
  }

  lemma {:induction false} TextCorresponds(records: seq<Record>, n: nat, st: Rendering)
    requires n < |records| && Corresponds(records, n, st.group) && records[n].body.Text?
    ensures Corresponds(records, n + 1, Feed(st, records[n]).group)
  {
    hide Flush;
    assert CallsIn(records, n, n + 1) == [];
  }

  lemma {:induction false} CallCorresponds(records: seq<Record>, n: nat, st: Rendering)
    requires n < |records| && Corresponds(records, n, st.group) && records[n].body.Call?
    ensures Corresponds(records, n + 1, Feed(st, records[n]).group)
  {
    hide Flush;
    var start := RoundStart(records, n);
    if SameRound(st.group, records[n]) {
      var ps := CallsIn(records, start, n);
      assert RoundStart(records, n + 1) == start && CallsIn(records, start, n + 1) == ps + [n];
      forall k | 0 <= k < |ps| ensures ResultIs(records, n + 1, ps[k], st.group.value.calls[k].result) {
        ResultStays(records, n, ps[k], st.group.value.calls[k].result);
      }
    } else {
      assert RoundStart(records, n + 1) == n;
      assert CallsIn(records, n, n + 1) == CallsIn(records, n, n) + [n];
    }
  }

  lemma {:induction false} PlainCorresponds(records: seq<Record>, n: nat, st: Rendering)
    requires n < |records| && Corresponds(records, n, st.group) && records[n].body.Plain?
    ensures Corresponds(records, n + 1, Feed(st, records[n]).group)
  {
    hide Flush;
    WaitingLacks(records, n, st.group);
    if !Waiting(st.group) { return; }
    var start := RoundStart(records, n);
    var ps := CallsIn(records, start, n);
    assert RoundStart(records, n + 1) == start && CallsIn(records, start, n + 1) == ps;
    forall k | 0 <= k < |ps| ensures ResultIs(records, n + 1, ps[k], st.group.value.calls[k].result) {
      ResultStays(records, n, ps[k], st.group.value.calls[k].result);
    }
  }

  lemma {:induction false} OneLacks(records: seq<Record>, n: nat) returns (i: nat)
    requires n <= |records| && SomeLacks(records, n)
    ensures Lacks(records, n, i)
  {
    i :| Lacks(records, n, i);
  }

  lemma {:induction false} WaitingLacks(records: seq<Record>, n: nat, group: Option<Group>)
    requires n <= |records| && Corresponds(records, n, group)
    ensures Waiting(group) <==> SomeLacks(records, n)
  {
    var start := RoundStart(records, n);
    var ps := CallsIn(records, start, n);
    CallsInAre(records, start, n);
    if Waiting(group) {
      var k :| 0 <= k < |group.value.calls| && group.value.calls[k].result.None?;
      assert ResultIs(records, n, ps[k], None);
      assert Lacks(records, n, ps[k]);
    }
    if SomeLacks(records, n) {
      var i := OneLacks(records, n);
      assert i in ps;
      var k :| 0 <= k < |ps| && ps[k] == i;
      assert ResultIs(records, n, ps[k], group.value.calls[k].result);
    }
  }

  lemma {:induction false} ResultCorresponds(records: seq<Record>, n: nat, st: Rendering)
    requires n < |records| && Corresponds(records, n, st.group) && records[n].body.Result?
    ensures Corresponds(records, n + 1, Feed(st, records[n]).group)
  {
    hide Flush;
    if st.group.None? {
      NothingAnswered(records, n);
      return;
    }
    var g := st.group.value;
    FoundAnswers(records, n, g);
    var found := FindCall(g.calls, records[n], 0);
    if found.None? {
      assert !Used(records, n);
      return;
    }
    var start := RoundStart(records, n);
    var ps := CallsIn(records, start, n);
    CallsInAre(records, start, n);
    assert Used(records, n) && RoundStart(records, n + 1) == start && CallsIn(records, start, n + 1) == ps;
    var calls := g.calls[found.value := g.calls[found.value].(result := Some(records[n]))];
    forall k | 0 <= k < |ps| ensures ResultIs(records, n + 1, ps[k], calls[k].result) {
      if k != found.value {
        assert ps[k] != ps[found.value];
        ResultStays(records, n, ps[k], g.calls[k].result);
      }
    }
  }

  lemma {:induction false} NothingAnswered(records: seq<Record>, n: nat)
    requires n < |records| && RoundStart(records, n) == n
    ensures !Used(records, n)
  {
  }

  lemma {:induction false} GroupIsRound(records: seq<Record>, n: nat)
    requires n <= |records|
    ensures Corresponds(records, n, FeedAll(records[..n]).group)
  {
    if n == 0 { return; }
    assert records[..n][..n - 1] == records[..n - 1];
    GroupIsRound(records, n - 1);
    hide Corresponds, Feed;
    var st := FeedAll(records[..n - 1]);
    match records[n - 1].body {
      case Text(_, _) => TextCorresponds(records, n - 1, st);
      case Call(_, _, _, _) => CallCorresponds(records, n - 1, st);
      case Result(_, _, _) => ResultCorresponds(records, n - 1, st);
      case Plain(_) => PlainCorresponds(records, n - 1, st);
    }
  }

  // ------------------------------------------------------------- how it is rendered

  /** The id a call goes by: its recorded one, or without one its record's number. */
  predicate GoesBy(c: Record, id: WireId) {
    c.body.Call? && if c.body.callId.Some? && c.body.callId.value != 0 then id == Named(c.body.callId.value) else id == AfterRecord(c.num)
  }

  /** The call stands in an assistant message, and the result is the tool message in
      the call's reply slot, under the call's own id. */
  predicate RepliesAt(items: seq<Item>, h: int, q: int, c: Record, r: Record) {
    && 0 <= h < |items| && items[h].message.Assistant? && 0 <= q < |items[h].message.calls| && h + 1 + q < |items|
    && c.body.Call? && r.body.Result?
    && GoesBy(c, items[h].message.calls[q].id) && items[h].message.calls[q].content == c.body.content && RawSource(c.num) in items[h].sources
    && items[h + 1 + q].message == Tool(items[h].message.calls[q].id, r.body.content) && items[h + 1 + q].sources == [RawSource(r.num)]
  }

  ghost predicate HasReply(items: seq<Item>, c: Record, r: Record) { exists h, q :: RepliesAt(items, h, q, c, r) }

  ghost predicate HasMissing(items: seq<Item>, c: Record) {
    exists h :: 0 <= h < |items| && items[h].message == MissingResult(c.num, ContentOf(c)) && items[h].sources == [RawSource(c.num)]
  }

  ghost predicate HasOrphan(items: seq<Item>, r: Record) {
    exists h :: 0 <= h < |items| && items[h].message == OrphanResult(r.num, ContentOf(r)) && items[h].sources == [RawSource(r.num)]
  }

  lemma {:induction false} ReplyAppends(a: seq<Item>, b: seq<Item>, c: Record, r: Record)
    ensures HasReply(a, c, r) || HasReply(b, c, r) ==> HasReply(a + b, c, r)
  {
    if HasReply(a, c, r) {
      var h, q :| RepliesAt(a, h, q, c, r);
      assert RepliesAt(a + b, h, q, c, r);
    }
    if HasReply(b, c, r) {
      var h, q :| RepliesAt(b, h, q, c, r);
      assert (a + b)[|a| + h] == b[h] && (a + b)[|a| + h + 1 + q] == b[h + 1 + q];
      assert RepliesAt(a + b, |a| + h, q, c, r);
    }
  }

  lemma {:induction false} MissingAppends(a: seq<Item>, b: seq<Item>, c: Record)
    ensures HasMissing(a, c) || HasMissing(b, c) ==> HasMissing(a + b, c)
    ensures HasOrphan(a, c) || HasOrphan(b, c) ==> HasOrphan(a + b, c)
  {
    var all := a + b;
    assert forall h :: 0 <= h < |a| ==> all[h] == a[h];
    assert forall h :: 0 <= h < |b| ==> all[|a| + h] == b[h];
    if HasMissing(b, c) {
      var h :| 0 <= h < |b| && b[h].message == MissingResult(c.num, ContentOf(c)) && b[h].sources == [RawSource(c.num)];
      assert all[|a| + h] == b[h];
    }
    if HasOrphan(b, c) {
      var h :| 0 <= h < |b| && b[h].message == OrphanResult(c.num, ContentOf(c)) && b[h].sources == [RawSource(c.num)];
      assert all[|a| + h] == b[h];
    }
  }

  lemma {:induction false} PairedSlot(calls: seq<Pairing>, k: nat) returns (q: nat)
    requires k < |calls| && calls[k].result.Some?
    ensures q < |Render.Answered(calls)| && Render.Answered(calls)[q] == calls[k]
  {
    if k == |calls| - 1 { return |Render.Answered(calls)| - 1; }
    q := PairedSlot(calls[..|calls| - 1], k);
  }

  lemma {:induction false} MissingSlot(calls: seq<Pairing>, k: nat) returns (q: nat)
    requires k < |calls| && calls[k].result.None?
    ensures q < |Unanswered(calls)| && Unanswered(calls)[q] == calls[k]
  {
    if k == |calls| - 1 { return |Unanswered(calls)| - 1; }
    q := MissingSlot(calls[..|calls| - 1], k);
  }

  lemma {:induction false} UnansweredAre(calls: seq<Pairing>)
    ensures forall q :: 0 <= q < |Unanswered(calls)| ==> Unanswered(calls)[q] in calls && Unanswered(calls)[q].result.None?
  {
    if calls != [] { UnansweredAre(calls[..|calls| - 1]); }
  }

  lemma {:induction false} FlushReplies(g: Group, k: nat)
    requires k < |g.calls| && g.calls[k].result.Some? && g.calls[k].call.body.Call? && g.calls[k].result.value.body.Result?
    ensures HasReply(Flush(Some(g)), g.calls[k].call, g.calls[k].result.value)
  {
    var paired := Render.Answered(g.calls);
    var q := PairedSlot(g.calls, k);
    hide Render.Answered, Unanswered;
    var head, results := Head(g), Results(g.num, paired);
    var items := Flush(Some(g));
    assert items[0] == head[0] && |head| == 1 && items[1 + q] == results[q];
    var own := if g.text.Some? then 1 else 0;
    assert head[0].sources[own + q] == RawSource(g.calls[k].call.num);
    assert RepliesAt(items, 0, q, g.calls[k].call, g.calls[k].result.value);
  }

  lemma {:induction false} FlushMisses(g: Group, k: nat)
    requires k < |g.calls| && g.calls[k].result.None?
    ensures HasMissing(Flush(Some(g)), g.calls[k].call)
  {
    var q := MissingSlot(g.calls, k);
    hide Render.Answered, Unanswered;
    var front := Head(g) + Results(g.num, Render.Answered(g.calls));
    var items := Flush(Some(g));
    assert items[|front| + q] == Missing(g.num, Unanswered(g.calls))[q];
  }

  /** Items put aside while a call waits are neither missing nor orphaned results. */
  ghost predicate QuietAside(items: seq<Item>) {
    forall h :: 0 <= h < |items| ==> !items[h].message.MissingResult? && !items[h].message.OrphanResult?
  }

  lemma {:induction false} HeadIsQuiet(g: Group)
    ensures QuietAside(Head(g))
  {
    hide Render.Answered;
  }

  /** Every missing result in a flush is of a call of the group without a result. */
  lemma {:induction false} FlushMissingAre(g: Group, h: nat)
    requires QuietAside(g.after) && h < |Flush(Some(g))|
    ensures !Flush(Some(g))[h].message.OrphanResult?
    ensures Flush(Some(g))[h].message.MissingResult? ==>
              exists k :: 0 <= k < |g.calls| && g.calls[k].result.None? && g.calls[k].call.num == Flush(Some(g))[h].message.num
  {
    UnansweredAre(g.calls);
    HeadIsQuiet(g);
    hide Render.Answered, Unanswered, Head;
    var open := Unanswered(g.calls);
    var front := Head(g) + Results(g.num, Render.Answered(g.calls));
    var missing := Missing(g.num, open);
    var items := Flush(Some(g));
    if |front| <= h < |front| + |missing| {
      var q := h - |front|;
      assert items[h] == missing[q] && open[q] in g.calls;
    } else if h >= |front| + |missing| {
      assert items[h] == g.after[h - |front| - |missing|];
    } else {
      assert items[h] == front[h];
    }
  }

  // ------------------------------------------------------------- every record told

  ghost predicate Repliers(records: seq<Record>, n: nat, start: nat, items: seq<Item>)
    requires n <= |records|
  {
    forall i, m :: 0 <= i < start && 0 <= m < n && Answers(records, m, i) ==> HasReply(items, records[i], records[m])
  }

  ghost predicate Missers(records: seq<Record>, n: nat, start: nat, items: seq<Item>)
    requires start <= n <= |records|
  {
    && (forall i :: 0 <= i < start && records[i].body.Call? && !HasAnswer(records, n, i) ==> HasMissing(items, records[i]))
    && (forall h :: 0 <= h < |items| && items[h].message.MissingResult? ==> LackedBy(records, n, start, items[h].message.num))
  }

  /** Some call before `start` without an answer has this number. */
  ghost predicate LackedBy(records: seq<Record>, n: nat, start: nat, num: int)
    requires start <= n <= |records|
  {
    exists i :: 0 <= i < start && records[i].body.Call? && !HasAnswer(records, n, i) && records[i].num == num
  }

  ghost predicate Orphans(records: seq<Record>, n: nat, items: seq<Item>)
    requires n <= |records|
  {
    && (forall m :: 0 <= m < n && records[m].body.Result? && !Used(records, m) ==> HasOrphan(items, records[m]))
    && (forall h :: 0 <= h < |items| && items[h].message.OrphanResult? ==> UnusedBy(records, n, items[h].message.num))
  }

  ghost predicate UnusedBy(records: seq<Record>, n: nat, num: int)
    requires n <= |records|
  {
    exists m :: 0 <= m < n && records[m].body.Result? && !Used(records, m) && records[m].num == num
  }

  /** The items tell every call before `start` and every result before `n`. */
  ghost predicate Told(records: seq<Record>, n: nat, start: nat, items: seq<Item>)
    requires start <= n <= |records|
  {
    Repliers(records, n, start, items) && Missers(records, n, start, items) && Orphans(records, n, items)
  }

  lemma {:induction false} NoteTold(records: seq<Record>, n: nat, start: nat, items: seq<Item>, more: seq<Item>)
    requires start <= n <= |records| && Told(records, n, start, items) && QuietAside(more)
    ensures Told(records, n, start, items + more)
  {
    hide HasReply, HasMissing, HasOrphan, LackedBy, UnusedBy;
    forall c, r ensures HasReply(items, c, r) ==> HasReply(items + more, c, r) { ReplyAppends(items, more, c, r); }
    forall c ensures (HasMissing(items, c) ==> HasMissing(items + more, c)) && (HasOrphan(items, c) ==> HasOrphan(items + more, c)) {
      MissingAppends(items, more, c);
    }
    var all := items + more;
    forall h | 0 <= h < |all| ensures all[h] == if h < |items| then items[h] else more[h - |items|] {}
  }

  /** Flushing the open round tells its calls. */
  lemma {:induction false} FlushTold(records: seq<Record>, n: nat, items: seq<Item>, g: Option<Group>)
    requires n <= |records| && Told(records, n, RoundStart(records, n), items) && Corresponds(records, n, g)
    requires g.Some? ==> QuietAside(g.value.after)
    ensures Told(records, n, n, items + Flush(g))
  {
    var start, all := RoundStart(records, n), items + Flush(g);
    if g.None? {
      assert all == items;
      return;
    }
    FlushRepliers(records, n, items, g.value);
    FlushMissers(records, n, items, g.value);
    FlushOrphans(records, n, items, g.value);
  }

  lemma {:induction false} FlushRepliers(records: seq<Record>, n: nat, items: seq<Item>, g: Group)
    requires n <= |records| && Repliers(records, n, RoundStart(records, n), items) && Corresponds(records, n, Some(g))
    ensures Repliers(records, n, n, items + Flush(Some(g)))
  {
    hide HasReply, Flush;
    var start := RoundStart(records, n);
    var ps := CallsIn(records, start, n);
    CallsInAre(records, start, n);
    forall i, m | 0 <= i < n && 0 <= m < n && Answers(records, m, i) ensures HasReply(items + Flush(Some(g)), records[i], records[m]) {
      ReplyAppends(items, Flush(Some(g)), records[i], records[m]);
      if i >= start {
        assert i in ps;
        var k :| 0 <= k < |ps| && ps[k] == i;
        assert HasAnswer(records, n, i);
        NoneIffUnanswered(records, n, i, g.calls[k].result);
        var m' :| i < m' < n && Answers(records, m', i) && records[m'] == g.calls[k].result.value;
        OneAnswer(records, m, m', i);
        FlushReplies(g, k);
      }
    }
  }

  lemma {:induction false} FlushMissers(records: seq<Record>, n: nat, items: seq<Item>, g: Group)
    requires n <= |records| && Missers(records, n, RoundStart(records, n), items) && Corresponds(records, n, Some(g)) && QuietAside(g.after)
    ensures Missers(records, n, n, items + Flush(Some(g)))
  {
    hide HasMissing, Flush;
    var start, all := RoundStart(records, n), items + Flush(Some(g));
    var ps := CallsIn(records, start, n);
    CallsInAre(records, start, n);
    forall i | 0 <= i < n && records[i].body.Call? && !HasAnswer(records, n, i) ensures HasMissing(all, records[i]) {
      MissingAppends(items, Flush(Some(g)), records[i]);
      if i >= start {
        assert i in ps;
        var k :| 0 <= k < |ps| && ps[k] == i;
        NoneIffUnanswered(records, n, i, g.calls[k].result);
        FlushMisses(g, k);
      }
    }
    forall h | 0 <= h < |all| && all[h].message.MissingResult? ensures LackedBy(records, n, n, all[h].message.num) {
      if h < |items| {
        assert LackedBy(records, n, start, items[h].message.num);
      } else {
        FlushMissingAre(g, h - |items|);
        var k :| 0 <= k < |g.calls| && g.calls[k].result.None? && g.calls[k].call.num == all[h].message.num;
        NoneIffUnanswered(records, n, ps[k], g.calls[k].result);
        assert records[ps[k]].num == all[h].message.num;
      }
    }
  }

  lemma {:induction false} FlushOrphans(records: seq<Record>, n: nat, items: seq<Item>, g: Group)
    requires n <= |records| && Orphans(records, n, items) && QuietAside(g.after)
    ensures Orphans(records, n, items + Flush(Some(g)))
  {
    hide HasOrphan, Flush, UnusedBy;
    var all := items + Flush(Some(g));
    forall r ensures HasOrphan(items, r) ==> HasOrphan(all, r) { MissingAppends(items, Flush(Some(g)), r); }
    forall h | 0 <= h < |all| && all[h].message.OrphanResult? ensures UnusedBy(records, n, all[h].message.num) {
      if h >= |items| { FlushMissingAre(g, h - |items|); }
    }
  }

  /** A record that answers no call before `start`, and is no unused result, leaves
      what is told as it is. */
  lemma {:induction false} NextTold(records: seq<Record>, n: nat, start: nat, items: seq<Item>)
    requires start <= n < |records| && Told(records, n, start, items)
    requires forall i: nat :: i < start ==> !Answers(records, n, i)
    requires records[n].body.Result? ==> Used(records, n)
    ensures Told(records, n + 1, start, items)
  {
    hide HasReply, HasMissing, HasOrphan;
    forall i: nat | i < start ensures HasAnswer(records, n + 1, i) <==> HasAnswer(records, n, i) { AnswerNext(records, n, i); }
    forall num ensures LackedBy(records, n, start, num) ==> LackedBy(records, n + 1, start, num) {
      if LackedBy(records, n, start, num) {
        var i :| 0 <= i < start && records[i].body.Call? && !HasAnswer(records, n, i) && records[i].num == num;
        assert !HasAnswer(records, n + 1, i);
      }
    }
    forall num ensures UnusedBy(records, n, num) ==> UnusedBy(records, n + 1, num) {
      if UnusedBy(records, n, num) {
        var m :| 0 <= m < n && records[m].body.Result? && !Used(records, m) && records[m].num == num;
        assert m < n + 1;
      }
    }
    hide LackedBy, UnusedBy;
    assert Repliers(records, n + 1, start, items) by {
      forall i, m | 0 <= i < start && 0 <= m < n + 1 && Answers(records, m, i) ensures HasReply(items, records[i], records[m]) {
        assert m < n;
      }
    }
    hide Answers;
  }

  lemma {:induction false} AnswerNext(records: seq<Record>, n: nat, i: nat)
    requires n < |records|
    ensures HasAnswer(records, n + 1, i) <==> HasAnswer(records, n, i) || Answers(records, n, i)
  {
    if HasAnswer(records, n, i) {
      var m :| i < m < n && Answers(records, m, i);
      assert HasAnswer(records, n + 1, i);
    }
    if Answers(records, n, i) { assert HasAnswer(records, n + 1, i); }
  }

  lemma {:induction false} WidenTold(records: seq<Record>, n: nat, items: seq<Item>)
    requires n < |records| && !records[n].body.Call? && Told(records, n + 1, n, items)
    ensures Told(records, n + 1, n + 1, items)
  {
    hide HasReply, HasMissing, HasOrphan, UnusedBy;
    forall h | 0 <= h < |items| && items[h].message.MissingResult? ensures LackedBy(records, n + 1, n + 1, items[h].message.num) {
      assert LackedBy(records, n + 1, n, items[h].message.num);
    }
    assert forall m :: 0 <= m < n + 1 ==> !Answers(records, m, n);
    assert Repliers(records, n + 1, n + 1, items);
  }

  /** A result that answers no call is told as an orphan. */
  lemma {:induction false} OrphanTold(records: seq<Record>, n: nat, items: seq<Item>)
    requires n < |records| && records[n].body.Result? && !Used(records, n) && Told(records, n, n, items)
    ensures Told(records, n + 1, n + 1, items + [Item(records[n].num, OrphanResult(records[n].num, ContentOf(records[n])), [RawSource(records[n].num)])])
  {
    var x := Item(records[n].num, OrphanResult(records[n].num, ContentOf(records[n])), [RawSource(records[n].num)]);
    var all := items + [x];
    assert all[|items|] == x;
    assert HasOrphan(all, records[n]) && UnusedBy(records, n + 1, records[n].num);
    assert forall i: nat :: !Answers(records, n, i);
    OrphanRepliers(records, n, items, x);
    OrphanMissers(records, n, items, x);
    hide HasReply, HasMissing, HasOrphan, LackedBy;
    forall r ensures HasOrphan(items, r) ==> HasOrphan(all, r) { MissingAppends(items, [x], r); }
    forall num ensures UnusedBy(records, n, num) ==> UnusedBy(records, n + 1, num) {}
    hide UnusedBy;
    assert forall h :: 0 <= h < |items| ==> all[h] == items[h];
  }

  lemma {:induction false} OrphanRepliers(records: seq<Record>, n: nat, items: seq<Item>, x: Item)
    requires n < |records| && Repliers(records, n, n, items) && !records[n].body.Call? && forall i: nat :: !Answers(records, n, i)
    ensures Repliers(records, n + 1, n + 1, items + [x])
  {
    hide HasReply;
    forall i, m | 0 <= i < n + 1 && 0 <= m < n + 1 && Answers(records, m, i) ensures HasReply(items + [x], records[i], records[m]) {
      assert i < n && m < n;
      ReplyAppends(items, [x], records[i], records[m]);
    }
  }

  lemma {:induction false} OrphanMissers(records: seq<Record>, n: nat, items: seq<Item>, x: Item)
    requires n < |records| && Missers(records, n, n, items) && !records[n].body.Call? && forall i: nat :: !Answers(records, n, i)
    requires !x.message.MissingResult?
    ensures Missers(records, n + 1, n + 1, items + [x])
  {
    hide HasMissing;
    forall i: nat | i < n ensures HasAnswer(records, n + 1, i) <==> HasAnswer(records, n, i) { AnswerNext(records, n, i); }
    forall i | 0 <= i < n + 1 && records[i].body.Call? && !HasAnswer(records, n + 1, i) ensures HasMissing(items + [x], records[i]) {
      MissingAppends(items, [x], records[i]);
    }
    forall num ensures LackedBy(records, n, n, num) ==> LackedBy(records, n + 1, n + 1, num) {
      if LackedBy(records, n, n, num) {
        var i :| 0 <= i < n && records[i].body.Call? && !HasAnswer(records, n, i) && records[i].num == num;
        assert !HasAnswer(records, n + 1, i);
      }
    }
    hide LackedBy;
    assert forall h :: 0 <= h < |items| ==> (items + [x])[h] == items[h];
  }

  ghost predicate StateTold(records: seq<Record>, n: nat, st: Rendering)
    requires n <= |records|
  {
    && Corresponds(records, n, st.group) && Told(records, n, RoundStart(records, n), st.out)
    && (st.group.Some? ==> QuietAside(st.group.value.after))
  }

  lemma {:induction false} OpenTold(records: seq<Record>, n: nat, st: Rendering)
    requires n < |records| && StateTold(records, n, st) && RoundStart(records, n + 1) == n && !records[n].body.Result?
    ensures Told(records, n + 1, n, st.out + Flush(st.group))
  {
    FlushTold(records, n, st.out, st.group);
    NextTold(records, n, n, st.out + Flush(st.group));
  }

  lemma {:induction false} StayTold(records: seq<Record>, n: nat, st: Rendering)
    requires n < |records| && StateTold(records, n, st) && RoundStart(records, n + 1) == RoundStart(records, n)
    requires records[n].body.Result? ==> Used(records, n)
    ensures Told(records, n + 1, RoundStart(records, n + 1), st.out)
  {
    NextTold(records, n, RoundStart(records, n), st.out);
  }

  lemma {:induction false} CloseTold(records: seq<Record>, n: nat, st: Rendering)
    requires n < |records| && StateTold(records, n, st) && records[n].body.Plain?
    ensures Told(records, n + 1, n + 1, st.out + Flush(st.group))
  {
    FlushTold(records, n, st.out, st.group);
    NextTold(records, n, n, st.out + Flush(st.group));
    WidenTold(records, n, st.out + Flush(st.group));
  }

  lemma {:induction false} FeedTold(records: seq<Record>, n: nat, st: Rendering)
    requires n < |records| && StateTold(records, n, st)
    ensures StateTold(records, n + 1, Feed(st, records[n]))
  {
    var r := records[n];
    match r.body {
      case Text(_, _) =>
        TextCorresponds(records, n, st);
        OpenTold(records, n, st);
      case Call(_, _, _, _) =>
        CallCorresponds(records, n, st);
        if SameRound(st.group, r) { StayTold(records, n, st); } else { OpenTold(records, n, st); }
      case Result(_, _, _) => ResultTold(records, n, st);
      case Plain(_) => PlainTold(records, n, st);
    }
  }

  lemma {:induction false} ResultTold(records: seq<Record>, n: nat, st: Rendering)
    requires n < |records| && StateTold(records, n, st) && records[n].body.Result?
    ensures StateTold(records, n + 1, Feed(st, records[n]))
  {
    ResultCorresponds(records, n, st);
    hide Told;
    if st.group.Some? && FindCall(st.group.value.calls, records[n], 0).Some? {
      FoundAnswers(records, n, st.group.value);
      assert Used(records, n);
      StayTold(records, n, st);
      return;
    }
    if st.group.Some? { FoundAnswers(records, n, st.group.value); } else { NothingAnswered(records, n); }
    assert !Used(records, n);
    FlushTold(records, n, st.out, st.group);
    OrphanTold(records, n, st.out + Flush(st.group));
  }

  lemma {:induction false} PlainTold(records: seq<Record>, n: nat, st: Rendering)
    requires n < |records| && StateTold(records, n, st) && records[n].body.Plain?
    ensures StateTold(records, n + 1, Feed(st, records[n]))
  {
    PlainCorresponds(records, n, st);
    WaitingLacks(records, n, st.group);
    hide Told, Flush, Corresponds;
    if Waiting(st.group) { StayTold(records, n, st); } else { PlainCloses(records, n, st); }
  }

  lemma {:induction false} PlainCloses(records: seq<Record>, n: nat, st: Rendering)
    requires n < |records| && StateTold(records, n, st) && records[n].body.Plain? && !Waiting(st.group)
    ensures Told(records, n + 1, n + 1, Feed(st, records[n]).out)
  {
    hide Told, Flush, Corresponds;
    CloseTold(records, n, st);
    var shown := records[n].body.shown;
    var items := if shown.Some? then [Item(records[n].num, Standalone(shown.value), [RawSource(records[n].num)])] else [];
    NoteTold(records, n + 1, n + 1, st.out + Flush(st.group), items);
  }

  lemma {:induction false} AllTold(records: seq<Record>, n: nat)
    requires n <= |records|
    ensures StateTold(records, n, FeedAll(records[..n]))
  {
    if n == 0 { return; }
    assert records[..n][..n - 1] == records[..n - 1];
    AllTold(records, n - 1);
    hide StateTold, Feed;
    FeedTold(records, n - 1, FeedAll(records[..n - 1]));
  }

  lemma {:induction false} RenderedTold(records: seq<Record>)
    ensures Told(records, |records|, |records|, Rendered(records))
  {
    AllTold(records, |records|);
    assert records[..|records|] == records;
    hide FeedAll, Told;
    FlushTold(records, |records|, FeedAll(records).out, FeedAll(records).group);
  }

  /** A result that answers a call is rendered as the tool message in that call's
      reply slot, under the call's recorded id. */
  lemma {:induction false} AnswerIsReply(records: seq<Record>, m: nat, i: nat)
    requires m < |records| && Answers(records, m, i)
    ensures HasReply(Rendered(records), records[i], records[m])
  {
    hide Rendered, HasReply;
    RenderedTold(records);
  }

  /** A call is told as having no result exactly when no record answers it. */
  lemma {:induction false} MissingIffUnanswered(records: seq<Record>, i: nat)
    requires A.Distinct(records) && i < |records| && records[i].body.Call?
    ensures HasMissing(Rendered(records), records[i]) <==> !HasAnswer(records, |records|, i)
  {
    hide Rendered;
    RenderedTold(records);
    if HasMissing(Rendered(records), records[i]) {
      var h :| 0 <= h < |Rendered(records)| && Rendered(records)[h].message == MissingResult(records[i].num, ContentOf(records[i]));
      assert LackedBy(records, |records|, |records|, records[i].num);
      var k :| 0 <= k < |records| && records[k].body.Call? && !HasAnswer(records, |records|, k) && records[k].num == records[i].num;
      assert k == i;
    }
  }

  /** A result is told as an orphan exactly when it answers no call. */
  lemma {:induction false} OrphanIffUnused(records: seq<Record>, m: nat)
    requires A.Distinct(records) && m < |records| && records[m].body.Result?
    ensures HasOrphan(Rendered(records), records[m]) <==> !Used(records, m)
  {
    hide Rendered;
    RenderedTold(records);
    if HasOrphan(Rendered(records), records[m]) {
      var h :| 0 <= h < |Rendered(records)| && Rendered(records)[h].message == OrphanResult(records[m].num, ContentOf(records[m]));
      assert UnusedBy(records, |records|, records[m].num);
      var k :| 0 <= k < |records| && records[k].body.Result? && !Used(records, k) && records[k].num == records[m].num;
      assert k == m;
    }
  }

  /** A result right after a call that it names, the first of its round, answers it. */
  lemma {:induction false} NextAnswers(records: seq<Record>, i: nat)
    requires i + 1 < |records| && Names(records[i], records[i + 1])
    requires i == 0 || !SameUnit(records[RoundStart(records, i)], records[i]) || RoundStart(records, i) == i
    ensures Answers(records, i + 1, i)
  {
    assert RoundStart(records, i + 1) == i;
  }
}
