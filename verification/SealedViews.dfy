/** Sealing and rendering together: the boundaries at which the journal is cut into
    chunks are boundaries between messages too, so the view a memory renders to can
    always be branched for a chunk that is still raw. */
module SealedViews {
  import opened Common
  import opened Render
  import opened Snapshot
  import A = Attribution
  import S = Sealing
  import L = Layers
  import V = MemoryView

  // ------------------------------------------------------- messages of one round

  /** The record opens or continues this round. */
  predicate OfRound(r: Record, turn: TurnId, round: Option<int>) {
    r.turn == turn && (r.body.Text? || r.body.Call?) && r.body.round == round
  }

  ghost predicate FromRound(s: Source, records: seq<Record>, turn: TurnId, round: Option<int>) {
    exists i :: 0 <= i < |records| && records[i].num == s.first && OfRound(records[i], turn, round)
  }

  ghost predicate AllFrom(ss: seq<Source>, records: seq<Record>, turn: TurnId, round: Option<int>) {
    forall k :: 0 <= k < |ss| ==> FromRound(ss[k], records, turn, round)
  }

  predicate CallIn(records: seq<Record>, turn: TurnId, round: Option<int>) {
    exists i :: 0 <= i < |records| && records[i].body.Call? && OfRound(records[i], turn, round)
  }

  /** A message that stands for several records stands for records of one round, a
      call among them. */
  ghost predicate OneRound(x: Item, records: seq<Record>) {
    |x.sources| <= 1 || exists turn, round :: AllFrom(x.sources, records, turn, round) && CallIn(records, turn, round)
  }

  ghost predicate AllOne(items: seq<Item>, records: seq<Record>) {
    forall i :: 0 <= i < |items| ==> OneRound(items[i], records)
  }

  ghost predicate GroupOne(g: Group, records: seq<Record>) {
    && (g.text.Some? ==> FromRound(RawSource(g.num), records, g.turn, g.round))
    && (forall k :: 0 <= k < |g.calls| ==>
          g.calls[k].call in records && g.calls[k].call.body.Call? && OfRound(g.calls[k].call, g.turn, g.round))
    && AllOne(g.after, records)
  }

  lemma {:induction false} AnsweredIn(calls: seq<Pairing>)
    ensures forall k :: 0 <= k < |Answered(calls)| ==> Answered(calls)[k] in calls
  {
    if calls != [] { AnsweredIn(calls[..|calls| - 1]); }
  }

  lemma HeadOne(g: Group, records: seq<Record>)
    requires GroupOne(g, records)
    ensures AllOne(Head(g), records)
  {
    var paired := Answered(g.calls);
    AnsweredIn(g.calls);
    if Head(g) == [] || |Head(g)[0].sources| <= 1 { return; }
    var sources := Head(g)[0].sources;
    forall k | 0 <= k < |sources| ensures FromRound(sources[k], records, g.turn, g.round) {
      var own := if g.text.Some? then 1 else 0;
      if k >= own {
        assert paired[k - own] in g.calls;
        CallFrom(g, paired[k - own], records);
        assert sources[k] == RawSource(paired[k - own].call.num);
      }
    }
    assert paired != [] && paired[0] in g.calls;
    CallFrom(g, paired[0], records);
    assert AllFrom(sources, records, g.turn, g.round);
  }

  lemma CallFrom(g: Group, p: Pairing, records: seq<Record>)
    requires GroupOne(g, records) && p in g.calls
    ensures FromRound(RawSource(p.call.num), records, g.turn, g.round) && CallIn(records, g.turn, g.round)
  {
    var k :| 0 <= k < |g.calls| && g.calls[k] == p;
    var i :| 0 <= i < |records| && records[i] == p.call;
  }

  lemma FlushOne(g: Option<Group>, records: seq<Record>)
    requires g.Some? ==> GroupOne(g.value, records)
    ensures AllOne(Flush(g), records)
  {
    if g.None? { return; }
    hide Head, Answered, Unanswered, OneRound;
    HeadOne(g.value, records);
    SingleOne(Results(g.value.num, Answered(g.value.calls)), records);
    SingleOne(Missing(g.value.num, Unanswered(g.value.calls)), records);
  }

  lemma SingleOne(items: seq<Item>, records: seq<Record>)
    requires forall i :: 0 <= i < |items| ==> |items[i].sources| <= 1
    ensures AllOne(items, records)
  {
  }

  ghost predicate FedOne(st: Rendering, records: seq<Record>) {
    AllOne(st.out, records) && (st.group.Some? ==> GroupOne(st.group.value, records))
  }

  lemma MoreOne(items: seq<Item>, records: seq<Record>, r: Record)
    requires AllOne(items, records)
    ensures AllOne(items, records + [r])
  {
    forall i | 0 <= i < |items| && |items[i].sources| > 1 ensures OneRound(items[i], records + [r]) {
      assert OneRound(items[i], records);
      var turn, round :| AllFrom(items[i].sources, records, turn, round) && CallIn(records, turn, round);
      forall k | 0 <= k < |items[i].sources| ensures FromRound(items[i].sources[k], records + [r], turn, round) {
        MoreFrom(items[i].sources[k], records, r, turn, round);
      }
      var c :| 0 <= c < |records| && records[c].body.Call? && OfRound(records[c], turn, round);
      assert (records + [r])[c] == records[c];
      assert AllFrom(items[i].sources, records + [r], turn, round) && CallIn(records + [r], turn, round);
    }
  }

  lemma MoreFrom(s: Source, records: seq<Record>, r: Record, turn: TurnId, round: Option<int>)
    requires FromRound(s, records, turn, round)
    ensures FromRound(s, records + [r], turn, round)
  {
    var i :| 0 <= i < |records| && records[i].num == s.first && OfRound(records[i], turn, round);
    assert (records + [r])[i] == records[i];
  }

  lemma MoreFed(st: Rendering, records: seq<Record>, r: Record)
    requires FedOne(st, records)
    ensures FedOne(st, records + [r])
  {
    MoreOne(st.out, records, r);
    if st.group.None? { return; }
    var g := st.group.value;
    MoreOne(g.after, records, r);
    if g.text.Some? { MoreFrom(RawSource(g.num), records, r, g.turn, g.round); }
  }

  lemma FeedOne(st: Rendering, records: seq<Record>, r: Record)
    requires FedOne(st, records)
    ensures FedOne(Feed(st, r), records + [r])
  {
    hide OneRound, Flush;
    MoreFed(st, records, r);
    FlushOne(st.group, records + [r]);
    assert (records + [r])[|records|] == r;
    match r.body {
      case Text(round, _) => assert OfRound(r, r.turn, round);
      case Call(round, _, _, _) => assert OfRound(r, r.turn, round);
      case Result(_, _, content) => SingleOne([Item(r.num, OrphanResult(r.num, content), [RawSource(r.num)])], records + [r]);
      case Plain(shown) => if shown.Some? { SingleOne([Item(r.num, Standalone(shown.value), [RawSource(r.num)])], records + [r]); }
    }
  }

  lemma NothingFed()
    ensures FedOne(FeedAll([]), [])
  {
  }

  lemma FeedSnoc(records: seq<Record>, r: Record)
    ensures FeedAll(records + [r]) == Feed(FeedAll(records), r)
  {
    hide Feed;
    assert (records + [r])[..|records|] == records;
  }

  lemma {:induction false} FeedAllOne(records: seq<Record>)
    ensures FedOne(FeedAll(records), records)
  {
    hide FedOne, Feed, FeedAll;
    if records == [] {
      NothingFed();
      return;
    }
    var init, r := records[..|records| - 1], records[|records| - 1];
    assert records == init + [r];
    FeedAllOne(init);
    FeedOne(FeedAll(init), init, r);
    FeedSnoc(init, r);
  }

  /** Every message of the rendered journal stands for one record, or for records
      of one round. */
  lemma RenderedOne(records: seq<Record>)
    ensures AllOne(Rendered(records), records)
  {
    hide OneRound, Flush, FeedAll;
    FeedAllOne(records);
    FlushOne(FeedAll(records).group, records);
  }

  // ---------------------------------------------------- records and their entries

  /** The record is the journal entry of its number. */
  predicate Recorded(log: seq<S.Entry>, r: Record) {
    && 1 <= r.num <= |log| && log[r.num - 1].turn == r.turn
    && match r.body
       case Text(round, _) => log[r.num - 1].kind == S.AssistantMessage && log[r.num - 1].round == round
       case Call(round, _, _, _) => log[r.num - 1].kind == S.ToolCall && log[r.num - 1].round == round
       case Result(_, _, _) => log[r.num - 1].kind == S.ToolResult
       case Plain(_) => log[r.num - 1].kind == S.InputReceived || log[r.num - 1].kind == S.Other
  }

  ghost predicate AllRecorded(log: seq<S.Entry>, records: seq<Record>) {
    forall i :: 0 <= i < |records| ==> Recorded(log, records[i])
  }

  /** Every call carries its round. */
  ghost predicate CallsHaveRounds(records: seq<Record>) {
    forall i :: 0 <= i < |records| && records[i].body.Call? ==> records[i].body.round.Some?
  }

  lemma KeyOfRound(log: seq<S.Entry>, records: seq<Record>, s: Source, turn: TurnId, round: int)
    requires AllRecorded(log, records) && FromRound(s, records, turn, Some(round))
    ensures 1 <= s.first <= |log| && S.KeyOf(log[s.first - 1]) == Some(S.RoundKey(turn, round))
  {
  }

  /** Where no round has records on both sides, no message has. */
  lemma WholeIsUncrossed(log: seq<S.Entry>, records: seq<Record>, x: Item, first: int, last: int)
    requires AllRecorded(log, records) && CallsHaveRounds(records) && OneRound(x, records)
    requires forall k :: 0 <= k < |x.sources| ==> x.sources[k].first == x.sources[k].last
    requires 1 <= first <= last <= |log| && S.RoundWhole(log, first - 1) && S.RoundWhole(log, last)
    ensures !Crosses(x, first, last)
  {
    if |x.sources| <= 1 { return; }
    var turn, round :| AllFrom(x.sources, records, turn, round) && CallIn(records, turn, round);
    var c :| 0 <= c < |records| && records[c].body.Call? && OfRound(records[c], turn, round);
    assert round.Some?;
    hide CallsHaveRounds, CallIn, OfRound, FromRound, AllRecorded, S.RoundWhole, S.KeyOf, OneRound;
    forall k, h | 0 <= k < |x.sources| && 0 <= h < |x.sources| && Within(x.sources[k], first, last)
      ensures Within(x.sources[h], first, last)
    {
      assert FromRound(x.sources[k], records, turn, round) && FromRound(x.sources[h], records, turn, round);
      KeyOfRound(log, records, x.sources[k], turn, round.value);
      KeyOfRound(log, records, x.sources[h], turn, round.value);
      SameSide(log, first - 1, x.sources[h].first - 1, x.sources[k].first - 1);
      SameSide(log, last, x.sources[k].first - 1, x.sources[h].first - 1);
    }
  }

  lemma SameSide(log: seq<S.Entry>, b: nat, i: nat, j: nat)
    requires S.RoundWhole(log, b) && i < |log| && j < |log|
    requires S.KeyOf(log[i]).Some? && S.KeyOf(log[i]) == S.KeyOf(log[j])
    ensures !(i < b <= j)
  {
  }

  // --------------------------------------------------- boundaries over every run

  /** No round has records on both sides of a sealed boundary. */
  ghost predicate AllWhole(log: seq<S.Entry>, chunks: seq<L.Chunk>) {
    forall i :: 0 <= i < |chunks| && chunks[i].layer == 1 ==> 0 <= chunks[i].last && S.RoundWhole(log, chunks[i].last)
  }

  /** The entries belong to no round that has a sealed record. */
  ghost predicate Onward(m: L.Memory, entries: seq<S.Entry>) {
    forall e, i :: 0 <= e < |entries| && 0 <= i < L.Covered(m.chunks) && i < |m.log| && S.KeyOf(entries[e]).Some? ==>
      S.KeyOf(m.log[i]) != S.KeyOf(entries[e])
  }

  lemma AppendWhole(log: seq<S.Entry>, entries: seq<S.Entry>, b: nat)
    requires S.RoundWhole(log, b) && b <= |log|
    requires forall e, i :: 0 <= e < |entries| && 0 <= i < b && S.KeyOf(entries[e]).Some? ==> S.KeyOf(log[i]) != S.KeyOf(entries[e])
    ensures S.RoundWhole(log + entries, b)
  {
    hide S.KeyOf;
    var all := log + entries;
    forall i, j | 0 <= i < b <= j < |all| && S.KeyOf(all[i]).Some? ensures S.KeyOf(all[i]) != S.KeyOf(all[j]) {
      assert all[i] == log[i];
      if j < |log| { assert all[j] == log[j]; } else { assert all[j] == entries[j - |log|]; }
    }
  }

  lemma WriteWhole(m: L.Memory, entries: seq<S.Entry>)
    requires L.Inv(m) && AllWhole(m.log, m.chunks) && Onward(m, entries)
    ensures AllWhole(m.log + entries, m.chunks)
  {
    hide L.Representing, L.NoGap, L.AllSourced, L.RawDisjoint, L.Shrinks, L.Ordered, L.Covered, S.RoundWhole, S.KeyOf;
    forall c | 0 <= c < |m.chunks| && m.chunks[c].layer == 1
      ensures 0 <= m.chunks[c].last && S.RoundWhole(m.log + entries, m.chunks[c].last)
    {
      assert m.chunks[c].last <= L.Covered(m.chunks);
      AppendWhole(m.log, entries, m.chunks[c].last);
    }
  }

  /** The end of what is covered is a sealed boundary. */
  lemma CoveredIsWhole(m: L.Memory)
    requires L.Inv(m) && AllWhole(m.log, m.chunks)
    ensures S.RoundWhole(m.log, L.Covered(m.chunks))
  {
    hide L.Representing, L.Covered;
    var x := L.Covered(m.chunks);
    if x == 0 { return; }
    assert L.SealedAt(m.chunks, x);
    var i :| 0 <= i < |m.chunks| && m.chunks[i].layer == 1 && L.In(m.chunks[i], x);
  }

  lemma SealWhole(m: L.Memory)
    requires L.Inv(m) && AllWhole(m.log, m.chunks)
    ensures AllWhole(m.log, L.SealTail(m).chunks)
  {
    hide L.Inv, L.Covered, L.NextNum, S.SealWalk, S.CallsWhole;
    var base, tail, w := L.Covered(m.chunks), L.Tail(m), S.SealWalk(L.Tail(m));
    L.CoveredFits(m);
    S.SealedWindows(tail);
    CoveredIsWhole(m);
    var sealed := L.SealedChunks(w.cuts, base, L.NextNum(m.chunks));
    forall i | 0 <= i < |m.chunks + sealed| && (m.chunks + sealed)[i].layer == 1
      ensures 0 <= (m.chunks + sealed)[i].last && S.RoundWhole(m.log, (m.chunks + sealed)[i].last)
    {
      if i >= |m.chunks| {
        var hi := w.cuts[i - |m.chunks|].hi;
        assert S.Whole(tail, hi);
        TailWhole(m.log, base, tail, hi);
      }
    }
  }

  lemma TailWhole(log: seq<S.Entry>, base: nat, tail: seq<S.Entry>, hi: nat)
    requires base <= |log| && tail == log[base..] && S.RoundWhole(log, base) && S.RoundWhole(tail, hi)
    ensures S.RoundWhole(log, base + hi)
  {
    forall i, j | 0 <= i < base + hi <= j < |log| && S.KeyOf(log[i]).Some? ensures S.KeyOf(log[i]) != S.KeyOf(log[j]) {
      if i >= base { assert log[i] == tail[i - base] && log[j] == tail[j - base]; }
    }
  }

  lemma ShapeWhole(log: seq<S.Entry>, a: seq<L.Chunk>, b: seq<L.Chunk>)
    requires AllWhole(log, a) && L.SameShape(a, b)
    ensures AllWhole(log, b)
  {
    forall i | 0 <= i < |b| && b[i].layer == 1 ensures 0 <= b[i].last && S.RoundWhole(log, b[i].last) {
      assert L.SameChunk(a[i], b[i]);
    }
  }

  lemma CreateWhole(log: seq<S.Entry>, a: seq<L.Chunk>)
    requires AllWhole(log, a)
    ensures AllWhole(log, L.CreateTarget(a))
  {
    hide S.RoundWhole, L.RunOf, L.NextNum, L.Nums, L.Shrunk;
  }

  lemma MaintainWhole(m: L.Memory)
    requires L.Inv(m) && AllWhole(m.log, m.chunks)
    ensures AllWhole(m.log, L.Maintain(m).chunks)
  {
    hide AllWhole, L.Formed, L.Representing, S.SealWalk, L.ApplyRaw, L.SettleTargets, L.CreateTarget, L.Covered, L.RawTokens;
    L.SealKeeps(m);
    L.SealKeepsLog(m);
    SealWhole(m);
    var sealed, n := L.SealTail(m), |m.log|;
    var live := S.SealWalk(L.Tail(m)).tokens + L.RawTokens(sealed.chunks);
    var applied := L.ApplyRaw(sealed.chunks, live, 0);
    V.ApplyRawShape(sealed.chunks, live, 0);
    ShapeWhole(m.log, sealed.chunks, applied);
    L.ApplyRawKeeps(n, sealed.chunks, live, 0);
    V.SettleTargetsShape(n, applied, 0);
    ShapeWhole(m.log, applied, L.SettleTargets(applied, 0));
    CreateWhole(m.log, L.SettleTargets(applied, 0));
  }

  ghost predicate StepOnward(m: L.Memory, step: L.Step) { step.Journaled? ==> Onward(m, step.entries) }

  lemma StepWhole(m: L.Memory, step: L.Step)
    requires L.Inv(m) && AllWhole(m.log, m.chunks) && StepOnward(m, step)
    ensures AllWhole(L.Apply(m, step).log, L.Apply(m, step).chunks)
  {
    hide S.RoundWhole, L.Inv, L.Maintain, Onward;
    match step {
      case Journaled(entries) => WriteWhole(m, entries);
      case Maintained => L.SealKeepsLog(m); MaintainWhole(m); assert L.Maintain(m).log == m.log by { MaintainLog(m); }
      case _ =>
    }
  }

  lemma MaintainLog(m: L.Memory)
    ensures L.Maintain(m).log == m.log
  {
  }

  /** A run whose journal goes back to no round that has a sealed record. */
  ghost predicate GoesOnward(steps: seq<L.Step>) {
    steps == [] || (var n := |steps| - 1; GoesOnward(steps[..n]) && StepOnward(L.Exec(steps[..n]), steps[n]))
  }

  lemma {:induction false} RunWhole(steps: seq<L.Step>)
    requires GoesOnward(steps)
    ensures AllWhole(L.Exec(steps).log, L.Exec(steps).chunks)
  {
    hide L.Apply, AllWhole, L.Inv, StepOnward;
    if steps == [] {
      assert AllWhole(L.Exec(steps).log, L.Exec(steps).chunks) by { NothingWhole(); }
      return;
    }
    var n := |steps| - 1;
    RunWhole(steps[..n]);
    L.RunKeeps(steps[..n]);
    StepWhole(L.Exec(steps[..n]), steps[n]);
  }

  lemma NothingWhole()
    ensures AllWhole([], [])
  {
  }

  // ------------------------------------------------------------- fit to branch

  lemma EndsThere(n: nat, a: seq<L.Chunk>, i: nat, t: nat)
    requires L.RawDisjoint(a) && L.Shaped(n, a) && i < |a| && t < |a| && a[i].layer == 1 && a[t].layer == 1
    requires L.In(a[i], a[t].first - 1)
    ensures a[i].last == a[t].first - 1
  {
    assert i < t ==> a[i].last < a[t].first;
  }

  /** A raw chunk begins where another ends. */
  lemma StartIsWhole(m: L.Memory, t: nat)
    requires L.Inv(m) && AllWhole(m.log, m.chunks) && t < |m.chunks| && m.chunks[t].layer == 1
    ensures S.RoundWhole(m.log, m.chunks[t].first - 1)
  {
    hide L.Representing, L.AllSourced, L.Shrinks, L.Ordered, L.RawDisjoint, L.Covered, AllWhole, S.RoundWhole;
    var x := m.chunks[t].first - 1;
    if x == 0 {
      FrontWhole(m.log);
      return;
    }
    assert m.chunks[t].last <= L.Covered(m.chunks);
    assert L.SealedAt(m.chunks, x);
    var i :| 0 <= i < |m.chunks| && m.chunks[i].layer == 1 && L.In(m.chunks[i], x);
    EndsThere(|m.log|, m.chunks, i, t);
    EndIsWhole(m, i);
  }

  lemma FrontWhole(log: seq<S.Entry>)
    ensures S.RoundWhole(log, 0)
  {
  }

  /** The records of the view are the raw ones the store sends, as journaled. */
  ghost predicate RawRecords(m: L.Memory, loading: Option<InputId>, records: seq<Record>) {
    var raw := V.RawView(m, loading, |m.log|);
    && |records| == |raw| && (forall i :: 0 <= i < |raw| ==> records[i].num == raw[i])
    && AllRecorded(m.log, records)
  }

  /** The record is the loading input's own. */
  predicate LeftOut(m: L.Memory, loading: Option<InputId>, x: int) { 1 <= x <= |m.log| && V.Excluded(m.log[x - 1], loading) }

  lemma RawRecordsAre(m: L.Memory, loading: Option<InputId>, records: seq<Record>)
    requires L.Inv(m) && RawRecords(m, loading, records)
    ensures RawOnly(records, m.chunks)
    ensures forall x :: IsRecord(records, x) <==>
                        1 <= x <= |m.log| && !L.Represented(m.chunks, x) && !LeftOut(m, loading, x)
  {
    hide L.Represented, V.Hidden, AllRecorded, V.RawView;
    var raw := V.RawView(m, loading, |m.log|);
    V.RawViewHolds(m, loading, |m.log|);
    forall x ensures V.Hidden(m.chunks, x) <==> L.Represented(m.chunks, x) { V.HiddenIsRepresented(m.chunks, x); }
    forall i | 0 <= i < |records| ensures !L.Represented(m.chunks, records[i].num) { assert raw[i] in raw; }
    forall x ensures IsRecord(records, x) <==> x in raw {
      if IsRecord(records, x) {
        var i :| 0 <= i < |records| && records[i].num == x;
        assert raw[i] in raw;
      }
      if x in raw {
        var i :| 0 <= i < |raw| && raw[i] == x;
        assert records[i].num == x;
      }
    }
  }

  /** A chunk whose records are all raw is none that was replaced. */
  lemma RawIsPresent(m: L.Memory, t: nat, x: int)
    requires L.Inv(m) && t < |m.chunks| && m.chunks[t].layer == 1 && L.In(m.chunks[t], x)
    ensures L.Represented(m.chunks, x) <==> L.Covering(m.chunks[t])
  {
    hide L.NoGap, L.AllSourced, L.Shrinks, L.Represented;
    if L.CoveredRaw(m.chunks, x) {
      var i :| 0 <= i < |m.chunks| && m.chunks[i].layer == 1 && L.Covering(m.chunks[i]) && L.In(m.chunks[i], x);
      assert i == t;
    }
  }

  lemma ViewUncrossed(log: seq<S.Entry>, chunks: seq<L.Chunk>, before: seq<Item>, records: seq<Record>, first: int, last: int)
    requires OnlyBlocks(before, chunks) && AllRecorded(log, records) && CallsHaveRounds(records)
    requires 1 <= first <= last <= |log| && S.RoundWhole(log, first - 1) && S.RoundWhole(log, last)
    ensures NoneCrosses(View(before, records), first, last)
  {
    hide View, OneRound, AllRecorded, S.RoundWhole, Rendered, OnlyBlocks;
    var view := View(before, records);
    forall v | 0 <= v < |view| ensures !Crosses(view[v], first, last) {
      ViewItem(before, records, v);
      if view[v] in before {
        BlockUncrossed(before, chunks, view[v], first, last);
      } else {
        RenderedOne(records);
        assert OneRound(view[v], records);
        forall k | 0 <= k < |view[v].sources| ensures view[v].sources[k].first == view[v].sources[k].last {
          assert A.ShownFrom(view[v].sources[k], view[v].message, records);
        }
        WholeIsUncrossed(log, records, view[v], first, last);
      }
    }
  }

  lemma ViewItem(before: seq<Item>, records: seq<Record>, v: nat)
    requires v < |View(before, records)|
    ensures var x := View(before, records)[v]; x in before || (x in Rendered(records) && A.Faithful(x, records))
  {
    hide Sort, Rendered, A.Faithful;
    var items := before + Rendered(records);
    SortHolds(items);
    assert Sort(items)[v] in multiset(Sort(items));
    A.RenderedFaithful(records);
  }

  lemma BlockUncrossed(before: seq<Item>, chunks: seq<L.Chunk>, x: Item, first: int, last: int)
    requires OnlyBlocks(before, chunks) && x in before
    ensures !Crosses(x, first, last)
  {
    var b :| 0 <= b < |before| && before[b] == x;
    assert |x.sources| <= 1;
  }

  /** On every run whose journal goes back to no sealed round, the view the memory
      renders to is accepted for a raw chunk exactly while the chunk has not been
      replaced and none of its records is left out for the loading input. */
  lemma SealedChunkIsAccepted(steps: seq<L.Step>, loading: Option<InputId>, before: seq<Item>, records: seq<Record>, t: nat)
    requires GoesOnward(steps) && t < |L.Exec(steps).chunks| && L.Exec(steps).chunks[t].layer == 1
    requires OfMemory(before, L.Exec(steps).chunks) && RawRecords(L.Exec(steps), loading, records) && CallsHaveRounds(records)
    ensures var m := L.Exec(steps);
            var c := m.chunks[t];
            Fit(Ranges(before, records), m.chunks, c)
            <==> !L.Covering(c) && forall x :: c.first <= x <= c.last ==> !LeftOut(m, loading, x)
  {
    hide Ranges, View, L.Exec, AllWhole, OnlyBlocks, AllBlocks, L.Representing, GoesOnward, Fit, V.RawView, NoneCrosses, L.Represented;
    var m := L.Exec(steps);
    var c := m.chunks[t];
    L.RunKeeps(steps);
    RunWhole(steps);
    StartIsWhole(m, t);
    EndIsWhole(m, t);
    RawRecordsAre(m, loading, records);
    ViewUncrossed(m.log, m.chunks, before, records, c.first, c.last);
    OwnViewFitsRawIff(m, before, records, t);
    RawChunkPresent(m, loading, records, t);
  }

  lemma RawChunkPresent(m: L.Memory, loading: Option<InputId>, records: seq<Record>, t: nat)
    requires L.Inv(m) && RawRecords(m, loading, records) && t < |m.chunks| && m.chunks[t].layer == 1
    ensures var c := m.chunks[t];
            Present(records, c.first, c.last) <==> !L.Covering(c) && forall x :: c.first <= x <= c.last ==> !LeftOut(m, loading, x)
  {
    hide L.Representing, L.Represented, RawRecords, IsRecord, LeftOut;
    var c := m.chunks[t];
    RawRecordsAre(m, loading, records);
    forall x | c.first <= x <= c.last
      ensures IsRecord(records, x) <==> !L.Covering(c) && !LeftOut(m, loading, x)
    {
      RawIsPresent(m, t, x);
    }
    if Present(records, c.first, c.last) { assert IsRecord(records, c.first); }
  }

  lemma EndIsWhole(m: L.Memory, t: nat)
    requires AllWhole(m.log, m.chunks) && t < |m.chunks| && m.chunks[t].layer == 1
    ensures 0 <= m.chunks[t].last && S.RoundWhole(m.log, m.chunks[t].last)
  {
  }

  // ------------------------------------------------------ calls without a round

  function Roundless(): seq<S.Entry> {
    [S.Entry(1, 1, S.AssistantMessage, None, None, 10_000), S.Entry(1, 1, S.ToolCall, None, None, 0),
     S.Entry(1, 2, S.InputReceived, None, None, 0), S.Entry(1, 1, S.ToolCall, None, None, 0),
     S.Entry(1, 1, S.ToolResult, None, None, 0), S.Entry(1, 1, S.ToolResult, None, None, 0)]
  }

  const TEXT := Record(1, 1, Text(None, 7))
  const CALL := Record(2, 1, Call(None, None, None, 8))
  const NOTE := Record(3, 1, Plain(Some(9)))
  const AGAIN := Record(4, 1, Call(None, None, None, 8))
  const REPLY := Record(5, 1, Result(None, None, 6))
  const LATER := Record(6, 1, Result(None, None, 6))

  lemma WalkSteps(tail: seq<S.Entry>)
    requires tail == Roundless()
    ensures S.SealWalk(tail).cuts == [S.Window(0, 2, 10_000)]
  {
    var w0 := S.WALK_START;
    var w1 := S.Walking(1, 0, 10_000, -1, {}, Some(S.AssistantMessage), []);
    var w2 := w1.(at := 2, prev := Some(S.ToolCall));
    var w3 := S.Walking(3, 2, 0, -1, {}, Some(S.InputReceived), [S.Window(0, 2, 10_000)]);
    var w4 := w3.(at := 4, prev := Some(S.ToolCall));
    assert S.WalkTo(tail, 0) == w0;
    assert S.WalkOne(w0, tail, tail[0]) == w1 == S.WalkTo(tail, 1);
    assert S.WalkOne(w1, tail, tail[1]) == w2 == S.WalkTo(tail, 2);
    assert S.WalkOne(w2, tail, tail[2]) == w3 == S.WalkTo(tail, 3);
    assert S.WalkOne(w3, tail, tail[3]) == w4 == S.WalkTo(tail, 4);
    assert S.WalkTo(tail, 5) == S.WalkOne(w4, tail, tail[4]);
    assert S.WalkTo(tail, 6) == S.WalkOne(S.WalkTo(tail, 5), tail, tail[5]);
  }

  const AFTER := [Item(3, Standalone(9), [RawSource(3)])]
  const OPENED := Group(1, 1, None, Some(7), [Pairing(CALL, None)], [])
  const JOINED := OPENED.(calls := [Pairing(CALL, None), Pairing(AGAIN, None)], after := AFTER)
  const ROUND := JOINED.(calls := [Pairing(CALL, Some(REPLY)), Pairing(AGAIN, Some(LATER))])

  lemma Opens()
    ensures Feed(Feed(Rendering([], None), TEXT), CALL) == Rendering([], Some(OPENED))
  {
    var g := Group(1, 1, None, Some(7), [], []);
    assert Feed(Rendering([], None), TEXT) == Rendering([], Some(g));
    assert g.calls + [Pairing(CALL, None)] == OPENED.calls;
  }

  lemma Joins()
    ensures Feed(Feed(Rendering([], Some(OPENED)), NOTE), AGAIN) == Rendering([], Some(JOINED))
  {
    var g := OPENED.(after := AFTER);
    assert OPENED.calls[0].result.None? && OPENED.after + AFTER == AFTER;
    assert Feed(Rendering([], Some(OPENED)), NOTE) == Rendering([], Some(g));
    assert g.calls + [Pairing(AGAIN, None)] == JOINED.calls;
  }

  lemma Replies()
    ensures Feed(Feed(Rendering([], Some(JOINED)), REPLY), LATER) == Rendering([], Some(ROUND))
  {
    var g := JOINED.(calls := [Pairing(CALL, Some(REPLY)), Pairing(AGAIN, None)]);
    assert FindCall(JOINED.calls, REPLY, 0) == Some(0);
    assert JOINED.calls[0 := JOINED.calls[0].(result := Some(REPLY))] == g.calls;
    assert Feed(Rendering([], Some(JOINED)), REPLY) == Rendering([], Some(g));
    assert FindCall(g.calls, LATER, 0) == Some(1);
    assert g.calls[1 := g.calls[1].(result := Some(LATER))] == ROUND.calls;
  }

  function RoundlessRecords(): seq<Record> { [TEXT, CALL, NOTE, AGAIN, REPLY, LATER] }

  lemma RoundlessGroup(records: seq<Record>)
    requires records == RoundlessRecords()
    ensures FeedAll(records) == Rendering([], Some(ROUND))
  {
    hide Feed;
    Opens();
    Joins();
    Replies();
    forall k | 0 <= k < |records| ensures FeedAll(records[..k + 1]) == Feed(FeedAll(records[..k]), records[k]) {
      FeedSnoc(records[..k], records[k]);
      assert records[..k + 1] == records[..k] + [records[k]];
    }
    assert FeedAll(records[..0]) == Rendering([], None);
    assert FeedAll(records[..2]) == Feed(FeedAll(records[..1]), records[1]) == Rendering([], Some(OPENED));
    assert FeedAll(records[..4]) == Feed(FeedAll(records[..3]), records[3]) == Rendering([], Some(JOINED));
    assert FeedAll(records[..6]) == Feed(FeedAll(records[..5]), records[5]) == Rendering([], Some(ROUND));
    assert records[..6] == records;
  }

  lemma RoundlessHead()
    ensures Head(ROUND) != [] && Crosses(Head(ROUND)[0], 1, 2)
  {
    var calls := ROUND.calls;
    assert calls[..1] == [Pairing(CALL, Some(REPLY))] && calls[..1][..0] == [];
    assert Answered(calls[..1]) == [Pairing(CALL, Some(REPLY))];
    assert Answered(calls) == calls;
    var x := Head(ROUND)[0];
    assert x.sources == [RawSource(1), RawSource(2), RawSource(4)];
    assert Within(x.sources[0], 1, 2) && !Within(x.sources[2], 1, 2);
  }

  lemma RoundlessRecorded()
    ensures AllRecorded(Roundless(), RoundlessRecords())
  {
  }

  /** Without rounds the two disagree: this journal is cut after its second record,
      while one message renders the first, the second and the fourth. */
  lemma RoundlessCallCrosses(tail: seq<S.Entry>, records: seq<Record>)
    requires tail == Roundless() && records == RoundlessRecords()
    ensures S.SealWalk(tail).cuts == [S.Window(0, 2, 10_000)] && AllRecorded(tail, records)
    ensures Rendered(records) != [] && Crosses(Rendered(records)[0], 1, 2)
  {
    WalkSteps(tail);
    RoundlessGroup(records);
    RoundlessHead();
    RoundlessRecorded();
    hide FeedAll, S.SealWalk, Head, Crosses, Results, Missing, AllRecorded, Roundless, RoundlessRecords;
    assert Rendered(records)[0] == Head(ROUND)[0];
  }
}
