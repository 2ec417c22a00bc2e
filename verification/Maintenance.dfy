/** What a maintenance pass does and when: which boundaries it cuts at, which
    prepared chunks it applies, when an upper-layer target is installed, and which
    target it creates next. */
module Maintenance {
  import opened Common
  import opened Sealing
  import opened Layers
  import opened MemoryView

  // ---------------------------------------------------------------- where it cuts

  /** The record may begin a chunk when the open one starts at `lo`: an input once
      10,000 tokens are open, or past 20,000 a text that does not follow a result;
      where no round goes on and every call is answered. */
  ghost predicate MayBegin(tail: seq<Entry>, lo: nat, b: nat) {
    && lo < b < |tail| && RoundWhole(tail, b) && CallsWhole(tail, b)
    && ((tail[b].kind == InputReceived && SumTokens(tail[lo..b]) >= 10_000)
        || (tail[b].kind == AssistantMessage && SumTokens(tail[lo..b]) > 20_000 && tail[b - 1].kind != ToolResult))
  }

  /** The walk at `at` knows the open calls, the last round and the kind before. */
  ghost predicate WalkKnows(tail: seq<Entry>, w: Walking) {
    && w.at <= |tail|
    && (w.pending == {} <==> CallsWhole(tail, w.at))
    && (w.at > w.roundEnd <==> RoundWhole(tail, w.at))
    && (w.at > 0 ==> w.prev == Some(tail[w.at - 1].kind))
  }

  /** Whether the last call or result of this id before `n` is a call. */
  ghost predicate Open(tail: seq<Entry>, n: nat, id: int) {
    exists i :: && 0 <= i < n && i < |tail| && tail[i].kind == ToolCall && tail[i].callId == Some(id)
                && !AnsweredBy(tail, i, n)
  }

  lemma AnsweredSnoc(tail: seq<Entry>, i: nat, n: nat)
    requires i < n < |tail|
    ensures AnsweredBy(tail, i, n + 1) <==> AnsweredBy(tail, i, n) || Answers(tail[i], tail[n])
  {
    if r :| i < r < n && r < |tail| && Answers(tail[i], tail[r]) { assert AnsweredBy(tail, i, n + 1); }
  }

  lemma OpenSnoc(tail: seq<Entry>, n: nat, id: int)
    requires n < |tail|
    ensures Open(tail, n + 1, id) <==>
            || (tail[n].kind == ToolCall && tail[n].callId == Some(id))
            || (Open(tail, n, id) && !(tail[n].kind == ToolResult && tail[n].callId == Some(id)))
  {
    forall i | 0 <= i < n ensures AnsweredBy(tail, i, n + 1) <==> AnsweredBy(tail, i, n) || Answers(tail[i], tail[n]) {
      AnsweredSnoc(tail, i, n);
    }
    assert !AnsweredBy(tail, n, n + 1);
    hide AnsweredBy;
    if Open(tail, n, id) {
      var i :| 0 <= i < n && i < |tail| && tail[i].kind == ToolCall && tail[i].callId == Some(id) && !AnsweredBy(tail, i, n);
      assert Answers(tail[i], tail[n]) <==> tail[n].kind == ToolResult && tail[n].callId == Some(id);
    }
  }

  lemma OpenIffWhole(tail: seq<Entry>, n: nat)
    requires n <= |tail|
    ensures CallsWhole(tail, n) <==> forall id :: !Open(tail, n, id)
  {
    if !CallsWhole(tail, n) {
      var i :| 0 <= i < n && i < |tail| && tail[i].kind == ToolCall && tail[i].callId.Some? && !AnsweredBy(tail, i, n);
      assert Open(tail, n, tail[i].callId.value);
    }
  }

  /** The pending set is the ids still open. */
  lemma {:induction false} WalkPending(tail: seq<Entry>, n: nat)
    requires n <= |tail|
    ensures forall id :: id in WalkTo(tail, n).pending <==> Open(tail, n, id)
  {
    if n == 0 { return; }
    hide Open;
    WalkPending(tail, n - 1);
    forall id ensures id in WalkTo(tail, n).pending <==> Open(tail, n, id) { OpenSnoc(tail, n - 1, id); }
  }

  ghost predicate RoundsTo(tail: seq<Entry>, n: nat, end: int)
    requires n <= |tail|
  {
    && (forall i :: 0 <= i < n && KeyOf(tail[i]).Some? ==> RoundEnd(tail, KeyOf(tail[i]).value) <= end)
    && (end == -1 || exists i :: 0 <= i < n && KeyOf(tail[i]).Some? && RoundEnd(tail, KeyOf(tail[i]).value) == end)
  }

  lemma RoundsSnoc(tail: seq<Entry>, n: nat, end: int)
    requires n < |tail| && RoundsTo(tail, n, end)
    ensures var key := KeyOf(tail[n]); RoundsTo(tail, n + 1, if key.Some? then Max(end, RoundEnd(tail, key.value)) else end)
  {
    hide RoundEnd, KeyOf;
    var key := KeyOf(tail[n]);
    if key.Some? && RoundEnd(tail, key.value) >= end { assert RoundEnd(tail, KeyOf(tail[n]).value) == RoundEnd(tail, key.value); }
  }

  lemma {:induction false} WalkRounds(tail: seq<Entry>, n: nat)
    requires n <= |tail|
    ensures var w := WalkTo(tail, n); RoundsTo(tail, n, w.roundEnd) && (n > 0 ==> w.prev == Some(tail[n - 1].kind))
  {
    hide RoundsTo, WalkOne, RoundEnd, KeyOf;
    if n == 0 { RoundsNone(tail); return; }
    WalkRounds(tail, n - 1);
    RoundsSnoc(tail, n - 1, WalkTo(tail, n - 1).roundEnd);
    WalkOneRound(WalkTo(tail, n - 1), tail, tail[n - 1]);
  }

  lemma RoundsNone(tail: seq<Entry>)
    ensures RoundsTo(tail, 0, WALK_START.roundEnd)
  {
  }

  lemma WalkOneRound(w: Walking, tail: seq<Entry>, e: Entry)
    ensures var w', key := WalkOne(w, tail, e), KeyOf(e);
            w'.roundEnd == (if key.Some? then Max(w.roundEnd, RoundEnd(tail, key.value)) else w.roundEnd) && w'.prev == Some(e.kind)
  {
    hide RoundEnd, KeyOf, Cuts;
  }

  lemma EmptyIff(ids: set<int>)
    ensures ids == {} <==> forall id :: id !in ids
  {
    if forall id :: id !in ids { assert ids == {}; }
  }

  lemma WalkKnowsAt(tail: seq<Entry>, n: nat)
    requires n <= |tail|
    ensures WalkKnows(tail, WalkTo(tail, n)) && WalkTo(tail, n).at == n
  {
    hide WalkTo, CallsWhole, Open;
    var w := WalkTo(tail, n);
    WalkPending(tail, n);
    OpenIffWhole(tail, n);
    WalkRounds(tail, n);
    WalkAt(tail, n);
    EmptyIff(w.pending);
    RoundsEndBefore(tail, n, w.roundEnd);
  }

  lemma RoundsEndBefore(tail: seq<Entry>, n: nat, end: int)
    requires n <= |tail|
    requires RoundsTo(tail, n, end)
    ensures n > end <==> RoundWhole(tail, n)
  {
    if n > end {
      forall i, j | 0 <= i < n <= j < |tail| && KeyOf(tail[i]).Some? ensures KeyOf(tail[i]) != KeyOf(tail[j]) {
        assert RoundEnd(tail, KeyOf(tail[i]).value) <= end;
      }
    } else {
      var i :| 0 <= i < n && KeyOf(tail[i]).Some? && RoundEnd(tail, KeyOf(tail[i]).value) == end;
      assert KeyOf(tail[end]) == KeyOf(tail[i]);
    }
  }

  /** Cut so far: every cut is at a record that may begin a chunk, and no window
      passes over one. */
  ghost predicate CutsExactly(tail: seq<Entry>, w: Walking) {
    && w.at <= |tail|
    && (forall c :: 0 <= c < |w.cuts| ==> w.cuts[c].hi <= w.at && MayBegin(tail, w.cuts[c].lo, w.cuts[c].hi))
    && (forall c, b: nat :: 0 <= c < |w.cuts| && w.cuts[c].lo < b < w.cuts[c].hi ==> !MayBegin(tail, w.cuts[c].lo, b))
    && (forall b: nat :: w.start < b < w.at ==> !MayBegin(tail, w.start, b))
  }

  lemma CutsIffMayBegin(tail: seq<Entry>, n: nat)
    requires n < |tail|
    ensures Cuts(WalkTo(tail, n), tail[n]) <==> MayBegin(tail, WalkTo(tail, n).start, n)
  {
    WalkKnowsAt(tail, n);
    WalkKeeps(tail, n);
    hide WalkTo, RoundWhole, CallsWhole, Tiled, Weighed, Whole, PendingCovers;
  }

  lemma CutExactly(tail: seq<Entry>, v: Walking)
    requires CutsExactly(tail, v) && v.at < |tail| && MayBegin(tail, v.start, v.at)
    ensures CutsExactly(tail, Cut(v))
  {
    hide MayBegin;
    var w := Cut(v);
    forall c | 0 <= c < |w.cuts| ensures w.cuts[c].hi <= w.at && MayBegin(tail, w.cuts[c].lo, w.cuts[c].hi) {
      if c < |v.cuts| { assert w.cuts[c] == v.cuts[c]; }
    }
    forall c, b: nat | 0 <= c < |w.cuts| && w.cuts[c].lo < b < w.cuts[c].hi ensures !MayBegin(tail, w.cuts[c].lo, b) {
      if c < |v.cuts| { assert w.cuts[c] == v.cuts[c]; }
    }
  }

  lemma TakeExactly(tail: seq<Entry>, w: Walking)
    requires CutsExactly(tail, w) && w.at < |tail| && (w.start < w.at ==> !MayBegin(tail, w.start, w.at))
    ensures CutsExactly(tail, Take(w, tail, tail[w.at]))
  {
    hide MayBegin, RoundEnd, Pending;
  }

  lemma {:induction false} WalkCutsExactly(tail: seq<Entry>, n: nat)
    requires n <= |tail|
    ensures CutsExactly(tail, WalkTo(tail, n))
  {
    if n == 0 { return; }
    hide CutsExactly, MayBegin, Cuts, Cut, Take;
    WalkCutsExactly(tail, n - 1);
    CutsIffMayBegin(tail, n - 1);
    WalkAt(tail, n - 1);
    var v := WalkTo(tail, n - 1);
    if Cuts(v, tail[n - 1]) {
      CutExactly(tail, v);
      CutAt(v);
      TakeExactly(tail, Cut(v));
    } else {
      TakeExactly(tail, v);
    }
  }

  lemma WalkAt(tail: seq<Entry>, n: nat)
    requires n <= |tail|
    ensures WalkTo(tail, n).at == n
  {
    WalkKeeps(tail, n);
  }

  lemma CutAt(w: Walking)
    ensures Cut(w).at == w.at == Cut(w).start
  {
  }

  /** The journal is cut wherever a record may begin a chunk, and nowhere else:
      neither a sealed window nor the open tail passes over such a record. */
  lemma SealsExactly(tail: seq<Entry>)
    ensures var w := SealWalk(tail);
            && (forall c :: 0 <= c < |w.cuts| ==> MayBegin(tail, w.cuts[c].lo, w.cuts[c].hi))
            && (forall c, b: nat :: 0 <= c < |w.cuts| && w.cuts[c].lo < b < w.cuts[c].hi ==> !MayBegin(tail, w.cuts[c].lo, b))
            && (forall b: nat :: w.start < b < |tail| ==> !MayBegin(tail, w.start, b))
  {
    hide MayBegin;
    WalkCutsExactly(tail, |tail|);
    WalkKeeps(tail, |tail|);
  }

  // ------------------------------------------------------------- what it applies

  /** The tokens of the chunks before `k` that changed. */
  function Freed(a: seq<Chunk>, b: seq<Chunk>, k: nat): int
    requires k <= |a| == |b|
  {
    if k == 0 then 0 else Freed(a, b, k - 1) + if a[k - 1] != b[k - 1] then a[k - 1].tokens else 0
  }

  /** Prepared raw chunks are applied oldest first, each exactly while what was live
      before it, less what was applied before it, is over 40,000 tokens. */
  ghost predicate AppliedWhileOver(a: seq<Chunk>, b: seq<Chunk>, live: int, from: nat) {
    && |b| == |a|
    && (forall k :: 0 <= k < |a| ==> b[k] == a[k] || (k >= from && Applicable(a[k]) && b[k] == a[k].(status := Applied)))
    && (forall k :: from <= k < |a| && Applicable(a[k]) ==> (b[k].status == Applied <==> live - Freed(a, b, k) > LIVE))
  }

  const LIVE := 40_000

  lemma {:induction false} FreedNone(a: seq<Chunk>, b: seq<Chunk>, k: nat)
    requires k <= |a| == |b| && forall h :: 0 <= h < k ==> a[h] == b[h]
    ensures Freed(a, b, k) == 0
  {
    if k > 0 { FreedNone(a, b, k - 1); }
  }

  lemma {:induction false} FreedMarked(a: seq<Chunk>, b: seq<Chunk>, i: nat, k: nat)
    requires i < k <= |a| == |b| && Applicable(a[i]) && b[i] == a[i].(status := Applied)
    ensures Freed(a, b, k) == a[i].tokens + Freed(Marked(a, i, Applied), b, k)
  {
    var a1 := Marked(a, i, Applied);
    if k == i + 1 {
      FreedSame(a, a1, b, i);
    } else {
      FreedMarked(a, b, i, k - 1);
    }
  }

  lemma {:induction false} FreedSame(a: seq<Chunk>, a1: seq<Chunk>, b: seq<Chunk>, k: nat)
    requires k <= |a| == |a1| == |b| && forall h :: 0 <= h < k ==> a[h] == a1[h]
    ensures Freed(a, b, k) == Freed(a1, b, k)
  {
    if k > 0 { FreedSame(a, a1, b, k - 1); }
  }

  lemma {:induction false} AppliesExactly(a: seq<Chunk>, live: int, i: nat)
    requires i <= |a|
    ensures AppliedWhileOver(a, ApplyRaw(a, live, i), live, i)
    decreases |a| - i
  {
    if i == |a| { return; }
    var b := ApplyRaw(a, live, i);
    if live > LIVE_LIMIT && Applicable(a[i]) {
      var a1 := Marked(a, i, Applied);
      AppliesExactly(a1, live - a[i].tokens, i + 1);
      assert b[i] == a1[i];
      FreedBefore(a, b, i);
      forall k | i < k < |a| && Applicable(a[k]) ensures b[k].status == Applied <==> live - Freed(a, b, k) > LIVE {
        assert a1[k] == a[k];
        FreedMarked(a, b, i, k);
      }
      return;
    }
    AppliesExactly(a, live, i + 1);
    FreedBefore(a, b, i);
  }

  lemma FreedBefore(a: seq<Chunk>, b: seq<Chunk>, i: nat)
    requires i <= |a| == |b| && forall h :: 0 <= h < i ==> a[h] == b[h]
    ensures Freed(a, b, i) == 0
  {
    FreedNone(a, b, i);
  }

  // -------------------------------------------------------- when a target installs

  /** The replacement tokens of the applied chunks of a layer. */
  function LayerTokens(chunks: seq<Chunk>, layer: nat): nat {
    if chunks == [] then 0
    else (if chunks[0].layer == layer && chunks[0].status == Applied then chunks[0].shrunk else 0) + LayerTokens(chunks[1..], layer)
  }

  lemma {:induction false} LayerTokensSnoc(a: seq<Chunk>, c: Chunk, layer: nat)
    ensures LayerTokens(a + [c], layer)
            == LayerTokens(a, layer) + if c.layer == layer && c.status == Applied then c.shrunk else 0
  {
    if a == [] {
      assert a + [c] == [c] && [c][1..] == [];
      return;
    }
    assert (a + [c])[1..] == a[1..] + [c];
    LayerTokensSnoc(a[1..], c, layer);
  }

  lemma {:induction false} LayerTokensAre(a: seq<Chunk>, layer: nat)
    ensures AppliedTokens(a, layer) == LayerTokens(a, layer)
  {
    if a == [] { return; }
    var n := |a| - 1;
    LayerTokensAre(a[..n], layer);
    LayerTokensSnoc(a[..n], a[n], layer);
    assert a == a[..n] + [a[n]];
  }

  /** The chunk of this number is applied in this layer. */
  ghost predicate AppliedNum(a: seq<Chunk>, num: nat, layer: nat) {
    exists k :: 0 <= k < |a| && a[k].num == num && a[k].status == Applied && a[k].layer == layer
  }

  /** Every source is still applied, all in layer 1 or all in layer 2. */
  ghost predicate LiveIn(a: seq<Chunk>, t: Chunk, layer: nat) {
    (layer == 1 || layer == 2) && t.sources != [] && forall k :: 0 <= k < |t.sources| ==> AppliedNum(a, t.sources[k], layer)
  }

  function Allowance(layer: nat): int { if layer == 1 then 15_000 else 10_000 }

  lemma LiveSourceIs(a: seq<Chunk>, num: nat, layer: nat)
    requires Ordered(a)
    ensures LiveSource(a, num, layer) <==> AppliedNum(a, num, layer)
  {
    if AppliedNum(a, num, layer) {
      var k :| 0 <= k < |a| && a[k].num == num && a[k].status == Applied && a[k].layer == layer;
      FindUnique(a, k);
    }
  }

  lemma StaleIffDead(a: seq<Chunk>, t: Chunk)
    requires Ordered(a)
    ensures Stale(a, t) <==> forall layer: nat :: !LiveIn(a, t, layer)
    ensures forall layer: nat :: LiveIn(a, t, layer) ==> SourceLayer(a, t) == layer
  {
    var layer := SourceLayer(a, t);
    forall k, l: nat | 0 <= k < |t.sources| ensures LiveSource(a, t.sources[k], l) <==> AppliedNum(a, t.sources[k], l) {
      LiveSourceIs(a, t.sources[k], l);
    }
    if !Stale(a, t) {
      assert t.sources != [];
      assert LiveIn(a, t, layer);
    }
    forall l: nat | LiveIn(a, t, l) ensures layer == l {
      assert LiveSource(a, t.sources[0], l);
    }
  }

  ghost predicate SettledAs(a: seq<Chunk>, b: seq<Chunk>, i: nat)
    requires i < |a|
  {
    var t := a[i];
    && |b| == |a|
    && ((forall layer: nat :: !LiveIn(a, t, layer)) ==> b == a[i := t.(status := Failed)])
    && (forall layer: nat :: LiveIn(a, t, layer) && LayerTokens(a, layer) <= Allowance(layer) ==> b == a)
    && (forall layer: nat :: LiveIn(a, t, layer) && LayerTokens(a, layer) > Allowance(layer) ==>
          && b[i] == t.(status := Applied)
          && forall k :: 0 <= k < |a| && k != i ==> b[k] == if a[k].num in t.sources then a[k].(status := Superseded) else a[k])
  }

  /** A prepared target fails exactly when its sources are not all applied in one
      layer; it is installed, its sources superseded, exactly when they are and the
      layer's applied replacements are over 15,000 or 10,000 tokens; else it waits. */
  lemma TargetSettles(n: nat, a: seq<Chunk>, i: nat)
    requires Formed(n, a) && Representing(a) && i < |a| && a[i].layer >= 2 && a[i].status == Prepared
    ensures SettledAs(a, SettleTarget(a, i), i)
  {
    hide Representing, NoGap, RawDisjoint, AllSourced, Shrinks, AppliedTokens, LayerTokens;
    var t, layer := a[i], SourceLayer(a, a[i]);
    StaleIffDead(a, t);
    LayerTokensAre(a, layer);
    if Stale(a, t) { return; }
    assert LiveIn(a, t, layer);
    if AppliedTokens(a, layer) <= LimitOf(layer) { return; }
    LayerIsTwo(n, a, i);
    NotStaleInstallable(n, a, i);
    hide Formed, Install, Stale, LiveIn;
    InstallShape(n, a, i);
  }

  lemma NotStaleInstallable(n: nat, a: seq<Chunk>, i: nat)
    requires Formed(n, a) && Representing(a) && i < |a| && a[i].layer == 2 && a[i].status == Prepared && !Stale(a, a[i])
    ensures Installable(n, a, i)
  {
    hide Formed, Representing;
  }

  // --------------------------------------------------------------- a whole pass

  predicate PreparedTarget(c: Chunk) { c.layer >= 2 && c.status == Prepared }

  /** A prepared target that could be installed. */
  ghost predicate Waits(a: seq<Chunk>, k: nat, layer: nat) {
    k < |a| && PreparedTarget(a[k]) && LiveIn(a, a[k], layer) && LayerTokens(a, layer) > Allowance(layer)
  }

  /** A target after `k` was installed between `a` and `b`. */
  ghost predicate LaterInstalled(a: seq<Chunk>, b: seq<Chunk>, k: nat) {
    |a| <= |b| && exists j :: k < j < |a| && PreparedTarget(a[j]) && Covering(b[j])
  }

  lemma {:induction false} TokensFall(a: seq<Chunk>, b: seq<Chunk>, layer: nat)
    requires |a| == |b|
    requires forall k :: 0 <= k < |a| ==> b[k].layer == a[k].layer && b[k].shrunk == a[k].shrunk
    requires forall k :: 0 <= k < |a| && b[k].status == Applied && b[k].layer == layer ==> a[k].status == Applied
    ensures LayerTokens(b, layer) <= LayerTokens(a, layer)
  {
    if a == [] { return; }
    assert forall k :: 0 <= k < |a[1..]| ==> a[1..][k] == a[k + 1] && b[1..][k] == b[k + 1];
    TokensFall(a[1..], b[1..], layer);
  }

  lemma StillLive(a: seq<Chunk>, b: seq<Chunk>, t: Chunk, t': Chunk, layer: nat)
    requires |a| == |b| && t'.sources == t.sources
    requires forall k :: 0 <= k < |a| ==> b[k].layer == a[k].layer && b[k].num == a[k].num
    requires forall k :: 0 <= k < |a| && b[k].status == Applied && b[k].layer == layer ==> a[k].status == Applied
    ensures LiveIn(b, t', layer) ==> LiveIn(a, t, layer)
  {
    if LiveIn(b, t', layer) {
      forall m | 0 <= m < |t.sources| ensures AppliedNum(a, t.sources[m], layer) {
        assert AppliedNum(b, t'.sources[m], layer);
        var k :| 0 <= k < |b| && b[k].num == t.sources[m] && b[k].status == Applied && b[k].layer == layer;
        assert a[k].num == t.sources[m];
      }
    }
  }

  /** What settling the target at `i` does to the chunks: none but `i` newly applied,
      and `i` only if it was prepared. */
  ghost predicate StepOf(a: seq<Chunk>, b: seq<Chunk>, i: nat) {
    && |b| == |a| && i < |a|
    && (forall k :: 0 <= k < |a| ==>
          && b[k].layer == a[k].layer && b[k].shrunk == a[k].shrunk && b[k].num == a[k].num && b[k].sources == a[k].sources
          && (PreparedTarget(b[k]) ==> PreparedTarget(a[k])) && (Covering(a[k]) ==> Covering(b[k]))
          && (b[k].status == Applied && a[k].status != Applied ==> k == i && PreparedTarget(a[i])))
  }

  lemma SettleIsStep(n: nat, a: seq<Chunk>, i: nat)
    requires Formed(n, a) && Representing(a) && i < |a|
    ensures StepOf(a, SettleTarget(a, i), i)
  {
    hide Formed, Representing, Install, AppliedTokens, LiveSource;
    var t := a[i];
    if !PreparedTarget(t) || Stale(a, t) { return; }
    if AppliedTokens(a, SourceLayer(a, t)) <= LimitOf(SourceLayer(a, t)) { return; }
    LayerIsTwo(n, a, i);
    NotStaleInstallable(n, a, i);
    InstallShape(n, a, i);
  }

  /** The target at `i`, once settled, does not wait. */
  lemma SettledWaitsNot(n: nat, a: seq<Chunk>, i: nat, layer: nat)
    requires Formed(n, a) && Representing(a) && i < |a|
    ensures !Waits(SettleTarget(a, i), i, layer)
  {
    var b := SettleTarget(a, i);
    if !PreparedTarget(a[i]) { return; }
    TargetSettles(n, a, i);
    hide Formed, Representing, SettleTarget, LayerTokens, LiveIn;
    if exists l: nat :: LiveIn(a, a[i], l) {
      var l: nat :| LiveIn(a, a[i], l);
      if LayerTokens(a, l) > Allowance(l) { return; }
    }
  }

  /** Settling the target at `i` leaves an earlier one waiting only on layer 2, and
      only by having been installed. */
  lemma EarlierWaits(n: nat, a: seq<Chunk>, i: nat, k: nat, layer: nat)
    requires Formed(n, a) && Representing(a) && k < i < |a| && !Waits(a, k, layer) && Waits(SettleTarget(a, i), k, layer)
    ensures layer == 2 && PreparedTarget(a[i]) && Covering(SettleTarget(a, i)[i])
  {
    var b := SettleTarget(a, i);
    SettleIsStep(n, a, i);
    FormedLayers(n, a);
    hide Formed, Representing, SettleTarget, LayerTokens, LiveIn;
    if forall h :: 0 <= h < |a| && b[h].status == Applied && b[h].layer == layer ==> a[h].status == Applied {
      TokensFall(a, b, layer);
      StillLive(a, b, a[k], b[k], layer);
    }
    var h :| 0 <= h < |a| && b[h].status == Applied && b[h].layer == layer && a[h].status != Applied;
  }

  lemma FormedLayers(n: nat, a: seq<Chunk>)
    requires Formed(n, a)
    ensures forall k :: 0 <= k < |a| ==> a[k].layer == 1 || a[k].layer == 2
  {
  }

  /** Nothing before `i` waits, but for a later target installed since `a0`. */
  ghost predicate NoneWaits(a0: seq<Chunk>, a: seq<Chunk>, i: nat) {
    && |a0| == |a|
    && (forall k :: i <= k < |a| && PreparedTarget(a[k]) ==> PreparedTarget(a0[k]))
    && (forall k: nat, layer: nat :: k < i && Waits(a, k, layer) ==> layer == 2 && LaterInstalled(a0, a, k))
  }

  lemma StillInstalled(a0: seq<Chunk>, a: seq<Chunk>, b: seq<Chunk>, i: nat, k: nat)
    requires StepOf(a, b, i) && |a0| == |a| && LaterInstalled(a0, a, k)
    ensures LaterInstalled(a0, b, k)
  {
    var j :| k < j < |a0| && PreparedTarget(a0[j]) && Covering(a[j]);
    assert Covering(b[j]);
  }

  lemma WaitsBehind(n: nat, a0: seq<Chunk>, a: seq<Chunk>, i: nat, k: nat, layer: nat)
    requires Formed(n, a) && Representing(a) && i < |a| && NoneWaits(a0, a, i) && k < i + 1 && Waits(SettleTarget(a, i), k, layer)
    ensures layer == 2 && LaterInstalled(a0, SettleTarget(a, i), k)
  {
    hide Formed, Representing, SettleTarget, Waits, StepOf;
    SettleIsStep(n, a, i);
    if k == i {
      SettledWaitsNot(n, a, i, layer);
    } else if Waits(a, k, layer) {
      StillInstalled(a0, a, SettleTarget(a, i), i, k);
    } else {
      EarlierWaits(n, a, i, k, layer);
      assert PreparedTarget(a0[i]) && Covering(SettleTarget(a, i)[i]);
    }
  }

  lemma NoneWaitsStep(n: nat, a0: seq<Chunk>, a: seq<Chunk>, i: nat)
    requires Formed(n, a) && Representing(a) && i < |a| && NoneWaits(a0, a, i)
    ensures NoneWaits(a0, SettleTarget(a, i), i + 1)
  {
    hide Formed, Representing, SettleTarget, Waits, LaterInstalled;
    SettleIsStep(n, a, i);
    forall k: nat, layer: nat | k < i + 1 && Waits(SettleTarget(a, i), k, layer)
      ensures layer == 2 && LaterInstalled(a0, SettleTarget(a, i), k)
    {
      WaitsBehind(n, a0, a, i, k, layer);
    }
  }

  lemma {:induction false} SettlingLeaves(n: nat, a0: seq<Chunk>, a: seq<Chunk>, i: nat)
    requires Formed(n, a) && Representing(a) && i <= |a| && NoneWaits(a0, a, i)
    ensures var b := SettleTargets(a, i); NoneWaits(a0, b, |b|)
    decreases |a| - i
  {
    hide Formed, Representing, NoneWaits, SettleTarget;
    if i == |a| { return; }
    NoneWaitsStep(n, a0, a, i);
    SettleTargetKeeps(n, a, i);
    SettlingLeaves(n, a0, SettleTarget(a, i), i + 1);
  }

  /** After the targets are settled none that could be installed is left waiting over
      its layer's allowance, unless it consumes layer 2 and a later target was just
      installed onto that layer. */
  lemma PassSettles(n: nat, a: seq<Chunk>, k: nat, layer: nat)
    requires Formed(n, a) && Representing(a) && Waits(SettleTargets(a, 0), k, layer)
    ensures layer == 2 && LaterInstalled(a, SettleTargets(a, 0), k)
  {
    hide Formed, Representing, SettleTargets, LiveIn, LayerTokens;
    SettlingLeaves(n, a, a, 0);
    var b := SettleTargets(a, 0);
    assert k < |b| && Waits(b, k, layer);
  }

  lemma AppendWaits(b: seq<Chunk>, t: Chunk, k: nat, layer: nat)
    requires t.status == Sealed && Waits(b + [t], k, layer)
    ensures Waits(b, k, layer)
  {
    var c := b + [t];
    LayerTokensSnoc(b, t, layer);
    assert k < |b| && c[k] == b[k];
    forall m | 0 <= m < |b[k].sources| ensures AppliedNum(b, b[k].sources[m], layer) {
      assert AppliedNum(c, c[k].sources[m], layer);
      var h :| 0 <= h < |c| && c[h].num == b[k].sources[m] && c[h].status == Applied && c[h].layer == layer;
      assert b[h] == c[h];
    }
  }

  lemma CreateWaits(b: seq<Chunk>, k: nat, layer: nat)
    requires Waits(CreateTarget(b), k, layer)
    ensures Waits(b, k, layer)
  {
    hide Waits, RunOf, NextNum, Shrunk, Nums;
    if !Busy(b) && RunOf(b, 1).Some? { AppendWaits(b, TargetFor(b, RunOf(b, 1).value), k, layer); return; }
    if !Busy(b) && RunOf(b, 2).Some? { AppendWaits(b, TargetFor(b, RunOf(b, 2).value), k, layer); }
  }

  lemma ApplyKeepsTargets(a: seq<Chunk>, live: int, j: nat)
    requires j < |a|
    ensures |ApplyRaw(a, live, 0)| == |a| && (PreparedTarget(ApplyRaw(a, live, 0)[j]) ==> PreparedTarget(a[j]))
  {
    AppliesExactly(a, live, 0);
    hide ApplyRaw;
  }

  /** On any memory a whole pass leaves a target that could be installed waiting only
      on layer 2, behind a later target that the pass installed onto it. */
  lemma MaintainSettles(m: Memory, k: nat, layer: nat)
    requires Inv(m) && Waits(Maintain(m).chunks, k, layer)
    ensures layer == 2
    ensures exists j :: k < j < |m.chunks| && j < |Maintain(m).chunks| && PreparedTarget(m.chunks[j]) && Covering(Maintain(m).chunks[j])
  {
    hide Formed, Representing, SealWalk, ApplyRaw, SettleTargets, CreateTarget, Covered, RawTokens, NextNum, Waits;
    SealKeeps(m);
    SealKeepsLog(m);
    var sealed, n := SealTail(m), |m.log|;
    var live := SealWalk(Tail(m)).tokens + RawTokens(sealed.chunks);
    var a := ApplyRaw(sealed.chunks, live, 0);
    ApplyRawKeeps(n, sealed.chunks, live, 0);
    var b := SettleTargets(a, 0);
    CreateWaits(b, k, layer);
    PassSettles(n, a, k, layer);
    var j :| k < j < |a| && PreparedTarget(a[j]) && Covering(b[j]);
    ApplyRawShape(sealed.chunks, live, 0);
    ApplyKeepsTargets(sealed.chunks, live, j);
    assert j < |m.chunks| by { NewIsSealed(m, j); }
    CreateExtends(b);
  }

  lemma NewIsSealed(m: Memory, j: nat)
    requires j < |SealTail(m).chunks| && PreparedTarget(SealTail(m).chunks[j])
    ensures j < |m.chunks| && SealTail(m).chunks[j] == m.chunks[j]
  {
    hide SealWalk, Covered, NextNum;
  }

  lemma CreateExtends(b: seq<Chunk>)
    ensures b <= CreateTarget(b)
  {
    hide RunOf, NextNum, Shrunk, Nums;
  }

  // ---------------------------------------------------------- how much is applied

  /** Of the prepared raw chunks from `i` on, the oldest were applied, and no more than
      it took: without the last of them what renders raw is over 40,000 tokens. */
  ghost predicate NoMoreThanNeeded(a: seq<Chunk>, b: seq<Chunk>, raw: int, i: nat) {
    && |a| <= |b|
    && (raw <= LIVE || forall k :: i <= k < |a| ==> !Applicable(b[k]))
    && (forall j, k :: i <= j < k < |a| && Applicable(a[j]) && Applicable(a[k]) && Covering(b[k]) ==> Covering(b[j]))
    && (forall k :: i <= k < |a| && LastApplied(a, b, k) ==> raw + a[k].tokens > LIVE)
  }

  ghost predicate LastApplied(a: seq<Chunk>, b: seq<Chunk>, k: nat)
    requires k < |a| <= |b|
  {
    Applicable(a[k]) && Covering(b[k]) && forall j :: k < j < |a| && Applicable(a[j]) ==> !Covering(b[j])
  }

  lemma {:induction false} ApplyRawStops(a: seq<Chunk>, rest: nat, i: nat)
    requires i <= |a|
    ensures var b := ApplyRaw(a, rest + RawTokens(a), i); NoMoreThanNeeded(a, b, rest + RawTokens(b), i)
    decreases |a| - i
  {
    hide NoMoreThanNeeded, AppliedWhileOver, RawTokens;
    if i == |a| { NoneLeft(a, rest + RawTokens(a)); return; }
    var b := ApplyRaw(a, rest + RawTokens(a), i);
    if rest + RawTokens(a) > LIVE_LIMIT && Applicable(a[i]) {
      var a1 := Marked(a, i, Applied);
      RawUpdate(a, i, a[i].(status := Applied));
      assert b == ApplyRaw(a1, rest + RawTokens(a1), i + 1);
      hide ApplyRaw, Marked;
      ApplyRawStops(a1, rest, i + 1);
      AppliesExactly(a1, rest + RawTokens(a1), i + 1);
      NeededFirst(a, a1, b, rest, i);
    } else if Applicable(a[i]) {
      AppliesNothing(a, rest + RawTokens(a), i + 1);
      NothingNeeded(a, rest + RawTokens(a), i);
    } else {
      assert b == ApplyRaw(a, rest + RawTokens(a), i + 1);
      hide ApplyRaw;
      ApplyRawStops(a, rest, i + 1);
      AppliesExactly(a, rest + RawTokens(a), i + 1);
      NotConcerned(a, b, rest + RawTokens(a), rest + RawTokens(b), i);
    }
  }

  lemma NoneLeft(a: seq<Chunk>, raw: int)
    ensures NoMoreThanNeeded(a, a, raw, |a|)
  {
  }

  /** Within the limit nothing is applied. */
  lemma NothingNeeded(a: seq<Chunk>, raw: int, i: nat)
    requires raw <= LIVE
    ensures NoMoreThanNeeded(a, a, raw, i)
  {
  }

  lemma NotConcerned(a: seq<Chunk>, b: seq<Chunk>, live: int, raw: int, i: nat)
    requires i < |a| && !Applicable(a[i]) && NoMoreThanNeeded(a, b, raw, i + 1) && AppliedWhileOver(a, b, live, i + 1)
    ensures NoMoreThanNeeded(a, b, raw, i)
  {
    hide Freed;
    assert b[i] == a[i];
  }

  lemma {:induction false} AppliesNothing(a: seq<Chunk>, live: int, i: nat)
    requires i <= |a| && live <= LIVE
    ensures ApplyRaw(a, live, i) == a
    decreases |a| - i
  {
    if i < |a| { AppliesNothing(a, live, i + 1); }
  }

  lemma NeededFirst(a: seq<Chunk>, a1: seq<Chunk>, b: seq<Chunk>, rest: nat, i: nat)
    requires i < |a| && Applicable(a[i]) && a1 == Marked(a, i, Applied) && rest + RawTokens(a) > LIVE
    requires RawTokens(a1) == RawTokens(a) - a[i].tokens
    requires NoMoreThanNeeded(a1, b, rest + RawTokens(b), i + 1) && AppliedWhileOver(a1, b, rest + RawTokens(a1), i + 1)
    ensures NoMoreThanNeeded(a, b, rest + RawTokens(b), i)
  {
    hide NoMoreThanNeeded, RawTokens, AppliedWhileOver, LastApplied;
    FirstIsApplied(a1, b, rest + RawTokens(a1), i);
    if LastApplied(a, b, i) { OnlyFirst(a, a1, b, rest + RawTokens(a1), i); }
    NeededAfter(a, a1, b, rest + RawTokens(b), i);
  }

  lemma FirstIsApplied(a: seq<Chunk>, b: seq<Chunk>, live: int, i: nat)
    requires i < |a| && AppliedWhileOver(a, b, live, i + 1)
    ensures |b| == |a| && b[i] == a[i]
  {
    hide Freed;
  }

  lemma OnlyFirst(a: seq<Chunk>, a1: seq<Chunk>, b: seq<Chunk>, live: int, i: nat)
    requires i < |a| <= |b| && a1 == Marked(a, i, Applied) && AppliedWhileOver(a1, b, live, i + 1) && LastApplied(a, b, i)
    ensures b == a1
  {
    hide Freed, AppliedWhileOver;
    assert forall j :: i < j < |a| ==> a1[j] == a[j];
    AllSame(a1, b, live, i);
  }

  lemma NeededAfter(a: seq<Chunk>, a1: seq<Chunk>, b: seq<Chunk>, raw: int, i: nat)
    requires i < |a| && Applicable(a[i]) && a1 == Marked(a, i, Applied) && NoMoreThanNeeded(a1, b, raw, i + 1) && b[i] == a1[i]
    requires LastApplied(a, b, i) ==> raw + a[i].tokens > LIVE
    ensures NoMoreThanNeeded(a, b, raw, i)
  {
    assert forall k :: i < k < |a| ==> a1[k] == a[k];
    forall k | i < k < |a| && LastApplied(a, b, k) ensures LastApplied(a1, b, k) { }
    hide LastApplied;
  }

  lemma AllSame(a: seq<Chunk>, b: seq<Chunk>, live: int, i: nat)
    requires i < |a| && AppliedWhileOver(a, b, live, i + 1)
    requires forall j :: i < j < |a| && Applicable(a[j]) ==> !Covering(b[j])
    ensures b == a
  {
    hide Freed;
  }

  /** Raw chunks stay as they are, but that applied ones may be superseded. */
  ghost predicate RawStays(a: seq<Chunk>, b: seq<Chunk>) {
    && |a| <= |b| && (forall k :: |a| <= k < |b| ==> b[k].layer != 1)
    && (forall k :: 0 <= k < |a| ==>
          && b[k].layer == a[k].layer && (a[k].layer == 1 && !Covering(a[k]) ==> b[k] == a[k])
          && (Covering(a[k]) ==> Covering(b[k])))
  }

  lemma {:induction false} RawStaysTokens(a: seq<Chunk>, b: seq<Chunk>)
    requires RawStays(a, b)
    ensures RawTokens(b) == RawTokens(a)
    decreases |b|
  {
    if b == [] { return; }
    var n := |b| - 1;
    if |b| > |a| { RawStaysTokens(a, b[..n]); return; }
    RawStaysTokens(a[..n], b[..n]);
  }

  lemma SettleRawStays(n: nat, a: seq<Chunk>, i: nat)
    requires Formed(n, a) && Representing(a) && i < |a|
    ensures |SettleTarget(a, i)| == |a| && RawStays(a, SettleTarget(a, i))
  {
    hide Formed, Representing, Install, AppliedTokens, LiveSource;
    var t := a[i];
    if !PreparedTarget(t) || Stale(a, t) { return; }
    if AppliedTokens(a, SourceLayer(a, t)) <= LimitOf(SourceLayer(a, t)) { return; }
    LayerIsTwo(n, a, i);
    NotStaleInstallable(n, a, i);
    InstallShape(n, a, i);
  }

  lemma {:induction false} SettlingRawStays(n: nat, a: seq<Chunk>, i: nat)
    requires Formed(n, a) && Representing(a) && i <= |a|
    ensures |SettleTargets(a, i)| == |a| && RawStays(a, SettleTargets(a, i))
    decreases |a| - i
  {
    hide Formed, Representing, SettleTarget;
    if i == |a| { return; }
    SettleRawStays(n, a, i);
    SettleTargetKeeps(n, a, i);
    SettlingRawStays(n, SettleTarget(a, i), i + 1);
  }

  lemma NeededStays(a: seq<Chunk>, b: seq<Chunk>, c: seq<Chunk>, raw: int, n: nat)
    requires n <= |a| == |b| && NoMoreThanNeeded(a, b, raw, 0) && RawStays(b, c) && forall k :: 0 <= k < |a| ==> b[k].layer == a[k].layer
    requires forall k :: n <= k < |a| ==> !Applicable(a[k])
    ensures NoMoreThanNeeded(a[..n], c, raw, 0)
  {
    forall k | 0 <= k < |a| && Applicable(a[k]) ensures Covering(c[k]) <==> Covering(b[k]) { }
  }

  lemma SealedAreNot(m: Memory)
    ensures var chunks := SealTail(m).chunks;
            && m.chunks <= chunks && forall k :: |m.chunks| <= k < |chunks| ==> !Applicable(chunks[k])
  {
    hide SealWalk, Covered, NextNum;
  }

  lemma PassCovers(m: Memory)
    requires Inv(m)
    ensures Maintain(m).log == SealTail(m).log == m.log && Covered(Maintain(m).chunks) == Covered(SealTail(m).chunks)
  {
    hide Formed, Representing, Size, SealWalk, ApplyRaw, SettleTargets, CreateTarget, Covered, RawTokens, Shrank, SealedChunks, Tail;
    SealKeeps(m);
    PassShrinks(|m.log|, SealTail(m).chunks, SealWalk(Tail(m)).tokens + RawTokens(SealTail(m).chunks));
  }

  lemma PassTail(m: Memory)
    requires Inv(m)
    ensures Inv(SealTail(m)) && SealTail(m).log == m.log
    ensures Tail(Maintain(m)) == Tail(SealTail(m)) && SumTokens(Tail(Maintain(m))) == SealWalk(Tail(m)).tokens
  {
    hide Inv, Maintain, SealTail, SealWalk, Covered, SumTokens;
    SealKeeps(m);
    SealKeepsEstimate(m);
    PassCovers(m);
  }

  lemma PassNeeds(m: Memory)
    requires Inv(m)
    ensures var m' := Maintain(m); NoMoreThanNeeded(m.chunks, m'.chunks, SumTokens(Tail(m')) + RawTokens(m'.chunks), 0)
  {
    hide Formed, Representing, SealWalk, ApplyRaw, SettleTargets, CreateTarget, SealTail, Tail, RawTokens, SumTokens, NoMoreThanNeeded,
         RawStays, Covered, Size;
    PassTail(m);
    var sealed, n, rest := SealTail(m).chunks, |m.log|, SealWalk(Tail(m)).tokens;
    var live := rest + RawTokens(sealed);
    var a := ApplyRaw(sealed, live, 0);
    ApplyRawStops(sealed, rest, 0);
    ApplyRawKeeps(n, sealed, live, 0);
    ApplyRawShape(sealed, live, 0);
    assert forall k :: 0 <= k < |a| ==> SameChunk(sealed[k], a[k]);
    SettlingRawStays(n, a, 0);
    SettleTargetsKeeps(n, a, 0);
    var b := SettleTargets(a, 0);
    CreateKeepsEstimate(n, b);
    var c := CreateTarget(b);
    assert RawStays(a, c) by { RawStaysOn(a, b, c); }
    RawStaysTokens(a, c);
    SealedAreNot(m);
    assert sealed[..|m.chunks|] == m.chunks;
    NeededStays(sealed, a, c, rest + RawTokens(a), |m.chunks|);
  }

  lemma RawStaysOn(a: seq<Chunk>, b: seq<Chunk>, c: seq<Chunk>)
    requires RawStays(a, b) && |a| == |b| && b <= c && forall k :: |b| <= k < |c| ==> c[k].layer == 2
    ensures RawStays(a, c)
  {
    assert forall k :: 0 <= k < |b| ==> c[k] == b[k];
  }

  /** On every run a pass applies prepared raw chunks oldest first until what it sends
      raw is within 40,000 tokens or none is left, and none that this did not take. */
  lemma PassDrains(steps: seq<Step>)
    ensures var m, m' := Exec(steps), Maintain(Exec(steps));
            NoMoreThanNeeded(m.chunks, m'.chunks, RawSum(m', |m'.log|), 0)
  {
    hide WeighsRecords, Inv, Maintain, RawSum, NoMoreThanNeeded, Tail, SumTokens, RawTokens;
    var m := Exec(steps);
    RunKeeps(steps);
    RunWeighs(steps);
    MaintainKeeps(m);
    MaintainWeighs(m);
    EstimateIsWhatIsSent(Maintain(m));
    PassNeeds(m);
  }

  // ------------------------------------------------------- one target in flight

  predicate InFlight(c: Chunk) { c.layer >= 2 && (c.status == Sealed || c.status == Preparing || c.status == Prepared) }

  ghost predicate OneOpen(a: seq<Chunk>) {
    forall i, j :: 0 <= i < j < |a| && InFlight(a[i]) ==> !InFlight(a[j])
  }

  /** No open target in `b` that was not open in `a`. */
  ghost predicate NoneOpened(a: seq<Chunk>, b: seq<Chunk>) {
    |a| <= |b| && forall k :: 0 <= k < |b| && InFlight(b[k]) ==> k < |a| && InFlight(a[k])
  }

  lemma SettleOpensNone(n: nat, a: seq<Chunk>, i: nat)
    requires Formed(n, a) && Representing(a) && i < |a|
    ensures |SettleTarget(a, i)| == |a| && NoneOpened(a, SettleTarget(a, i))
  {
    hide Formed, Representing, Install, AppliedTokens, LiveSource;
    var t := a[i];
    if !PreparedTarget(t) || Stale(a, t) { return; }
    if AppliedTokens(a, SourceLayer(a, t)) <= LimitOf(SourceLayer(a, t)) { return; }
    LayerIsTwo(n, a, i);
    NotStaleInstallable(n, a, i);
    InstallShape(n, a, i);
  }

  lemma {:induction false} SettlingOpensNone(n: nat, a: seq<Chunk>, i: nat)
    requires Formed(n, a) && Representing(a) && i <= |a|
    ensures |SettleTargets(a, i)| == |a| && NoneOpened(a, SettleTargets(a, i))
    decreases |a| - i
  {
    hide Formed, Representing, SettleTarget;
    if i == |a| { return; }
    SettleOpensNone(n, a, i);
    SettleTargetKeeps(n, a, i);
    SettlingOpensNone(n, SettleTarget(a, i), i + 1);
  }

  lemma AppliesNoneOpen(a: seq<Chunk>, live: int)
    ensures |ApplyRaw(a, live, 0)| == |a| && NoneOpened(a, ApplyRaw(a, live, 0))
  {
    AppliesExactly(a, live, 0);
    hide ApplyRaw;
  }

  lemma SealOpensNone(m: Memory)
    ensures NoneOpened(m.chunks, SealTail(m).chunks)
  {
    hide SealWalk, Covered, NextNum;
  }

  lemma CreateOneOpen(b: seq<Chunk>)
    requires OneOpen(b)
    ensures OneOpen(CreateTarget(b))
  {
    hide RunOf, NextNum, Shrunk, Nums;
    if !Busy(b) {
      assert forall k :: 0 <= k < |b| ==> !InFlight(b[k]);
    }
  }

  /** A pass leaves at most one target in flight where it found at most one. */
  lemma MaintainOneOpen(m: Memory)
    requires Inv(m) && OneOpen(m.chunks)
    ensures OneOpen(Maintain(m).chunks)
  {
    hide Formed, Representing, SealWalk, ApplyRaw, SettleTargets, CreateTarget, Covered, RawTokens, NextNum;
    SealKeeps(m);
    SealKeepsLog(m);
    SealOpensNone(m);
    var sealed, n := SealTail(m), |m.log|;
    var live := SealWalk(Tail(m)).tokens + RawTokens(sealed.chunks);
    var a := ApplyRaw(sealed.chunks, live, 0);
    ApplyRawKeeps(n, sealed.chunks, live, 0);
    AppliesNoneOpen(sealed.chunks, live);
    SettlingOpensNone(n, a, 0);
    CreateOneOpen(SettleTargets(a, 0));
  }

  /** Only chunks of records are taken up again after they were kept raw. */
  ghost predicate KeptTargetsStay(steps: seq<Step>) {
    forall k :: 0 <= k < |steps| && steps[k].Reopened? ==>
      var chunks := Exec(steps[..k]).chunks;
      steps[k].i < |chunks| ==> chunks[steps[k].i].layer < 2
  }

  lemma StepOneOpen(m: Memory, step: Step)
    requires Inv(m) && OneOpen(m.chunks)
    requires step.Reopened? && step.i < |m.chunks| ==> m.chunks[step.i].layer < 2
    ensures OneOpen(Apply(m, step).chunks)
  {
    hide Inv, Maintain;
    if step == Maintained { MaintainOneOpen(m); return; }
    var a, b := m.chunks, Apply(m, step).chunks;
    assert forall k :: 0 <= k < |a| ==> InFlight(b[k]) ==> InFlight(a[k]);
  }

  /** On such runs one target is in flight at a time. */
  lemma {:induction false} OneInFlight(steps: seq<Step>)
    requires KeptTargetsStay(steps)
    ensures OneOpen(Exec(steps).chunks)
  {
    if steps == [] { return; }
    hide Inv, Apply, OneOpen;
    var n := |steps| - 1;
    assert forall k :: 0 <= k < n ==> steps[..n][k] == steps[k] && steps[..n][..k] == steps[..k];
    OneInFlight(steps[..n]);
    RunKeeps(steps[..n]);
    StepOneOpen(Exec(steps[..n]), steps[n]);
  }

  /** And there a pass leaves no target that could be installed. */
  lemma PassInstallsAll(steps: seq<Step>, k: nat, layer: nat)
    requires KeptTargetsStay(steps)
    ensures !Waits(Maintain(Exec(steps)).chunks, k, layer)
  {
    var m := Exec(steps);
    OneInFlight(steps);
    RunKeeps(steps);
    if Waits(Maintain(m).chunks, k, layer) {
      hide Inv, Exec, Maintain, LiveIn, LayerTokens;
      MaintainSettles(m, k, layer);
      WaitsWasOpen(m, k, layer);
    }
  }

  lemma WaitsWasOpen(m: Memory, k: nat, layer: nat)
    requires Inv(m) && Waits(Maintain(m).chunks, k, layer)
    ensures k < |m.chunks| && InFlight(m.chunks[k])
  {
    hide Formed, Representing, SealWalk, ApplyRaw, SettleTargets, CreateTarget, Covered, RawTokens, NextNum, LiveIn, LayerTokens;
    SealKeeps(m);
    SealKeepsLog(m);
    SealOpensNone(m);
    var sealed, n := SealTail(m), |m.log|;
    var live := SealWalk(Tail(m)).tokens + RawTokens(sealed.chunks);
    var a := ApplyRaw(sealed.chunks, live, 0);
    ApplyRawKeeps(n, sealed.chunks, live, 0);
    AppliesNoneOpen(sealed.chunks, live);
    SettlingOpensNone(n, a, 0);
    CreateWaits(SettleTargets(a, 0), k, layer);
  }

  // ------------------------------------------------------ two targets in flight

  lemma {:induction false} NothingToSettle(a: seq<Chunk>, i: nat, j: nat)
    requires i <= j <= |a| && forall k :: i <= k < j ==> !PreparedTarget(a[k])
    ensures SettleTargets(a, i) == SettleTargets(a, j)
    decreases j - i
  {
    if i < j { NothingToSettle(a, i + 1, j); }
  }

  lemma {:induction false} TokensRise(a: seq<Chunk>, b: seq<Chunk>, j: nat, layer: nat)
    requires |a| == |b| && j < |a| && a[j].status != Applied && b[j] == a[j].(status := Applied) && a[j].layer == layer
    requires forall k :: 0 <= k < |a| && k != j ==>
               b[k].layer == a[k].layer && b[k].shrunk == a[k].shrunk && (a[k].layer == layer ==> b[k] == a[k])
    ensures LayerTokens(b, layer) == LayerTokens(a, layer) + a[j].shrunk
  {
    assert forall k :: 0 <= k < |a[1..]| ==> a[1..][k] == a[k + 1] && b[1..][k] == b[k + 1];
    if j > 0 { TokensRise(a[1..], b[1..], j - 1, layer); return; }
    TokensFall(a[1..], b[1..], layer);
    TokensFall(b[1..], a[1..], layer);
  }

  lemma SourceIsOnLayer(a: seq<Chunk>, t: Chunk, layer: nat, k: nat)
    requires Ordered(a) && LiveIn(a, t, layer) && k < |a| && a[k].num in t.sources
    ensures a[k].layer == layer
  {
    var s :| 0 <= s < |t.sources| && t.sources[s] == a[k].num;
    assert AppliedNum(a, t.sources[s], layer);
  }

  lemma UpperStays(n: nat, a: seq<Chunk>, j: nat)
    requires Formed(n, a) && Representing(a) && j < |a| && PreparedTarget(a[j])
    requires LiveIn(a, a[j], 1) && LayerTokens(a, 1) > 15_000
    ensures var b := SettleTarget(a, j);
            && |b| == |a| && b[j] == a[j].(status := Applied) && a[j].layer == 2
            && forall k :: 0 <= k < |a| && k != j ==>
                 b[k].layer == a[k].layer && b[k].shrunk == a[k].shrunk && (a[k].layer == 2 ==> b[k] == a[k])
  {
    var b := SettleTarget(a, j);
    TargetSettles(n, a, j);
    FormedLayers(n, a);
    assert Ordered(a);
    hide Formed, Representing, SettleTarget, LayerTokens, LiveIn, Ordered;
    forall k | 0 <= k < |a| && a[k].num in a[j].sources ensures a[k].layer == 1 { SourceIsOnLayer(a, a[j], 1, k); }
  }

  /** Installing a target over layer 1 disturbs nothing on layer 2 but adds itself. */
  lemma UpperGains(n: nat, a: seq<Chunk>, j: nat)
    requires Formed(n, a) && Representing(a) && j < |a| && PreparedTarget(a[j])
    requires LiveIn(a, a[j], 1) && LayerTokens(a, 1) > 15_000
    ensures var b := SettleTarget(a, j);
            && LayerTokens(b, 2) == LayerTokens(a, 2) + a[j].shrunk
            && forall t :: LiveIn(a, t, 2) ==> LiveIn(b, t, 2)
  {
    var b := SettleTarget(a, j);
    UpperStays(n, a, j);
    hide Formed, SettleTarget, Representing, LayerTokens;
    TokensRise(a, b, j, 2);
    forall t | LiveIn(a, t, 2) ensures LiveIn(b, t, 2) {
      forall s | 0 <= s < |t.sources| ensures AppliedNum(b, t.sources[s], 2) {
        assert AppliedNum(a, t.sources[s], 2);
        var k :| 0 <= k < |a| && a[k].num == t.sources[s] && a[k].status == Applied && a[k].layer == 2;
        assert b[k] == a[k];
      }
    }
  }

  /** With two prepared targets the earlier one, over layer 2, is left waiting exactly
      when layer 2 was within its allowance and the later one, installed from a layer
      1 over its own, takes it over. */
  lemma TwoWaitIff(n: nat, a: seq<Chunk>, k: nat, j: nat)
    requires Formed(n, a) && Representing(a) && k < j < |a| && PreparedTarget(a[k]) && PreparedTarget(a[j])
    requires forall i :: 0 <= i < |a| && PreparedTarget(a[i]) ==> i == k || i == j
    requires LiveIn(a, a[k], 2)
    ensures Waits(SettleTargets(a, 0), k, 2) <==>
            && LayerTokens(a, 2) <= 10_000 < LayerTokens(a, 2) + a[j].shrunk
            && LiveIn(a, a[j], 1) && LayerTokens(a, 1) > 15_000
  {
    hide Formed, Representing, SettleTarget, LayerTokens, LiveIn;
    NothingToSettle(a, 0, k);
    var c := SettleTarget(a, k);
    SettleTargetKeeps(n, a, k);
    SettleIsStep(n, a, k);
    TargetSettles(n, a, k);
    NothingToSettle(c, k + 1, j);
    var b := SettleTarget(c, j);
    SettleIsStep(n, c, j);
    NothingToSettle(b, j + 1, |b|);
    assert SettleTargets(a, 0) == b;
    if LayerTokens(a, 2) > 10_000 { return; }
    assert c == a;
    TargetSettles(n, a, j);
    if LiveIn(a, a[j], 1) && LayerTokens(a, 1) > 15_000 {
      FormedLayers(n, a);
      UpperStays(n, a, j);
      UpperGains(n, a, j);
      assert b[k] == a[k];
    } else if LiveIn(a, a[j], 1) || LiveIn(a, a[j], 2) {
      assert b == a;
    } else {
      assert forall layer: nat :: !LiveIn(a, a[j], layer) by { LayersLive(a, a[j]); }
      TokensFall(a, b, 2);
    }
  }

  lemma LayersLive(a: seq<Chunk>, t: Chunk)
    ensures forall layer: nat :: LiveIn(a, t, layer) ==> layer == 1 || layer == 2
  {
  }

  /** A block of 8,000 tokens on layer 2 with its prepared target, and an applied
      chunk of 16,000 on layer 1 with its own. */
  function TwoTargets(): seq<Chunk> {
    [Chunk(1, 1, [], 1, 1, 20_000, Superseded, None, 9_000), Chunk(2, 2, [1], 1, 1, 9_000, Applied, None, 8_000),
     Chunk(3, 2, [2], 1, 1, 8_000, Prepared, None, 1_000), Chunk(4, 1, [], 2, 2, 20_000, Applied, None, 16_000),
     Chunk(5, 2, [4], 2, 2, 16_000, Prepared, None, 5_000)]
  }

  lemma TwoTargetsTokens(a: seq<Chunk>)
    requires a == TwoTargets()
    ensures LayerTokens(a, 1) == 16_000 && LayerTokens(a, 2) == 8_000
  {
    assert a[1..][1..] == a[2..] && a[2..][1..] == a[3..] && a[3..][1..] == a[4..] && a[4..][1..] == [];
    forall layer: nat ensures LayerTokens(a, layer) == (if layer == 2 then 8_000 else 0) + (if layer == 1 then 16_000 else 0) {
      assert LayerTokens(a[4..], layer) == 0;
      assert LayerTokens(a[3..], layer) == if layer == 1 then 16_000 else 0;
      assert LayerTokens(a[2..], layer) == LayerTokens(a[3..], layer);
      assert LayerTokens(a[1..], layer) == LayerTokens(a[2..], layer) + if layer == 2 then 8_000 else 0;
    }
  }

  lemma TwoTargetsSourced(a: seq<Chunk>)
    requires a == TwoTargets()
    ensures AllSourced(a)
  {
    hide Find;
    FindUnique(a, 0);
    FindUnique(a, 1);
    FindUnique(a, 3);
    forall c: Chunk ensures Shrunk([c]) == c.shrunk { assert [c][..0] == []; }
    assert Sources(a, [1]) == [a[0]] && Sources(a, [2]) == [a[1]] && Sources(a, [4]) == [a[3]];
  }

  lemma TwoTargetsSealed(a: seq<Chunk>)
    requires a == TwoTargets()
    ensures NoGap(a) && Covered(a) == 2
  {
    assert In(a[0], 1) && In(a[3], 2);
    assert SealedAt(a, 1) && SealedAt(a, 2);
  }

  lemma TwoTargetsRepresent(a: seq<Chunk>)
    requires a == TwoTargets()
    ensures Representing(a)
  {
    forall x ensures Represented(a, x) <==> 1 <= x <= 2 {
      assert In(a[1], 1) && In(a[3], 2);
    }
    forall x ensures CoveredRaw(a, x) <==> 1 <= x <= 2 {
      assert In(a[0], 1) && In(a[3], 2);
    }
    hide Represented, CoveredRaw;
  }

  lemma TwoTargetsOrdered(a: seq<Chunk>)
    requires a == TwoTargets()
    ensures Ordered(a) && RawDisjoint(a)
  {
    assert forall i :: 0 <= i < 5 ==> a[i].num == i + 1 && a[i].first == a[i].last == if i < 3 then 1 else 2;
    assert a[1].layer == a[2].layer == a[4].layer == 2;
  }

  lemma TwoTargetsShaped(a: seq<Chunk>)
    requires a == TwoTargets()
    ensures Shaped(2, a) && Shrinks(a)
  {
  }

  lemma TwoTargetsFormed(a: seq<Chunk>)
    requires a == TwoTargets()
    ensures Formed(2, a)
  {
    hide AllSourced, NoGap, Covered, TwoTargets, Ordered, Shaped, RawDisjoint, Shrinks;
    TwoTargetsOrdered(a);
    TwoTargetsShaped(a);
    TwoTargetsSourced(a);
    TwoTargetsSealed(a);
  }

  lemma TwoTargetsLive(a: seq<Chunk>)
    requires a == TwoTargets()
    ensures LiveIn(a, a[2], 2) && LiveIn(a, a[4], 1)
  {
    assert a[1].num == a[2].sources[0] && a[3].num == a[4].sources[0];
    assert AppliedNum(a, a[2].sources[0], 2) && AppliedNum(a, a[4].sources[0], 1);
  }

  lemma TwoTargetsWait(a: seq<Chunk>)
    requires a == TwoTargets()
    ensures Waits(SettleTargets(a, 0), 2, 2)
  {
    hide Formed, Representing, SettleTargets, LayerTokens, Waits, LiveIn;
    TwoTargetsFormed(a);
    TwoTargetsRepresent(a);
    TwoTargetsTokens(a);
    TwoTargetsLive(a);
    TwoWaitIff(2, a, 2, 4);
  }

  /** A pass with nothing to seal and no raw chunk to apply settles the targets and,
      one being left, creates none. */
  lemma OnlySettles(m: Memory, k: nat)
    requires Covered(m.chunks) == |m.log| && forall i :: 0 <= i < |m.chunks| ==> m.chunks[i].layer != 1 || m.chunks[i].status != Prepared
    requires k < |SettleTargets(m.chunks, 0)| && PreparedTarget(SettleTargets(m.chunks, 0)[k])
    ensures Maintain(m).chunks == SettleTargets(m.chunks, 0)
  {
    hide Covered, SettleTargets, ApplyRaw, RawTokens;
    assert Tail(m) == [];
    assert SealTail(m).chunks == m.chunks;
    NothingToApply(m.chunks, SealWalk(Tail(m)).tokens + RawTokens(m.chunks), 0);
  }

  /** The allowance can be passed behind a target's back: this memory keeps every
      invariant, and its pass leaves a target that could be installed. */
  lemma LaterInstallLeavesOver(m: Memory)
    requires |m.log| == 2 && m.chunks == TwoTargets()
    ensures Inv(m) && Waits(Maintain(m).chunks, 2, 2)
  {
    hide Formed, Representing, SettleTargets, LayerTokens, LiveIn, Covered, NoGap, Maintain;
    TwoTargetsFormed(m.chunks);
    TwoTargetsRepresent(m.chunks);
    TwoTargetsWait(m.chunks);
    TwoTargetsSealed(m.chunks);
    OnlySettles(m, 2);
  }

  lemma {:induction false} NothingToApply(a: seq<Chunk>, live: int, i: nat)
    requires i <= |a| && forall k :: i <= k < |a| ==> a[k].layer != 1 || a[k].status != Prepared
    ensures ApplyRaw(a, live, i) == a
    decreases |a| - i
  {
    if i < |a| { NothingToApply(a, live, i + 1); }
  }

  // ---------------------------------------------------------- which target comes next

  /** From `lo` the run takes fragments as long as they join on and, unless it takes
      the whole run, until it has consumed `goal`. */
  ghost predicate Greedy(frags: seq<Chunk>, lo: nat, hi: nat, goal: int, whole: bool) {
    && lo < hi <= |frags|
    && (forall k :: lo < k < hi ==> frags[k].first == frags[k - 1].last + 1 && (whole || Shrunk(frags[lo..k]) < goal))
    && (hi == |frags| || frags[hi].first != frags[hi - 1].last + 1 || (!whole && Shrunk(frags[lo..hi]) >= goal))
  }

  lemma ShrunkSnoc(frags: seq<Chunk>, lo: nat, hi: nat)
    requires lo <= hi < |frags|
    ensures Shrunk(frags[lo..hi + 1]) == Shrunk(frags[lo..hi]) + frags[hi].shrunk
  {
    assert frags[lo..hi + 1][..hi - lo] == frags[lo..hi];
  }

  lemma {:induction false} RunEndIsGreedy(frags: seq<Chunk>, lo: nat, hi: nat, consumed: int, goal: int, whole: bool)
    requires lo < hi <= |frags| && consumed == Shrunk(frags[lo..hi])
    requires forall k :: lo < k < hi ==> frags[k].first == frags[k - 1].last + 1 && (whole || Shrunk(frags[lo..k]) < goal)
    ensures Greedy(frags, lo, RunEnd(frags, hi, consumed, goal, whole), goal, whole)
    decreases |frags| - hi
  {
    hide Shrunk;
    if hi < |frags| && frags[hi].first == frags[hi - 1].last + 1 && (whole || consumed < goal) {
      ShrunkSnoc(frags, lo, hi);
      RunEndIsGreedy(frags, lo, hi + 1, consumed + frags[hi].shrunk, goal, whole);
    }
  }

  /** A target of exactly these sources was kept or failed. */
  ghost predicate Judged(a: seq<Chunk>, nums: seq<nat>) {
    exists i :: 0 <= i < |a| && a[i].layer >= 2 && a[i].sources == nums && (a[i].status == Kept || a[i].status == Failed)
  }

  /** `cuts` divides the fragments up to its last entry into greedy runs, all of them
      judged before. */
  ghost predicate Passed(a: seq<Chunk>, frags: seq<Chunk>, cuts: seq<nat>, goal: int, whole: bool) {
    && cuts != [] && cuts[0] == 0
    && (forall k :: 0 <= k < |cuts| ==> cuts[k] <= |frags|)
    && (forall k :: 0 <= k < |cuts| - 1 ==>
          cuts[k] <= cuts[k + 1] && Greedy(frags, cuts[k], cuts[k + 1], goal, whole) && Judged(a, Nums(frags[cuts[k]..cuts[k + 1]])))
  }

  /** The run chosen: the first greedy run that was not judged, if there is one. */
  ghost predicate FirstUnjudged(a: seq<Chunk>, frags: seq<Chunk>, cuts: seq<nat>, goal: int, whole: bool, run: Option<seq<Chunk>>) {
    && Passed(a, frags, cuts, goal, whole)
    && var lo := cuts[|cuts| - 1];
       if run.None? then lo == |frags|
       else exists hi :: lo <= hi <= |frags| && Greedy(frags, lo, hi, goal, whole) && run.value == frags[lo..hi] && !Judged(a, Nums(frags[lo..hi]))
  }

  lemma {:induction false} ChoosesFirst(a: seq<Chunk>, frags: seq<Chunk>, lo: nat, goal: int, whole: bool, before: seq<nat>) returns (cuts: seq<nat>)
    requires Passed(a, frags, before, goal, whole) && lo == before[|before| - 1] <= |frags|
    ensures FirstUnjudged(a, frags, cuts, goal, whole, ChooseRun(a, frags, lo, goal, whole))
    decreases |frags| - lo
  {
    if lo == |frags| { return before; }
    hide RunEnd, Greedy, Shrunk, Judged, Passed;
    assert Greedy(frags, lo, RunEnd(frags, lo + 1, frags[lo].shrunk, goal, whole), goal, whole) by { FirstGreedy(frags, lo, goal, whole); }
    var hi := RunEnd(frags, lo + 1, frags[lo].shrunk, goal, whole);
    SettledIsJudged(a, Nums(frags[lo..hi]));
    if SettledTuple(a, Nums(frags[lo..hi])) {
      PassedSnoc(a, frags, before, hi, goal, whole);
      cuts := ChoosesFirst(a, frags, hi, goal, whole, before + [hi]);
      return;
    }
    return before;
  }

  lemma SettledIsJudged(a: seq<Chunk>, nums: seq<nat>)
    ensures SettledTuple(a, nums) <==> Judged(a, nums)
  {
  }

  lemma FirstGreedy(frags: seq<Chunk>, lo: nat, goal: int, whole: bool)
    requires lo < |frags|
    ensures Greedy(frags, lo, RunEnd(frags, lo + 1, frags[lo].shrunk, goal, whole), goal, whole)
  {
    assert frags[lo..lo + 1][..0] == [];
    assert Shrunk(frags[lo..lo + 1]) == frags[lo].shrunk;
    RunEndIsGreedy(frags, lo, lo + 1, frags[lo].shrunk, goal, whole);
  }

  lemma PassedSnoc(a: seq<Chunk>, frags: seq<Chunk>, cuts: seq<nat>, hi: nat, goal: int, whole: bool)
    requires Passed(a, frags, cuts, goal, whole) && hi <= |frags|
    requires var lo := cuts[|cuts| - 1]; lo <= hi && Greedy(frags, lo, hi, goal, whole) && Judged(a, Nums(frags[lo..hi]))
    ensures Passed(a, frags, cuts + [hi], goal, whole)
  {
    hide Greedy, Judged;
    var more := cuts + [hi];
    forall k | 0 <= k < |more| - 1
      ensures more[k] <= more[k + 1] && Greedy(frags, more[k], more[k + 1], goal, whole) && Judged(a, Nums(frags[more[k]..more[k + 1]]))
    {
      if k < |cuts| - 1 { assert more[k] == cuts[k] && more[k + 1] == cuts[k + 1]; }
    }
  }

  /** The applied chunks of a layer, in the order of their records. */
  ghost predicate InLine(a: seq<Chunk>, layer: nat, frags: seq<Chunk>) {
    && (forall f :: f in frags <==> f in a && f.status == Applied && f.layer == layer)
    && (forall i, j :: 0 <= i < j < |frags| ==> frags[i].last < frags[j].first)
  }

  /** Over its allowance a layer's first unjudged run is chosen: for layer 1 enough
      of it to come down to 11,000, for layer 2 all that joins on. */
  ghost predicate Choice(a: seq<Chunk>, layer: nat, run: Option<seq<Chunk>>) {
    if LayerTokens(a, layer) <= Allowance(layer) then run.None?
    else exists frags ::
           && InLine(a, layer, frags)
           && exists cuts :: FirstRun(a, layer, frags, cuts, run)
  }

  ghost predicate FirstRun(a: seq<Chunk>, layer: nat, frags: seq<Chunk>, cuts: seq<nat>, run: Option<seq<Chunk>>) {
    FirstUnjudged(a, frags, cuts, LayerTokens(a, layer) - (if layer == 1 then 11_000 else 10_000), layer == 2, run)
  }

  lemma RunIsChoice(n: nat, a: seq<Chunk>, layer: nat)
    requires AppliedApart(a) && Shaped(n, a) && (layer == 1 || layer == 2)
    ensures Choice(a, layer, RunOf(a, layer))
  {
    hide ChooseRun, AppliedTokens, LayerTokens, FirstUnjudged, Passed;
    LayerTokensAre(a, layer);
    if LayerTokens(a, layer) <= Allowance(layer) { return; }
    var frags := AppliedInOrder(a, layer);
    var goal := LayerTokens(a, layer) - (if layer == 1 then 11_000 else 10_000);
    InOrderHolds(a, layer);
    InOrder(n, a, layer);
    assert InLine(a, layer, frags) by { SeparatedInLine(n, a, layer, frags); }
    assert Passed(a, frags, [0], goal, layer == 2) by { NonePassed(a, frags, goal, layer == 2); }
    var cuts := ChoosesFirst(a, frags, 0, goal, layer == 2, [0]);
    assert FirstRun(a, layer, frags, cuts, RunOf(a, layer));
  }

  lemma NonePassed(a: seq<Chunk>, frags: seq<Chunk>, goal: int, whole: bool)
    ensures Passed(a, frags, [0], goal, whole)
  {
  }

  lemma SeparatedInLine(n: nat, a: seq<Chunk>, layer: nat, frags: seq<Chunk>)
    requires Shaped(n, a) && (layer == 1 || layer == 2) && Separated(frags)
    requires forall f :: f in frags <==> f in a && AppliedIn(f, layer)
    ensures InLine(a, layer, frags)
  {
  }

  /** A target for the run: a new number, the run's sources and span, and what they
      weigh; sealed, with no replacement yet. */
  ghost predicate TargetOf(a: seq<Chunk>, run: seq<Chunk>, t: Chunk) {
    && run != [] && (forall k :: 0 <= k < |a| ==> a[k].num < t.num)
    && t.layer == 2 && t.status == Sealed && t.replacement.None? && t.sources == Nums(run)
    && t.first == run[0].first && t.last == run[|run| - 1].last && t.tokens == Shrunk(run)
  }

  /** While no target is in flight one is created exactly when a layer over its
      allowance has a run that was not judged, layer 1 before layer 2. */
  lemma CreatesExactly(n: nat, a: seq<Chunk>) returns (one: Option<seq<Chunk>>, two: Option<seq<Chunk>>)
    requires AppliedApart(a) && Shaped(n, a)
    ensures Choice(a, 1, one) && Choice(a, 2, two)
    ensures var b := CreateTarget(a);
            if (exists i :: 0 <= i < |a| && InFlight(a[i])) || (one.None? && two.None?) then b == a
            else |b| == |a| + 1 && b[..|a|] == a && TargetOf(a, if one.Some? then one.value else two.value, b[|a|])
  {
    hide RunOf, NextNum, Shrunk, Choice;
    one, two := RunOf(a, 1), RunOf(a, 2);
    RunIsChoice(n, a, 1);
    RunIsChoice(n, a, 2);
  }

  // ------------------------------------------------------------ how a chunk moves

  /** Every way a chunk's status can change, and the step that does it. */
  predicate ChunkMoves(step: Step, i: nat, a: Chunk, b: Chunk) {
    && b.num == a.num && b.layer == a.layer && b.sources == a.sources && b.first == a.first && b.last == a.last && b.tokens == a.tokens
    && match a.status
       case Sealed => b == a || (step == Claimed(i) && b == a.(status := Preparing))
       case Preparing =>
         || b == a || (step == KeptRaw(i) && b == a.(status := Kept))
         || (step.Shelved? && step.i == i && b.status == Prepared && b.replacement == Some(step.text) && b.shrunk < b.tokens)
       case Prepared =>
         b == a || (&& step.Maintained? && b == a.(status := b.status)
                    && (b.status == Applied || b.status == Superseded || (b.status == Failed && a.layer >= 2)))
       case Applied => b == a || (step.Maintained? && b == a.(status := Superseded))
       case Kept => b == a || (step == Reopened(i) && b == a.(status := Sealed))
       case Failed => b == a
       case Superseded => b == a
  }

  /** A chunk that is settled, failed or not prepared stays as it is while targets are
      settled, but for applied ones that are superseded. */
  predicate Settling(a: Chunk, b: Chunk) {
    && b.num == a.num && b.layer == a.layer && b.sources == a.sources && b.first == a.first && b.last == a.last && b.tokens == a.tokens
    && b.replacement == a.replacement && b.shrunk == a.shrunk
    && match a.status
       case Prepared => b == a || (a.layer >= 2 && b == a.(status := b.status) && b.status in {Applied, Superseded, Failed})
       case Applied => b == a || b == a.(status := Superseded)
       case _ => b == a
  }

  ghost predicate AllSettling(a: seq<Chunk>, b: seq<Chunk>) { |a| == |b| && forall k :: 0 <= k < |a| ==> Settling(a[k], b[k]) }

  lemma SettlingOne(n: nat, a: seq<Chunk>, i: nat)
    requires Formed(n, a) && Representing(a) && i < |a|
    ensures AllSettling(a, SettleTarget(a, i))
  {
    hide Formed, Representing, Install, AppliedTokens, LiveSource;
    var t := a[i];
    if !PreparedTarget(t) || Stale(a, t) { return; }
    if AppliedTokens(a, SourceLayer(a, t)) <= LimitOf(SourceLayer(a, t)) { return; }
    LayerIsTwo(n, a, i);
    NotStaleInstallable(n, a, i);
    InstallShape(n, a, i);
  }

  lemma SettlingTransitive(a: seq<Chunk>, b: seq<Chunk>, c: seq<Chunk>)
    requires AllSettling(a, b) && AllSettling(b, c)
    ensures AllSettling(a, c)
  {
    forall k | 0 <= k < |a| ensures Settling(a[k], c[k]) { assert Settling(a[k], b[k]) && Settling(b[k], c[k]); }
  }

  lemma {:induction false} SettlingAll(n: nat, a: seq<Chunk>, i: nat)
    requires Formed(n, a) && Representing(a) && i <= |a|
    ensures AllSettling(a, SettleTargets(a, i))
    decreases |a| - i
  {
    hide Formed, Representing, SettleTarget;
    if i == |a| { return; }
    SettlingOne(n, a, i);
    SettleTargetKeeps(n, a, i);
    SettlingAll(n, SettleTarget(a, i), i + 1);
    SettlingTransitive(a, SettleTarget(a, i), SettleTargets(a, i));
  }

  lemma MaintainMoves(m: Memory, k: nat)
    requires Inv(m) && k < |m.chunks|
    ensures k < |Maintain(m).chunks| && ChunkMoves(Maintained, k, m.chunks[k], Maintain(m).chunks[k])
  {
    hide Formed, Representing, SealWalk, ApplyRaw, SettleTargets, CreateTarget, Covered, RawTokens, NextNum, SealedChunks;
    SealKeeps(m);
    SealKeepsLog(m);
    var sealed, n := SealTail(m), |m.log|;
    var live := SealWalk(Tail(m)).tokens + RawTokens(sealed.chunks);
    var a := ApplyRaw(sealed.chunks, live, 0);
    AppliesExactly(sealed.chunks, live, 0);
    ApplyRawKeeps(n, sealed.chunks, live, 0);
    SettlingAll(n, a, 0);
    CreateExtends(SettleTargets(a, 0));
    assert sealed.chunks[k] == m.chunks[k];
    assert Settling(a[k], SettleTargets(a, 0)[k]);
  }

  /** Every step moves every chunk as said; only maintenance adds chunks, and adds
      them sealed. */
  lemma ChunksMove(m: Memory, step: Step, k: nat)
    requires Inv(m) && k < |m.chunks|
    ensures k < |Apply(m, step).chunks| && ChunkMoves(step, k, m.chunks[k], Apply(m, step).chunks[k])
    ensures !step.Maintained? ==> |Apply(m, step).chunks| == |m.chunks|
  {
    hide Inv, Maintain;
    if step.Maintained? { MaintainMoves(m, k); }
  }
}
