/** The seal walk: where the unsealed journal tail may be cut into layer-1
    chunks. */
module Sealing {
  import opened Common

  const CHUNK_MIN := 10_000
  const FORCED_LIMIT := 20_000

  datatype Kind = InputReceived | AssistantMessage | ToolCall | ToolResult | Other

  /** A journal record as the walk sees it; record k of a journal has seq k + 1.
      `round` is None when the payload carries none, `callId` when it is missing
      or empty. */
  datatype Entry = Entry(turn: TurnId, input: InputId, kind: Kind, round: Option<int>, callId: Option<int>, tokens: nat)

  datatype RoundKey = RoundKey(turn: TurnId, round: int)

  function KeyOf(e: Entry): Option<RoundKey> {
    if (e.kind == AssistantMessage || e.kind == ToolCall || e.kind == ToolResult) && e.round.Some?
    then Some(RoundKey(e.turn, e.round.value)) else None
  }

  function SumTokens(es: seq<Entry>): nat {
    if es == [] then 0 else SumTokens(es[..|es| - 1]) + es[|es| - 1].tokens
  }

  /** The last position of `tail` in the given round, or -1. */
  function RoundEnd(tail: seq<Entry>, key: RoundKey): (r: int)
    ensures -1 <= r < |tail|
    ensures r >= 0 ==> KeyOf(tail[r]) == Some(key)
    ensures forall j :: r < j < |tail| ==> KeyOf(tail[j]) != Some(key)
  {
    if tail == [] then -1
    else if KeyOf(tail[|tail| - 1]) == Some(key) then |tail| - 1
    else RoundEnd(tail[..|tail| - 1], key)
  }

  /** A sealed window `[lo, hi)` of the tail. */
  datatype Window = Window(lo: nat, hi: nat, tokens: nat)

  /** The walk's variables before position `at`: the open window starts at
      `start` (equal to `at` when none is open). */
  datatype Walking = Walking(
    at: nat, start: nat, tokens: nat, roundEnd: int, pending: set<int>, prev: Option<Kind>, cuts: seq<Window>)

  const WALK_START := Walking(0, 0, 0, -1, {}, None, [])

  /** May the walk cut just before `e`? */
  predicate Cuts(w: Walking, e: Entry) {
    && w.start < w.at && w.pending == {} && w.at > w.roundEnd
    && match e.kind
       case InputReceived => w.tokens >= CHUNK_MIN
       case AssistantMessage => w.tokens > FORCED_LIMIT && w.prev != Some(ToolResult)
       case _ => false
  }

  function Cut(w: Walking): Walking {
    w.(cuts := w.cuts + [Window(w.start, w.at, w.tokens)], start := w.at, tokens := 0)
  }

  function Pending(pending: set<int>, e: Entry): set<int> {
    if e.callId.None? then pending
    else if e.kind == ToolCall then pending + {e.callId.value}
    else if e.kind == ToolResult then pending - {e.callId.value}
    else pending
  }

  function Take(w: Walking, tail: seq<Entry>, e: Entry): Walking {
    var key := KeyOf(e);
    w.(at := w.at + 1, tokens := w.tokens + e.tokens,
       roundEnd := if key.Some? then Max(w.roundEnd, RoundEnd(tail, key.value)) else w.roundEnd,
       pending := Pending(w.pending, e), prev := Some(e.kind))
  }

  function WalkOne(w: Walking, tail: seq<Entry>, e: Entry): Walking {
    if Cuts(w, e) then Take(Cut(w), tail, e) else Take(w, tail, e)
  }

  /** The walk over the first `n` records of the tail. */
  function WalkTo(tail: seq<Entry>, n: nat): Walking
    requires n <= |tail|
  {
    if n == 0 then WALK_START else WalkOne(WalkTo(tail, n - 1), tail, tail[n - 1])
  }

  function SealWalk(tail: seq<Entry>): Walking { WalkTo(tail, |tail|) }

  /** One pass records where each round of the tail ends. */
  method RoundEnds(tail: seq<Entry>) returns (ends: map<RoundKey, int>)
    ensures forall i :: 0 <= i < |tail| && KeyOf(tail[i]).Some? ==>
              KeyOf(tail[i]).value in ends && ends[KeyOf(tail[i]).value] == RoundEnd(tail, KeyOf(tail[i]).value)
  {
    ends := map[];
    var i := 0;
    while i < |tail|
      invariant 0 <= i <= |tail|
      invariant forall key :: key in ends <==> RoundEnd(tail[..i], key) >= 0
      invariant forall key :: key in ends ==> ends[key] == RoundEnd(tail[..i], key)
    {
      assert tail[..i + 1][..i] == tail[..i];
      var key := KeyOf(tail[i]);
      if key.Some? { ends := ends[key.value := i]; }
      i := i + 1;
    }
    assert tail[..|tail|] == tail;
  }

  /** The walk as memoryMaintain runs it: accumulate the window and cut it. */
  method Seal(tail: seq<Entry>) returns (cuts: seq<Window>, rest: nat)
    ensures cuts == SealWalk(tail).cuts && rest == SealWalk(tail).tokens
  {
    var roundEnds := RoundEnds(tail);
    var start: nat, tokens: nat, roundEnd, pending: set<int>, prev: Option<Kind> := 0, 0, -1, {}, None;
    cuts := [];
    var i := 0;
    while i < |tail|
      invariant 0 <= i <= |tail|
      invariant Walking(i, start, tokens, roundEnd, pending, prev, cuts) == WalkTo(tail, i)
    {
      var e := tail[i];
      ghost var w := WalkTo(tail, i);
      var cut := start < i && pending == {} && i > roundEnd
                 && ((e.kind == InputReceived && tokens >= CHUNK_MIN)
                     || (e.kind == AssistantMessage && tokens > FORCED_LIMIT && prev != Some(ToolResult)));
      assert cut <==> Cuts(w, e);
      if cut {
        cuts := cuts + [Window(start, i, tokens)];
        start, tokens := i, 0;
        w := Cut(w);
      }
      assert Walking(i, start, tokens, roundEnd, pending, prev, cuts) == w;
      assert WalkTo(tail, i + 1) == Take(w, tail, e);
      tokens := tokens + e.tokens;
      if e.callId.Some? && e.kind == ToolCall {
        pending := pending + {e.callId.value};
      } else if e.callId.Some? && e.kind == ToolResult {
        pending := pending - {e.callId.value};
      }
      assert pending == Pending(w.pending, e);
      var key := KeyOf(e);
      if key.Some? { roundEnd := Max(roundEnd, roundEnds[key.value]); }
      prev := Some(e.kind);
      i := i + 1;
    }
    rest := tokens;
  }

  // ------------------------------------------------------- what the cuts promise

  /** Windows tile `[0, start)` in order. */
  ghost predicate Tiled(cuts: seq<Window>, start: nat) {
    && (forall c :: 0 <= c < |cuts| ==> cuts[c].lo < cuts[c].hi)
    && (forall c :: 0 < c < |cuts| ==> cuts[c].lo == cuts[c - 1].hi)
    && (if cuts == [] then start == 0 else cuts[0].lo == 0 && cuts[|cuts| - 1].hi == start)
  }

  /** Each window weighs what its records do, and at least the minimum. */
  ghost predicate Weighed(tail: seq<Entry>, cuts: seq<Window>) {
    forall c :: 0 <= c < |cuts| ==>
      && cuts[c].lo <= cuts[c].hi <= |tail|
      && cuts[c].tokens == SumTokens(tail[cuts[c].lo..cuts[c].hi])
      && cuts[c].tokens >= CHUNK_MIN
  }

  /** No (turn, round) group has records on both sides of `b`. */
  ghost predicate RoundWhole(tail: seq<Entry>, b: nat) {
    forall i, j :: 0 <= i < b <= j < |tail| && KeyOf(tail[i]).Some? ==> KeyOf(tail[i]) != KeyOf(tail[j])
  }

  predicate Answers(call: Entry, result: Entry) {
    call.kind == ToolCall && result.kind == ToolResult && call.callId.Some? && call.callId == result.callId
  }

  ghost predicate AnsweredBy(tail: seq<Entry>, i: nat, b: nat)
    requires i < |tail|
  {
    exists r :: i < r < b && r < |tail| && Answers(tail[i], tail[r])
  }

  /** Every call before `b` already has its result before `b`. */
  ghost predicate CallsWhole(tail: seq<Entry>, b: nat) {
    forall i :: 0 <= i < b && i < |tail| && tail[i].kind == ToolCall && tail[i].callId.Some? ==> AnsweredBy(tail, i, b)
  }

  ghost predicate Whole(tail: seq<Entry>, b: nat) { RoundWhole(tail, b) && CallsWhole(tail, b) }

  /** What the walk knows at each position. */
  ghost predicate WalkInv(tail: seq<Entry>, w: Walking) {
    && w.start <= w.at <= |tail|
    && Tiled(w.cuts, w.start) && Weighed(tail, w.cuts)
    && w.tokens == SumTokens(tail[w.start..w.at])
    && (forall i :: 0 <= i < w.at && KeyOf(tail[i]).Some? ==> RoundEnd(tail, KeyOf(tail[i]).value) <= w.roundEnd)
    && PendingCovers(tail, w.at, w.pending)
    && (forall c :: 0 <= c < |w.cuts| ==> Whole(tail, w.cuts[c].hi))
  }

  lemma CutKeeps(tail: seq<Entry>, w: Walking)
    requires WalkInv(tail, w) && w.at < |tail| && Cuts(w, tail[w.at])
    ensures WalkInv(tail, Cut(w))
  {
    assert tail[w.at..w.at] == [];
    var w' := Cut(w);
    assert RoundWhole(tail, w.at);
    forall c | 0 <= c < |w'.cuts| ensures Whole(tail, w'.cuts[c].hi) {
      if c < |w.cuts| { assert w'.cuts[c] == w.cuts[c]; }
    }
  }

  lemma TakeKeeps(tail: seq<Entry>, w: Walking)
    requires WalkInv(tail, w) && w.at < |tail|
    ensures WalkInv(tail, Take(w, tail, tail[w.at]))
  {
    hide Tiled, Weighed, Whole, Pending;
    assert tail[w.start..w.at + 1][..w.at - w.start] == tail[w.start..w.at];
    PendingKeeps(tail, w);
  }

  ghost predicate PendingCovers(tail: seq<Entry>, at: nat, pending: set<int>)
    requires at <= |tail|
  {
    forall i :: 0 <= i < at && tail[i].kind == ToolCall && tail[i].callId.Some? ==>
      tail[i].callId.value in pending || AnsweredBy(tail, i, at)
  }

  lemma PendingKeeps(tail: seq<Entry>, w: Walking)
    requires w.at < |tail| && PendingCovers(tail, w.at, w.pending)
    ensures PendingCovers(tail, w.at + 1, Pending(w.pending, tail[w.at]))
  {
    var pending := Pending(w.pending, tail[w.at]);
    forall i | 0 <= i < w.at + 1 && tail[i].kind == ToolCall && tail[i].callId.Some? && tail[i].callId.value !in pending
      ensures AnsweredBy(tail, i, w.at + 1)
    {
      if tail[i].callId.value in w.pending {
        assert Answers(tail[i], tail[w.at]);
      } else {
        var r :| i < r < w.at && r < |tail| && Answers(tail[i], tail[r]);
        assert Answers(tail[i], tail[r]);
      }
    }
  }

  lemma {:induction false} WalkKeeps(tail: seq<Entry>, n: nat)
    requires n <= |tail|
    ensures WalkInv(tail, WalkTo(tail, n)) && WalkTo(tail, n).at == n
  {
    if n == 0 {
      assert tail[0..0] == [];
      return;
    }
    hide WalkInv, Cuts, Cut, Take;
    WalkKeeps(tail, n - 1);
    var w := WalkTo(tail, n - 1);
    if Cuts(w, tail[n - 1]) {
      CutKeeps(tail, w);
      TakeKeeps(tail, Cut(w));
    } else {
      TakeKeeps(tail, w);
    }
  }

  /** The sealed windows are consecutive from the start of the tail, each of at
      least 10,000 estimated tokens; no boundary splits a (turn, round) group or
      leaves a call unanswered before it. */
  lemma SealedWindows(tail: seq<Entry>)
    ensures var w := SealWalk(tail);
            && w.start <= |tail| && Tiled(w.cuts, w.start) && Weighed(tail, w.cuts)
            && w.tokens == SumTokens(tail[w.start..])
            && forall c :: 0 <= c < |w.cuts| ==> Whole(tail, w.cuts[c].hi)
  {
    WalkKeeps(tail, |tail|);
    assert tail[SealWalk(tail).start..|tail|] == tail[SealWalk(tail).start..];
  }

  /** When no call id is answered twice, no boundary separates a call from its
      result. */
  lemma CallKeepsItsResult(tail: seq<Entry>, c: nat, i: nat, j: nat)
    requires c < |SealWalk(tail).cuts|
    requires i < SealWalk(tail).cuts[c].hi <= j < |tail|
    requires forall x, y :: 0 <= x < |tail| && 0 <= y < |tail| && Answers(tail[i], tail[x]) && Answers(tail[i], tail[y]) ==> x == y
    ensures !Answers(tail[i], tail[j])
  {
    SealedWindows(tail);
    var b := SealWalk(tail).cuts[c].hi;
    assert Whole(tail, b);
    if tail[i].kind == ToolCall && tail[i].callId.Some? {
      assert AnsweredBy(tail, i, b);
      var r :| i < r < b && r < |tail| && Answers(tail[i], tail[r]);
    }
  }
}
