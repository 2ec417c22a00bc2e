/** Durable turn plans: append-only rounds of decided calls, and the three
    ways the program numbers a planned call. */
module Plan {
  import opened Common

  datatype Route = Normal | Elevated

  /** The registered tools.  `message.send` may only run as an elevated call and
      `journal.note` writes the journal; every other built-in is `Internal`, and
      a tool some host registered is `Delegated`. */
  datatype Tool =
    | MessageSend
    | JournalNote
    | Internal(name: int)
    | Delegated(name: int)

  datatype Call = Call(tool: Tool, route: Route, request: Payload, callId: int)

  /** One round's decision; `text` is None when the deciding text is empty. */
  datatype Round = Round(text: Option<Payload>, calls: seq<Call>, usage: Payload)

  /** Where a flat index lands: the round, its text and the call. */
  datatype Place = Place(round: nat, text: Option<Payload>, call: Call, index: int)

  /** The calls of every round in order: the numbering `claim` uses. */
  function Flat(plan: seq<Round>): seq<Call> {
    if plan == [] then [] else plan[0].calls + Flat(plan[1..])
  }

  /** The subtracting walk `planPosition` makes over the rounds. */
  function Walk(plan: seq<Round>, n: int, round: nat, index: int): Option<Place> {
    if plan == [] || n < 0 then None
    else if n < |plan[0].calls| then Some(Place(round, plan[0].text, plan[0].calls[n], index))
    else Walk(plan[1..], n - |plan[0].calls|, round + 1, index)
  }

  function PlaceOf(plan: seq<Round>, index: int): Option<Place> { Walk(plan, index, 0, index) }

  lemma {:induction false} FlatAppend(a: seq<Round>, b: seq<Round>)
    ensures Flat(a + b) == Flat(a) + Flat(b)
  {
    if a == [] {
      assert a + b == b;
    } else {
      assert (a + b)[1..] == a[1..] + b;
      FlatAppend(a[1..], b);
    }
  }

  /** Appending a round never renumbers a call already recorded. */
  lemma FlatStable(plan: seq<Round>, round: Round, k: int)
    requires 0 <= k < |Flat(plan)|
    ensures k < |Flat(plan + [round])| && Flat(plan + [round])[k] == Flat(plan)[k]
  {
    FlatAppend(plan, [round]);
  }

  /** The subtracting walk and the flattened list agree: the walk finds a call
      exactly inside the flat list, it is the call at that flat index, and its
      round is the one whose calls start at most `n` before it. */
  lemma {:induction false} WalkAgreesWithFlat(plan: seq<Round>, n: int, round: nat, index: int)
    ensures Walk(plan, n, round, index).Some? <==> 0 <= n < |Flat(plan)|
    ensures 0 <= n < |Flat(plan)| ==>
              var place := Walk(plan, n, round, index).value;
              var r := place.round - round;
              && place.call == Flat(plan)[n]
              && place.index == index
              && 0 <= r < |plan|
              && place.text == plan[r].text
              && |Flat(plan[..r])| <= n < |Flat(plan[..r])| + |plan[r].calls|
              && place.call == plan[r].calls[n - |Flat(plan[..r])|]
  {
    if plan != [] && n >= |plan[0].calls| {
      WalkAgreesWithFlat(plan[1..], n - |plan[0].calls|, round + 1, index);
      if 0 <= n < |Flat(plan)| {
        var r := Walk(plan, n, round, index).value.round - round;
        assert plan[..r][1..] == plan[1..][..r - 1];
        assert plan[..r][0] == plan[0];
      }
    }
  }

  /** A flat index of a call taken from its round: what `results.length` holds
      when the running turn reaches call `c` of round `r`. */
  lemma RunningCountAgreesWithFlat(plan: seq<Round>, r: nat, c: nat)
    requires r < |plan| && c < |plan[r].calls|
    ensures |Flat(plan[..r])| + c < |Flat(plan)|
    ensures Flat(plan)[|Flat(plan[..r])| + c] == plan[r].calls[c]
  {
    assert plan == plan[..r] + plan[r..];
    FlatAppend(plan[..r], plan[r..]);
  }

  /** planPosition as the store runs it: a cursor that subtracts each round's
      call count until the index falls inside one. */
  method PlanPosition(plan: seq<Round>, callIndex: int) returns (place: Option<Place>)
    ensures place == PlaceOf(plan, callIndex)
  {
    if callIndex < 0 { return None; }
    var n, round := callIndex, 0;
    while round < |plan|
      invariant 0 <= round <= |plan| && 0 <= n
      invariant PlaceOf(plan, callIndex) == Walk(plan[round..], n, round, callIndex)
    {
      if n < |plan[round].calls| {
        return Some(Place(round, plan[round].text, plan[round].calls[n], callIndex));
      }
      n := n - |plan[round].calls|;
      assert plan[round..][1..] == plan[round + 1..];
      round := round + 1;
    }
    return None;
  }

  /** A claim the running turn sends: the flat index it computed and the call. */
  datatype Sent = Sent(index: nat, round: nat, call: Call)

  /** The order in which runTurn sends the claims of a recorded plan: the flat
      index of a call is the number of results collected so far. */
  method ReplayOrder(plan: seq<Round>) returns (sent: seq<Sent>)
    ensures |sent| == |Flat(plan)|
    ensures forall k :: 0 <= k < |sent| ==> sent[k].index == k && sent[k].call == Flat(plan)[k]
    ensures forall k :: 0 <= k < |sent| ==>
              var place := PlaceOf(plan, sent[k].index);
              place.Some? && place.value.call == sent[k].call && place.value.round == sent[k].round
  {
    sent := [];
    var r := 0;
    while r < |plan|
      invariant 0 <= r <= |plan|
      invariant |sent| == |Flat(plan[..r])|
      invariant forall k :: 0 <= k < |sent| ==> AtPlace(plan, sent[k], k)
    {
      ghost var base := |sent|;
      var c := 0;
      while c < |plan[r].calls|
        invariant 0 <= c <= |plan[r].calls|
        invariant |sent| == base + c
        invariant forall k :: 0 <= k < |sent| ==> AtPlace(plan, sent[k], k)
      {
        RunningCountAgreesWithFlat(plan, r, c);
        RoundOfRunningCount(plan, r, c);
        sent := sent + [Sent(|sent|, r, plan[r].calls[c])];
        c := c + 1;
      }
      assert plan[..r + 1] == plan[..r] + [plan[r]];
      FlatAppend(plan[..r], [plan[r]]);
      r := r + 1;
    }
    assert plan[..r] == plan;
  }

  ghost predicate AtPlace(plan: seq<Round>, sent: Sent, k: nat) {
    && sent.index == k < |Flat(plan)|
    && sent.call == Flat(plan)[k]
    && PlaceOf(plan, k).Some?
    && PlaceOf(plan, k).value.call == sent.call
    && PlaceOf(plan, k).value.round == sent.round
  }

  /** The subtracting walk ends in round `r` for the running count of call `c`. */
  lemma {:induction false} WalkRound(plan: seq<Round>, r: nat, c: nat, start: nat, index: int)
    requires r < |plan| && c < |plan[r].calls|
    ensures Walk(plan, |Flat(plan[..r])| + c, start, index)
            == Some(Place(start + r, plan[r].text, plan[r].calls[c], index))
  {
    if r > 0 {
      assert plan[..r][1..] == plan[1..][..r - 1];
      WalkRound(plan[1..], r - 1, c, start + 1, index);
    }
  }

  lemma RoundOfRunningCount(plan: seq<Round>, r: nat, c: nat)
    requires r < |plan| && c < |plan[r].calls|
    ensures PlaceOf(plan, |Flat(plan[..r])| + c)
            == Some(Place(r, plan[r].text, plan[r].calls[c], |Flat(plan[..r])| + c))
  {
    WalkRound(plan, r, c, 0, |Flat(plan[..r])| + c);
  }
}
