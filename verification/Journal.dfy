/** The append-only journal: per-persona sequence numbers, one receipt per
    input, and experience keys deduplicated over an input's whole lineage. */
module Journal {
  import opened Common
  import opened Plan

  datatype PauseReason = ForBudget | ForRetry | ByCrash

  datatype ToolOutcome = Response(value: Payload) | Failure(error: Payload, denied: bool)

  /** A journal record before it is numbered.  A missing or unsafe integer, and
      a missing or malformed input id, are None. */
  datatype EventInput =
    | InputReceived(input: Option<InputId>)
    | AssistantMessage(text: Payload, round: Option<int>)
    | ToolCall(call: Call, round: Option<int>, callIndex: Option<int>)
    | ToolResult(tool: Tool, callId: int, callIndex: Option<int>, outcome: ToolOutcome)
    | ApprovalRequested(call: Call, round: Option<int>, callIndex: Option<int>, approval: Option<Position>)
    | ApprovalDecided(position: Position, approved: bool, decider: Human)
    | TurnPaused(reason: PauseReason)
    | Note(text: Payload)
    | Other(kind: int, payload: Payload)

  datatype Event = Event(persona: Persona, num: nat, turn: TurnId, body: EventInput)

  /** The identity of one experience within an input's lineage. */
  datatype Experience =
    | TextOf(round: int)
    | CallOf(index: int)
    | ResultOf(index: int)
    | RequestOf(approval: Position)

  function ExperienceKey(e: EventInput): Option<Experience> {
    match e
    case AssistantMessage(_, Some(r)) => Some(TextOf(r))
    case ToolCall(_, _, Some(i)) => Some(CallOf(i))
    case ToolResult(_, _, Some(i), _) => Some(ResultOf(i))
    case ApprovalRequested(_, _, _, Some(a)) => Some(RequestOf(a))
    case _ => None
  }

  /** `log` is the event array, `last` the per-persona counter, and `received`
      the sequence number of each input's one receipt. */
  datatype Journal = Journal(log: seq<Event>, last: map<Persona, nat>, received: map<InputKey, nat>)

  function Last(j: Journal, p: Persona): nat { if p in j.last then j.last[p] else 0 }

  function Push(j: Journal, p: Persona, t: TurnId, e: EventInput): Journal {
    var n := Last(j, p) + 1;
    j.(log := j.log + [Event(p, n, t, e)], last := j.last[p := n])
  }

  /** Push the receipt of `i` and remember its sequence number. */
  function PushReceipt(j: Journal, p: Persona, t: TurnId, i: InputId): Journal {
    var j1 := Push(j, p, t, InputReceived(Some(i)));
    j1.(received := j1.received[InputKey(p, i) := Last(j1, p)])
  }

  function EnsureReceived(j: Journal, p: Persona, t: TurnId, i: InputId): Journal {
    if InputKey(p, i) in j.received then j else PushReceipt(j, p, t, i)
  }

  /** Which input each turn serves, for the turns of every persona. */
  type Owners = map<TurnId, InputKey>

  /** Keys of the experience every turn serving the input has journaled. */
  function Lineage(log: seq<Event>, owners: Owners, key: InputKey): set<Experience> {
    set k | 0 <= k < |log| && Serves(log[k], owners, key) && ExperienceKey(log[k].body).Some?
      :: ExperienceKey(log[k].body).value
  }

  predicate Serves(e: Event, owners: Owners, key: InputKey) {
    e.persona == key.persona && e.turn in owners && owners[e.turn] == key
  }

  /** Append the records whose experience is not in `seen`. */
  function AppendFresh(j: Journal, p: Persona, t: TurnId, events: seq<EventInput>, seen: set<Experience>): Journal
    decreases |events|
  {
    if events == [] then j else
    var key := ExperienceKey(events[0]);
    if key.Some? && key.value in seen then AppendFresh(j, p, t, events[1..], seen)
    else
      var seen' := if key.Some? then seen + {key.value} else seen;
      AppendFresh(Push(j, p, t, events[0]), p, t, events[1..], seen')
  }

  /** journalExperience: the input once, then each record its lineage lacks. */
  function Experienced(j: Journal, owners: Owners, t: TurnId, key: InputKey, events: seq<EventInput>): Journal {
    var j1 := EnsureReceived(j, key.persona, t, key.input);
    AppendFresh(j1, key.persona, t, events, Lineage(j1.log, owners, key))
  }

  /** The commit's append: additionally drops a receipt already journaled. */
  function AppendCommitted(j: Journal, p: Persona, t: TurnId, events: seq<EventInput>, seen: set<Experience>): Journal
    requires forall e :: e in events && e.InputReceived? ==> e.input.Some?
    decreases |events|
  {
    if events == [] then j
    else
      assert events[0] in events;
      if events[0].InputReceived? then
        AppendCommitted(EnsureReceived(j, p, t, events[0].input.value), p, t, events[1..], seen)
      else
        var key := ExperienceKey(events[0]);
        if key.Some? && key.value in seen then AppendCommitted(j, p, t, events[1..], seen)
        else
          var seen' := if key.Some? then seen + {key.value} else seen;
          AppendCommitted(Push(j, p, t, events[0]), p, t, events[1..], seen')
  }

  // ---------------------------------------------------------------- integrity

  /** How many records a persona has. */
  function Count(log: seq<Event>, p: Persona): nat {
    if log == [] then 0
    else Count(log[..|log| - 1], p) + (if log[|log| - 1].persona == p then 1 else 0)
  }

  /** Every record is numbered one more than its persona had before it. */
  ghost predicate Numbered(log: seq<Event>) {
    log == [] || (var n := |log| - 1; Numbered(log[..n]) && log[n].num == Count(log[..n], log[n].persona) + 1)
  }

  ghost predicate Counted(j: Journal) {
    Numbered(j.log) && forall p :: Last(j, p) == Count(j.log, p)
  }

  ghost predicate Received(j: Journal) {
    forall k :: 0 <= k < |j.log| && j.log[k].body.InputReceived? ==>
      && j.log[k].body.input.Some?
      && InputKey(j.log[k].persona, j.log[k].body.input.value) in j.received
      && j.received[InputKey(j.log[k].persona, j.log[k].body.input.value)] == j.log[k].num
  }

  /** Every record belongs to a turn of its persona. */
  ghost predicate Attributed(log: seq<Event>, owners: Owners) {
    forall k :: 0 <= k < |log| ==> log[k].turn in owners && owners[log[k].turn].persona == log[k].persona
  }

  predicate SameExperience(a: Event, b: Event, owners: Owners) {
    && a.turn in owners && b.turn in owners
    && owners[a.turn] == owners[b.turn]
    && ExperienceKey(a.body).Some? && ExperienceKey(a.body) == ExperienceKey(b.body)
  }

  ghost predicate NoRepeat(log: seq<Event>, owners: Owners) {
    forall a, b :: 0 <= a < b < |log| ==> !SameExperience(log[a], log[b], owners)
  }

  /** Numbered from one per persona, and no input received twice. */
  ghost predicate Kept(j: Journal) { Counted(j) && Received(j) }

  ghost predicate Sound(j: Journal, owners: Owners) {
    Kept(j) && Attributed(j.log, owners) && NoRepeat(j.log, owners)
  }

  // ------------------------------------------------------------- preservation

  lemma CountSnoc(log: seq<Event>, e: Event, p: Persona)
    ensures Count(log + [e], p) == Count(log, p) + (if e.persona == p then 1 else 0)
  {
    assert (log + [e])[..|log|] == log;
  }

  lemma PushCounted(j: Journal, p: Persona, t: TurnId, e: EventInput)
    requires Counted(j)
    ensures Counted(Push(j, p, t, e))
  {
    var ev, j' := Event(p, Last(j, p) + 1, t, e), Push(j, p, t, e);
    assert j'.log == j.log + [ev];
    NumberedSnoc(j.log, ev);
    forall q ensures Last(j', q) == Count(j'.log, q) {
      CountSnoc(j.log, ev, q);
    }
  }

  lemma NumberedSnoc(log: seq<Event>, e: Event)
    requires Numbered(log) && e.num == Count(log, e.persona) + 1
    ensures Numbered(log + [e])
  {
    assert (log + [e])[..|log|] == log;
  }

  /** Pushing a record that is neither a receipt nor a repeated experience. */
  lemma PushSound(j: Journal, owners: Owners, p: Persona, t: TurnId, e: EventInput)
    requires Sound(j, owners) && !e.InputReceived?
    requires t in owners && owners[t].persona == p
    requires ExperienceKey(e).Some? ==> ExperienceKey(e).value !in Lineage(j.log, owners, owners[t])
    ensures Sound(Push(j, p, t, e), owners)
    ensures Push(j, p, t, e).received == j.received
    ensures Lineage(Push(j, p, t, e).log, owners, owners[t])
            == Lineage(j.log, owners, owners[t]) + (if ExperienceKey(e).Some? then {ExperienceKey(e).value} else {})
  {
    PushCounted(j, p, t, e);
    LineageSnoc(j.log, owners, owners[t], Event(p, Last(j, p) + 1, t, e));
    NoRepeatSnoc(j.log, owners, Event(p, Last(j, p) + 1, t, e));
  }

  lemma LineageSnoc(log: seq<Event>, owners: Owners, key: InputKey, e: Event)
    ensures Lineage(log + [e], owners, key)
            == Lineage(log, owners, key)
               + (if Serves(e, owners, key) && ExperienceKey(e.body).Some? then {ExperienceKey(e.body).value} else {})
  {
    var more := log + [e];
    forall x | x in Lineage(log, owners, key) ensures x in Lineage(more, owners, key) {
      var k :| 0 <= k < |log| && Serves(log[k], owners, key) && ExperienceKey(log[k].body) == Some(x);
      assert more[k] == log[k];
    }
    if Serves(e, owners, key) && ExperienceKey(e.body).Some? {
      assert more[|log|] == e;
    }
  }

  lemma NoRepeatSnoc(log: seq<Event>, owners: Owners, e: Event)
    requires NoRepeat(log, owners) && Attributed(log, owners)
    requires e.turn in owners && owners[e.turn].persona == e.persona
    requires ExperienceKey(e.body).Some? ==> ExperienceKey(e.body).value !in Lineage(log, owners, owners[e.turn])
    ensures NoRepeat(log + [e], owners)
  {
    var more := log + [e];
    forall a, b | 0 <= a < b < |more| ensures !SameExperience(more[a], more[b], owners) {
      if b == |log| && Serves(log[a], owners, owners[e.turn]) && ExperienceKey(log[a].body).Some? {
        assert ExperienceKey(log[a].body).value in Lineage(log, owners, owners[e.turn]);
      }
    }
  }

  lemma ReceiptSound(j: Journal, owners: Owners, t: TurnId, p: Persona, i: InputId)
    requires Sound(j, owners) && t in owners && owners[t].persona == p
    ensures Sound(EnsureReceived(j, p, t, i), owners)
    ensures InputKey(p, i) in EnsureReceived(j, p, t, i).received
    ensures forall k :: k in j.received ==> k in EnsureReceived(j, p, t, i).received
    ensures Lineage(EnsureReceived(j, p, t, i).log, owners, owners[t]) == Lineage(j.log, owners, owners[t])
  {
    var e := Event(p, Last(j, p) + 1, t, InputReceived(Some(i)));
    PushCounted(j, p, t, e.body);
    LineageSnoc(j.log, owners, owners[t], e);
    NoRepeatSnoc(j.log, owners, e);
    if InputKey(p, i) !in j.received {
      assert Received(PushReceipt(j, p, t, i));
    }
  }

  lemma {:induction false} AppendFreshSound(
      j: Journal, owners: Owners, p: Persona, t: TurnId, events: seq<EventInput>, seen: set<Experience>)
    requires Sound(j, owners) && t in owners && owners[t].persona == p
    requires seen == Lineage(j.log, owners, owners[t])
    requires forall e :: e in events ==> !e.InputReceived?
    ensures Sound(AppendFresh(j, p, t, events, seen), owners)
    ensures AppendFresh(j, p, t, events, seen).received == j.received
    decreases |events|
  {
    if events != [] {
      assert events[0] in events;
      var key := ExperienceKey(events[0]);
      if key.Some? && key.value in seen {
        AppendFreshSound(j, owners, p, t, events[1..], seen);
      } else {
        PushSound(j, owners, p, t, events[0]);
        var seen' := if key.Some? then seen + {key.value} else seen;
        AppendFreshSound(Push(j, p, t, events[0]), owners, p, t, events[1..], seen');
      }
    }
  }

  lemma ExperiencedSound(j: Journal, owners: Owners, t: TurnId, key: InputKey, events: seq<EventInput>)
    requires Sound(j, owners) && t in owners && owners[t] == key
    requires forall e :: e in events ==> !e.InputReceived?
    ensures Sound(Experienced(j, owners, t, key, events), owners)
  {
    ReceiptSound(j, owners, t, key.persona, key.input);
    var j1 := EnsureReceived(j, key.persona, t, key.input);
    AppendFreshSound(j1, owners, key.persona, t, events, Lineage(j1.log, owners, key));
  }

  lemma {:induction false} AppendCommittedSound(
      j: Journal, owners: Owners, p: Persona, t: TurnId, events: seq<EventInput>, seen: set<Experience>)
    requires Sound(j, owners) && t in owners && owners[t].persona == p
    requires seen == Lineage(j.log, owners, owners[t])
    requires forall e :: e in events && e.InputReceived? ==> e.input.Some?
    ensures Sound(AppendCommitted(j, p, t, events, seen), owners)
    decreases |events|
  {
    if events != [] {
      assert events[0] in events;
      if events[0].InputReceived? {
        ReceiptSound(j, owners, t, p, events[0].input.value);
        AppendCommittedSound(EnsureReceived(j, p, t, events[0].input.value), owners, p, t, events[1..], seen);
      } else {
        var key := ExperienceKey(events[0]);
        if key.Some? && key.value in seen {
          AppendCommittedSound(j, owners, p, t, events[1..], seen);
        } else {
          PushSound(j, owners, p, t, events[0]);
          var seen' := if key.Some? then seen + {key.value} else seen;
          AppendCommittedSound(Push(j, p, t, events[0]), owners, p, t, events[1..], seen');
        }
      }
    }
  }

  /** Adding turns that journaled nothing keeps the journal sound. */
  lemma OwnersGrow(j: Journal, owners: Owners, owners': Owners)
    requires Sound(j, owners)
    requires forall t :: t in owners ==> t in owners' && owners'[t] == owners[t]
    ensures Sound(j, owners')
  {
    forall a, b | 0 <= a < b < |j.log| ensures !SameExperience(j.log[a], j.log[b], owners') {
      assert !SameExperience(j.log[a], j.log[b], owners);
    }
  }

  // ------------------------------------------------- what soundness says plainly

  /** A persona's own records, in order. */
  function Own(log: seq<Event>, p: Persona): seq<Event> {
    if log == [] then []
    else
      var n := |log| - 1;
      Own(log[..n], p) + (if log[n].persona == p then [log[n]] else [])
  }

  /** The persona's records are numbered exactly 1, 2, ..., n. */
  lemma {:induction false} NumberedFromOne(log: seq<Event>, p: Persona)
    requires Numbered(log)
    ensures |Own(log, p)| == Count(log, p)
    ensures forall k :: 0 <= k < |Own(log, p)| ==> Own(log, p)[k].num == k + 1
  {
    if log != [] {
      NumberedFromOne(log[..|log| - 1], p);
    }
  }

  lemma {:induction false} CountMonotone(log: seq<Event>, k: nat, p: Persona)
    requires k <= |log|
    ensures Count(log[..k], p) <= Count(log, p)
  {
    if k < |log| {
      assert log[..|log| - 1][..k] == log[..k];
      CountMonotone(log[..|log| - 1], k, p);
    } else {
      assert log[..k] == log;
    }
  }

  lemma {:induction false} NumberAt(log: seq<Event>, k: nat)
    requires Numbered(log) && k < |log|
    ensures log[k].num == Count(log[..k], log[k].persona) + 1
  {
    if k < |log| - 1 {
      var m := log[..|log| - 1];
      NumberAt(m, k);
      assert m[..k] == log[..k];
    }
  }

  /** Two records of one persona never share a number. */
  lemma NumbersDistinct(log: seq<Event>, a: nat, b: nat)
    requires Numbered(log) && a < b < |log| && log[a].persona == log[b].persona
    ensures log[a].num < log[b].num
  {
    var p := log[a].persona;
    NumberAt(log, a);
    NumberAt(log, b);
    assert log[..b][..a + 1] == log[..a + 1];
    CountMonotone(log[..b], a + 1, p);
    assert log[..a + 1] == log[..a] + [log[a]];
    CountSnoc(log[..a], log[a], p);
  }

  /** No input is received twice. */
  lemma OneReceipt(j: Journal, a: nat, b: nat)
    requires Kept(j)
    requires a < |j.log| && b < |j.log|
    requires j.log[a].body.InputReceived? && j.log[b].body == j.log[a].body
    requires j.log[a].persona == j.log[b].persona
    ensures a == b
  {
    if a < b {
      NumbersDistinct(j.log, a, b);
    } else if b < a {
      NumbersDistinct(j.log, b, a);
    }
  }
}
