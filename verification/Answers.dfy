/** What the store's calls answer and leave behind, said on the rows and the log
    themselves: what a claim journals of its outcome, when an input parks and when
    it comes back, what a commit records, who gets a lease. */
module Answers {
  import opened Common
  import opened Plan
  import opened Journal
  import opened Ledger
  import opened Store
  import opened Runs
  import Lifecycle

  // ------------------------------------------------------------ records appended

  /** The records from position `from` on are this turn's, each one of `events`. */
  ghost predicate NewFrom(log: seq<Event>, from: nat, p: Persona, t: TurnId, events: seq<EventInput>) {
    forall k :: from <= k < |log| ==> log[k].persona == p && log[k].turn == t && log[k].body in events
  }

  /** From position `from` on this turn journaled exactly this record. */
  ghost predicate Journaled(log: seq<Event>, from: nat, p: Persona, t: TurnId, e: EventInput) {
    exists k :: from <= k < |log| && log[k].persona == p && log[k].turn == t && log[k].body == e
  }

  lemma {:induction false} FreshAreNew(j: Journal, p: Persona, t: TurnId, events: seq<EventInput>, seen: set<Experience>)
    ensures var log := AppendFresh(j, p, t, events, seen).log; j.log <= log && NewFrom(log, |j.log|, p, t, events)
    decreases |events|
  {
    if events == [] { return; }
    var key := ExperienceKey(events[0]);
    if key.Some? && key.value in seen {
      FreshAreNew(j, p, t, events[1..], seen);
      return;
    }
    var seen' := if key.Some? then seen + {key.value} else seen;
    FreshAreNew(Push(j, p, t, events[0]), p, t, events[1..], seen');
  }

  /** An experience that is not seen, and comes first among the events, is
      journaled. */
  lemma {:induction false} FreshIsJournaled(j: Journal, p: Persona, t: TurnId, events: seq<EventInput>, seen: set<Experience>, i: nat)
    requires i < |events| && ExperienceKey(events[i]).Some? && ExperienceKey(events[i]).value !in seen
    requires forall h :: 0 <= h < i ==> ExperienceKey(events[h]) != ExperienceKey(events[i])
    ensures Journaled(AppendFresh(j, p, t, events, seen).log, |j.log|, p, t, events[i])
    decreases |events|
  {
    var key := ExperienceKey(events[0]);
    if key.Some? && key.value in seen {
      FreshIsJournaled(j, p, t, events[1..], seen, i - 1);
      return;
    }
    var seen' := if key.Some? then seen + {key.value} else seen;
    var j1 := Push(j, p, t, events[0]);
    var log := AppendFresh(j, p, t, events, seen).log;
    if i == 0 {
      FreshAreNew(j1, p, t, events[1..], seen');
      assert log[|j.log|] == j1.log[|j.log|];
    } else {
      FreshIsJournaled(j1, p, t, events[1..], seen', i - 1);
    }
  }

  /** No result of a call is among the records from `from` on. */
  ghost predicate NoResults(log: seq<Event>, from: nat) {
    forall k :: from <= k < |log| ==> !log[k].body.ToolResult?
  }

  lemma ReceiptKeeps(j: Journal, owners: Owners, p: Persona, t: TurnId, key: InputKey)
    ensures var j1 := EnsureReceived(j, p, t, key.input);
            && j.log <= j1.log && NoResults(j1.log, |j.log|) && Lineage(j1.log, owners, key) == Lineage(j.log, owners, key)
  {
    LineageSnoc(j.log, owners, key, Event(p, Last(j, p) + 1, t, InputReceived(Some(key.input))));
  }

  lemma {:induction false} LineageWithoutResults(log: seq<Event>, n: nat, owners: Owners, key: InputKey, i: int)
    requires n <= |log| && NoResults(log, n)
    ensures ResultOf(i) in Lineage(log, owners, key) <==> ResultOf(i) in Lineage(log[..n], owners, key)
  {
    var init := log[..n];
    if ResultOf(i) in Lineage(log, owners, key) {
      var k :| 0 <= k < |log| && Serves(log[k], owners, key) && ExperienceKey(log[k].body) == Some(ResultOf(i));
      assert k < n && init[k] == log[k];
    }
    if ResultOf(i) in Lineage(init, owners, key) {
      var k :| 0 <= k < n && Serves(init[k], owners, key) && ExperienceKey(init[k].body) == Some(ResultOf(i));
      assert log[k] == init[k];
    }
  }

  /** Journaling the call and its result, where there was no result before, adds
      this result and no other. */
  lemma ResultIsJournaled(s: State, t: TurnId, at: Place, outcome: ToolOutcome)
    requires t in s.turns && ResultOf(at.index) !in Lineage(s.journal.log, OwnersOf(s.turns), s.turns[t].key)
    ensures var log := WithExperience(s, t, ResultEvents(Some(at), outcome)).journal.log;
            var e := ToolResult(at.call.tool, at.call.callId, Some(at.index), outcome);
            && s.journal.log <= log && Journaled(log, |s.journal.log|, s.turns[t].key.persona, t, e)
            && forall k :: |s.journal.log| <= k < |log| && log[k].body.ToolResult? ==> log[k].body == e
  {
    var key, owners, events := s.turns[t].key, OwnersOf(s.turns), ResultEvents(Some(at), outcome);
    var j1 := EnsureReceived(s.journal, key.persona, t, key.input);
    ReceiptKeeps(s.journal, owners, key.persona, t, key);
    var seen := Lineage(j1.log, owners, key);
    FreshAreNew(j1, key.persona, t, events, seen);
    FreshIsJournaled(j1, key.persona, t, events, seen, |events| - 1);
  }

  /** Journaling anything but results adds no result. */
  lemma QuietlyJournaled(j: Journal, owners: Owners, t: TurnId, key: InputKey, events: seq<EventInput>)
    requires forall e :: e in events ==> !e.ToolResult?
    ensures var log := Experienced(j, owners, t, key, events).log; j.log <= log && NoResults(log, |j.log|)
  {
    ReceiptKeeps(j, owners, key.persona, t, key);
    var j1 := EnsureReceived(j, key.persona, t, key.input);
    FreshAreNew(j1, key.persona, t, events, Lineage(j1.log, owners, key));
  }

  // -------------------------------------------------- what a claim tells of itself

  /** From `from` on the turn journaled this outcome as the result of the call at
      `index`. */
  ghost predicate Told(log: seq<Event>, from: nat, p: Persona, t: TurnId, call: Call, index: int, outcome: ToolOutcome) {
    Journaled(log, from, p, t, ToolResult(call.tool, call.callId, Some(index), outcome))
  }

  /** Whether a failed operation failed by a human's denial: the receipt of a call
      refused as one denied before says so, a call known before has its approval. */
  predicate FailedByDenial(s: State, s': State, key: OpKey)
    requires key in s'.ops
  {
    if key in s.ops then key.pos in s'.approvals && s'.approvals[key.pos].status == DeniedApproval
    else s'.ops[key].receipt.Some? && s'.ops[key].receipt.value.DeniedBy?
  }

  function ErrorText(op: Operation): Payload {
    if op.receipt.Some? && op.receipt.value.Error? then op.receipt.value.message else 0
  }

  ghost predicate RowsAgree(s: State, p: Persona, c: ClaimRequest, r: Claiming)
    requires r.Got?
  {
    && c.turn in s.turns && s.turns[c.turn].key.persona == p && 0 <= c.index < |Flat(PlanOf(s, s.turns[c.turn].key))|
    && r.state.turns == s.turns && r.state.plans == s.plans
    && s.journal.log <= r.state.journal.log && NoResults(r.state.journal.log, |s.journal.log|)
    && r.key == OpKey(Position(p, s.turns[c.turn].key.input, c.index), c.tool)
    && Flat(PlanOf(s, s.turns[c.turn].key))[c.index].tool == c.tool
    && r.key in r.state.ops && r.state.ops[r.key] == r.op
    && (r.op.status == OpFailed ==>
          (r.approval.Some? && r.approval.value.status == DeniedApproval <==> FailedByDenial(s, r.state, r.key)))
  }

  lemma SpendIsQuiet(s: State, c: ClaimRequest, key: OpKey)
    requires c.turn in s.turns && key.pos in s.approvals
    ensures var s1 := Spend(s, c, key);
            && s1.turns == s.turns && s1.plans == s.plans && s1.ops == s.ops
            && s1.approvals == s.approvals[key.pos := s.approvals[key.pos].(consumed := true)]
            && s.journal.log <= s1.journal.log && NoResults(s1.journal.log, |s.journal.log|)
  {
    hide Experienced;
    QuietlyJournaled(s.journal, OwnersOf(s.turns), c.turn, s.turns[c.turn].key,
                     DecidedEvents(PlaceOf(PlanOf(s, s.turns[c.turn].key), c.index)));
  }

  lemma ToolIsQuiet(s: State, key: OpKey, call: Call, op: Operation, response: Payload)
    ensures var s1 := ApplyTool(s, key, call, op, response);
            && s1.turns == s.turns && s1.plans == s.plans && s1.approvals == s.approvals
            && s1.ops == s.ops[key := op.(status := OpDone, receipt := Some(Receipt.Response(response)))]
            && s.journal.log <= s1.journal.log && NoResults(s1.journal.log, |s.journal.log|)
  {
  }

  lemma GatedRows(s: State, p: Persona, c: ClaimRequest, w: World, key: OpKey, call: Call)
    requires c.turn in s.turns && s.turns[c.turn].key.persona == p && 0 <= c.index < |Flat(PlanOf(s, s.turns[c.turn].key))|
    requires key == OpKey(Position(p, s.turns[c.turn].key.input, c.index), c.tool) && key in s.ops
    requires Flat(PlanOf(s, s.turns[c.turn].key))[c.index].tool == c.tool
    requires s.ops[key].status == AwaitingApproval
    ensures var r := ClaimGated(s, c, w, key, call, s.ops[key]); r.Got? ==> RowsAgree(s, p, c, r)
  {
    hide Spend, ApplyTool, Flat;
    if key.pos !in s.approvals { return; }
    var a := s.approvals[key.pos];
    if a.status != Approved || a.consumed || w.effect.Breaks? { return; }
    SpendIsQuiet(s, c, key);
    if w.effect.Works? { ToolIsQuiet(Spend(s, c, key), key, call, s.ops[key], w.effect.response); }
  }

  lemma NormalRows(s: State, p: Persona, g: nat, c: ClaimRequest, w: World, key: OpKey, call: Call)
    requires c.turn in s.turns && s.turns[c.turn].key.persona == p && 0 <= c.index < |Flat(PlanOf(s, s.turns[c.turn].key))|
    requires key == OpKey(Position(p, s.turns[c.turn].key.input, c.index), c.tool) && key !in s.ops
    requires Flat(PlanOf(s, s.turns[c.turn].key))[c.index].tool == c.tool
    ensures var r := ClaimNormal(s, g, c, w, key, call); r.Got? ==> RowsAgree(s, p, c, r)
  {
    hide Experienced, ApplyTool, Flat;
    if WasDenied(s.approvals, key.pos, call) || call.tool == MessageSend { return; }
    var events := DecidedEvents(PlaceOf(PlanOf(s, s.turns[c.turn].key), c.index));
    QuietlyJournaled(s.journal, OwnersOf(s.turns), c.turn, s.turns[c.turn].key, events);
    if w.effect.Works? {
      var op := Operation(c.operation, c.turn, c.request, OpRunning, None, g);
      ToolIsQuiet(WithExperience(s, c.turn, events), key, call, op, w.effect.response);
    }
  }

  lemma ElevatedRows(s: State, p: Persona, g: nat, c: ClaimRequest, w: World, key: OpKey, call: Call)
    requires c.turn in s.turns && s.turns[c.turn].key.persona == p && 0 <= c.index < |Flat(PlanOf(s, s.turns[c.turn].key))|
    requires key == OpKey(Position(p, s.turns[c.turn].key.input, c.index), c.tool) && key !in s.ops
    requires Flat(PlanOf(s, s.turns[c.turn].key))[c.index].tool == c.tool
    ensures RowsAgree(s, p, c, ClaimElevated(s, g, c, w, key, call))
  {
    hide Flat;
    if w.malformed.Some? { return; }
  }

  lemma ExistingRows(s: State, p: Persona, g: nat, c: ClaimRequest, w: World, key: OpKey, call: Call)
    requires c.turn in s.turns && s.turns[c.turn].key.persona == p && 0 <= c.index < |Flat(PlanOf(s, s.turns[c.turn].key))|
    requires key == OpKey(Position(p, s.turns[c.turn].key.input, c.index), c.tool) && key in s.ops
    requires Flat(PlanOf(s, s.turns[c.turn].key))[c.index].tool == c.tool
    ensures var r := ClaimExisting(s, g, c, w, key, call); r.Got? ==> RowsAgree(s, p, c, r)
  {
    hide ClaimGated, Flat;
    if s.ops[key].status == AwaitingApproval { GatedRows(s, p, c, w, key, call); }
  }

  lemma BodyRows(s: State, p: Persona, g: nat, c: ClaimRequest, w: World)
    requires ClaimBody(s, p, g, c, w).Got?
    ensures RowsAgree(s, p, c, ClaimBody(s, p, g, c, w))
  {
    hide ClaimExisting, ClaimElevated, ClaimNormal, Flat, RowsAgree;
    var key := OpKey(Position(p, s.turns[c.turn].key.input, c.index), c.tool);
    var call := Flat(PlanOf(s, s.turns[c.turn].key))[c.index];
    if key in s.ops {
      ExistingRows(s, p, g, c, w, key, call);
    } else if call.route == Elevated {
      ElevatedRows(s, p, g, c, w, key, call);
    } else {
      NormalRows(s, p, g, c, w, key, call);
    }
  }

  /** An accepted claim of a call whose lineage has no result yet journals the truth
      about its operation: the response exactly when the operation is done with it,
      the failure exactly when it failed, told as a denial exactly when a denial
      failed it; and nothing while it has no outcome. */
  lemma ClaimTells(s: State, p: Persona, g: nat, c: ClaimRequest, w: World)
    requires Claim(s, p, g, c, w).1 == Ok && c.turn in s.turns
    requires ResultOf(c.index) !in Lineage(s.journal.log, OwnersOf(s.turns), s.turns[c.turn].key)
    ensures var s', from := Claim(s, p, g, c, w).0, |s.journal.log|;
            var key := OpKey(Position(p, s.turns[c.turn].key.input, c.index), c.tool);
            && 0 <= c.index < |Flat(PlanOf(s, s.turns[c.turn].key))| && key in s'.ops
            && var op, call := s'.ops[key], Flat(PlanOf(s, s.turns[c.turn].key))[c.index];
               && (forall v :: Told(s'.journal.log, from, p, c.turn, call, c.index, ToolOutcome.Response(v))
                               <==> op.status == OpDone && op.receipt == Some(Receipt.Response(v)))
               && (forall e, d :: Told(s'.journal.log, from, p, c.turn, call, c.index, Failure(e, d))
                                  <==> op.status == OpFailed && e == ErrorText(op) && d == FailedByDenial(s, s', key))
  {
    hide ClaimBody, Flat, Experienced, Lineage, Told, Walk;
    ThrownIsNotOk(s, p, g, c, w);
    BodyRows(s, p, g, c, w);
    var r := ClaimBody(s, p, g, c, w);
    var s1, key := r.state, s.turns[c.turn].key;
    var plan := PlanOf(s, key);
    WalkAgreesWithFlat(plan, c.index, 0, c.index);
    var place := PlaceOf(plan, c.index);
    var s' := Claim(s, p, g, c, w).0;
    LineageWithoutResults(s1.journal.log, |s.journal.log|, OwnersOf(s.turns), key, c.index);
    assert s1.journal.log[..|s.journal.log|] == s.journal.log;
    var outcome := OutcomeOf(r.op, r.approval);
    if outcome.Some? {
      ResultIsJournaled(s1, c.turn, place.value, outcome.value);
      OnlyThisResult(s.journal.log, s1.journal.log, s'.journal.log, p, c.turn, place.value.call, c.index, outcome.value);
    } else {
      NothingTold(s1, c.turn, place, r);
      NoneTold(s.journal.log, s1.journal.log, s'.journal.log, p, c.turn, place.value.call, c.index);
    }
  }

  lemma ThrownIsNotOk(s: State, p: Persona, g: nat, c: ClaimRequest, w: World)
    ensures ClaimBody(s, p, g, c, w) != Threw(Ok)
  {
    hide Spend, ApplyTool, Fail, WithExperience, Flat;
    if ClaimBody(s, p, g, c, w).Got? { return; }
  }

  lemma NothingTold(s: State, t: TurnId, place: Option<Place>, r: Claiming)
    requires t in s.turns && r.Got? && OutcomeOf(r.op, r.approval).None?
    ensures var log := JournalClaim(s, t, ClaimEvents(place, r.key, r.op, r.approval)).journal.log;
            s.journal.log <= log && NoResults(log, |s.journal.log|)
  {
    hide Experienced;
    var events := ClaimEvents(place, r.key, r.op, r.approval);
    if events != [] { QuietlyJournaled(s.journal, OwnersOf(s.turns), t, s.turns[t].key, events); }
  }

  lemma SameRecord(log: seq<Event>, log': seq<Event>, k: nat)
    requires log <= log' && k < |log|
    ensures log'[k] == log[k]
  {
  }

  lemma OnlyThisResult(log: seq<Event>, log1: seq<Event>, log': seq<Event>, p: Persona, t: TurnId, call: Call, index: int, outcome: ToolOutcome)
    requires log <= log1 <= log' && NoResults(log1, |log|) && Told(log', |log1|, p, t, call, index, outcome)
    requires forall k :: |log1| <= k < |log'| && log'[k].body.ToolResult? ==>
               log'[k].body == ToolResult(call.tool, call.callId, Some(index), outcome)
    ensures forall o :: Told(log', |log|, p, t, call, index, o) <==> o == outcome
  {
    var k :| |log1| <= k < |log'| && log'[k].persona == p && log'[k].turn == t
             && log'[k].body == ToolResult(call.tool, call.callId, Some(index), outcome);
    assert Told(log', |log|, p, t, call, index, outcome);
    forall o | Told(log', |log|, p, t, call, index, o) ensures o == outcome {
      var h :| |log| <= h < |log'| && log'[h].persona == p && log'[h].turn == t
               && log'[h].body == ToolResult(call.tool, call.callId, Some(index), o);
      if h < |log1| { SameRecord(log1, log', h); }
    }
  }

  lemma NoneTold(log: seq<Event>, log1: seq<Event>, log': seq<Event>, p: Persona, t: TurnId, call: Call, index: int)
    requires log <= log1 <= log' && NoResults(log1, |log|) && NoResults(log', |log1|)
    ensures forall o :: !Told(log', |log|, p, t, call, index, o)
  {
    forall k | |log| <= k < |log'| ensures !log'[k].body.ToolResult? {
      if k < |log1| { SameRecord(log1, log', k); }
    }
  }

  /** The experience is in the input's lineage. */
  ghost predicate Known(s: State, t: TurnId, x: Experience)
    requires t in s.turns
  {
    x in Lineage(s.journal.log, OwnersOf(s.turns), s.turns[t].key)
  }

  lemma {:induction false} FreshIsKnown(
      j: Journal, owners: Owners, p: Persona, t: TurnId, events: seq<EventInput>, seen: set<Experience>, x: Experience)
    requires t in owners && owners[t].persona == p
    requires x in Lineage(j.log, owners, owners[t]) || exists i :: 0 <= i < |events| && ExperienceKey(events[i]) == Some(x)
    requires forall y :: y in seen ==> y in Lineage(j.log, owners, owners[t])
    ensures x in Lineage(AppendFresh(j, p, t, events, seen).log, owners, owners[t])
    decreases |events|
  {
    if events == [] { return; }
    hide Lineage;
    var key := ExperienceKey(events[0]);
    if key.Some? && key.value in seen {
      FreshIsKnown(j, owners, p, t, events[1..], seen, x);
      return;
    }
    var j1 := Push(j, p, t, events[0]);
    LineageSnoc(j.log, owners, owners[t], Event(p, Last(j, p) + 1, t, events[0]));
    FreshIsKnown(j1, owners, p, t, events[1..], if key.Some? then seen + {key.value} else seen, x);
  }

  lemma ExperienceIsKnown(s: State, t: TurnId, events: seq<EventInput>, x: Experience)
    requires t in s.turns && (Known(s, t, x) || exists i :: 0 <= i < |events| && ExperienceKey(events[i]) == Some(x))
    ensures Known(WithExperience(s, t, events), t, x)
  {
    var key, owners := s.turns[t].key, OwnersOf(s.turns);
    ReceiptKeeps(s.journal, owners, key.persona, t, key);
    var j1 := EnsureReceived(s.journal, key.persona, t, key.input);
    FreshIsKnown(j1, owners, key.persona, t, events, Lineage(j1.log, owners, key), x);
  }

  /** After an accepted claim the input's lineage knows the call and its result once
      the operation has an outcome, and the request while it waits for a decision. */
  lemma ClaimIsKnown(s: State, p: Persona, g: nat, c: ClaimRequest, w: World)
    requires Claim(s, p, g, c, w).1 == Ok && c.turn in s.turns
    ensures var s' := Claim(s, p, g, c, w).0;
            var key := OpKey(Position(p, s.turns[c.turn].key.input, c.index), c.tool);
            && s'.turns == s.turns && key in s'.ops
            && var op := s'.ops[key];
               && (op.status == OpFailed || (op.status == OpDone && op.receipt.Some? && op.receipt.value.Response?) ==>
                     Known(s', c.turn, CallOf(c.index)) && Known(s', c.turn, ResultOf(c.index)))
               && (op.status == AwaitingApproval && key.pos in s'.approvals && s'.approvals[key.pos].status == Pending ==>
                     Known(s', c.turn, RequestOf(key.pos)))
  {
    hide ClaimBody, Flat, Experienced, Lineage, Walk;
    ThrownIsNotOk(s, p, g, c, w);
    BodyRows(s, p, g, c, w);
    ParkedApproval(s, p, g, c, w);
    var r := ClaimBody(s, p, g, c, w);
    WalkAgreesWithFlat(PlanOf(s, s.turns[c.turn].key), c.index, 0, c.index);
    var place := PlaceOf(PlanOf(s, s.turns[c.turn].key), c.index);
    var events := ClaimEvents(place, r.key, r.op, r.approval);
    if events == [] { return; }
    var n := |events| - 1;
    if OutcomeOf(r.op, r.approval).Some? {
      assert ExperienceKey(events[n]) == Some(ResultOf(c.index)) && ExperienceKey(events[n - 1]) == Some(CallOf(c.index));
      ExperienceIsKnown(r.state, c.turn, events, ResultOf(c.index));
      ExperienceIsKnown(r.state, c.turn, events, CallOf(c.index));
    } else {
      assert ExperienceKey(events[n]) == Some(RequestOf(r.key.pos));
      ExperienceIsKnown(r.state, c.turn, events, RequestOf(r.key.pos));
    }
  }

  // ------------------------------------------------------ what else a claim tells

  /** A record a claim of the call at `index`, in round `r` with this text, may make. */
  predicate Saying(e: Event, p: Persona, t: TurnId, at: Place, pos: Position) {
    match e.body
    case AssistantMessage(text, round) => e.persona == p && e.turn == t && at.text == Some(text) && round == Some(at.round)
    case ToolCall(call, round, index) => e.persona == p && e.turn == t && call == at.call && round == Some(at.round) && index == Some(at.index)
    case ToolResult(tool, id, index, _) =>
      e.persona == p && e.turn == t && tool == at.call.tool && id == at.call.callId && index == Some(at.index)
    case ApprovalRequested(call, round, index, approval) =>
      e.persona == p && e.turn == t && call == at.call && round == Some(at.round) && index == Some(at.index) && approval == Some(pos)
    case InputReceived(_) => true
    case Note(text) => at.call.tool == JournalNote && text == at.call.request
    case _ => false
  }

  ghost predicate Says(log: seq<Event>, from: nat, p: Persona, t: TurnId, at: Place, pos: Position) {
    forall k :: from <= k < |log| ==> Saying(log[k], p, t, at, pos)
  }

  lemma SaysOn(log: seq<Event>, log1: seq<Event>, log': seq<Event>, p: Persona, t: TurnId, at: Place, pos: Position)
    requires log <= log1 <= log' && Says(log1, |log|, p, t, at, pos) && Says(log', |log1|, p, t, at, pos)
    ensures log <= log' && Says(log', |log|, p, t, at, pos)
  {
    hide Saying;
    forall k | |log| <= k < |log'| ensures Saying(log'[k], p, t, at, pos) {
      if k < |log1| { SameRecord(log1, log', k); }
    }
  }

  ghost predicate MaySay(events: seq<EventInput>, p: Persona, t: TurnId, at: Place, pos: Position) {
    forall e, n :: e in events ==> Saying(Event(p, n, t, e), p, t, at, pos)
  }

  lemma ExperienceSays(s: State, t: TurnId, events: seq<EventInput>, at: Place, pos: Position)
    requires t in s.turns && MaySay(events, s.turns[t].key.persona, t, at, pos)
    ensures var log := WithExperience(s, t, events).journal.log;
            s.journal.log <= log && Says(log, |s.journal.log|, s.turns[t].key.persona, t, at, pos)
  {
    var key, owners := s.turns[t].key, OwnersOf(s.turns);
    var j1 := EnsureReceived(s.journal, key.persona, t, key.input);
    FreshAreNew(j1, key.persona, t, events, Lineage(j1.log, owners, key));
    var log := WithExperience(s, t, events).journal.log;
    hide Lineage, AppendFresh;
    forall k | |s.journal.log| <= k < |log| ensures Saying(log[k], key.persona, t, at, pos) {
      if k < |j1.log| {
        SameRecord(j1.log, log, k);
      } else {
        assert log[k] == Event(key.persona, log[k].num, t, log[k].body);
      }
    }
  }

  lemma ToolSays(s: State, key: OpKey, at: Place, op: Operation, response: Payload, p: Persona, t: TurnId)
    ensures var log := ApplyTool(s, key, at.call, op, response).journal.log;
            s.journal.log <= log && Says(log, |s.journal.log|, p, t, at, key.pos)
  {
  }

  lemma GatedSays(s: State, p: Persona, c: ClaimRequest, w: World, key: OpKey, at: Place, op: Operation)
    requires c.turn in s.turns && PlaceOf(PlanOf(s, s.turns[c.turn].key), c.index) == Some(at)
    requires key.pos.persona == p == s.turns[c.turn].key.persona
    ensures var r := ClaimGated(s, c, w, key, at.call, op);
            r.Got? ==> s.journal.log <= r.state.journal.log && Says(r.state.journal.log, |s.journal.log|, p, c.turn, at, key.pos)
  {
    hide Says, MaySay, PlaceOf, ApplyTool, DecidedEvents, WithExperience;
    SilentSays(s.journal.log, p, c.turn, at, key.pos);
    if key.pos !in s.approvals || s.approvals[key.pos].status != Approved || s.approvals[key.pos].consumed { return; }
    DecidedMaySay(at, p, c.turn, key.pos);
    var s0 := s.(approvals := s.approvals[key.pos := s.approvals[key.pos].(consumed := true)]);
    assert Spend(s, c, key) == WithExperience(s0, c.turn, DecidedEvents(Some(at)));
    SpokenThenApplied(s0, key, at, op, w, c.turn, DecidedEvents(Some(at)));
  }

  lemma ExistingSays(s: State, p: Persona, g: nat, c: ClaimRequest, w: World, key: OpKey, at: Place)
    requires c.turn in s.turns && PlaceOf(PlanOf(s, s.turns[c.turn].key), c.index) == Some(at)
    requires key in s.ops && key.pos.persona == p == s.turns[c.turn].key.persona
    ensures var r := ClaimExisting(s, g, c, w, key, at.call);
            r.Got? ==> s.journal.log <= r.state.journal.log && Says(r.state.journal.log, |s.journal.log|, p, c.turn, at, key.pos)
  {
    hide Says, PlaceOf, PlanOf, ClaimGated;
    if s.ops[key].request == c.request && s.ops[key].status == AwaitingApproval {
      GatedSays(s, p, c, w, key, at, s.ops[key]);
      assert ClaimExisting(s, g, c, w, key, at.call) == ClaimGated(s, c, w, key, at.call, s.ops[key]);
      return;
    }
    SilentSays(s.journal.log, p, c.turn, at, key.pos);
    assert ClaimExisting(s, g, c, w, key, at.call).Got? ==> ClaimExisting(s, g, c, w, key, at.call).state.journal == s.journal;
  }

  lemma NormalSays(s: State, p: Persona, g: nat, c: ClaimRequest, w: World, key: OpKey, at: Place)
    requires c.turn in s.turns && PlaceOf(PlanOf(s, s.turns[c.turn].key), c.index) == Some(at)
    requires key.pos.persona == p == s.turns[c.turn].key.persona
    ensures var r := ClaimNormal(s, g, c, w, key, at.call);
            r.Got? ==> s.journal.log <= r.state.journal.log && Says(r.state.journal.log, |s.journal.log|, p, c.turn, at, key.pos)
  {
    hide Says, MaySay, PlaceOf, WithExperience, ApplyTool, WasDenied, DecidedEvents;
    SilentSays(s.journal.log, p, c.turn, at, key.pos);
    if WasDenied(s.approvals, key.pos, at.call) || at.call.tool == MessageSend { return; }
    DecidedMaySay(at, p, c.turn, key.pos);
    SpokenThenApplied(s, key, at, Operation(c.operation, c.turn, c.request, OpRunning, None, g), w, c.turn, DecidedEvents(Some(at)));
  }

  /** What was said before a claim's last records. */
  lemma BodySays(s: State, p: Persona, g: nat, c: ClaimRequest, w: World, at: Place)
    requires ClaimBody(s, p, g, c, w).Got? && c.turn in s.turns && PlaceOf(PlanOf(s, s.turns[c.turn].key), c.index) == Some(at)
    ensures var r := ClaimBody(s, p, g, c, w);
            s.journal.log <= r.state.journal.log && Says(r.state.journal.log, |s.journal.log|, p, c.turn, at, r.key.pos)
  {
    hide Says, Flat, Walk, ClaimExisting, ClaimNormal;
    WalkAgreesWithFlat(PlanOf(s, s.turns[c.turn].key), c.index, 0, c.index);
    var key := OpKey(Position(p, s.turns[c.turn].key.input, c.index), c.tool);
    BodyRows(s, p, g, c, w);
    if key in s.ops {
      ExistingSays(s, p, g, c, w, key, at);
    } else if at.call.route == Elevated {
      SilentSays(s.journal.log, p, c.turn, at, key.pos);
    } else {
      NormalSays(s, p, g, c, w, key, at);
    }
  }

  lemma SilentSays(log: seq<Event>, p: Persona, t: TurnId, at: Place, pos: Position)
    ensures Says(log, |log|, p, t, at, pos)
  {
  }

  lemma DecidedMaySay(at: Place, p: Persona, t: TurnId, pos: Position)
    ensures MaySay(DecidedEvents(Some(at)), p, t, at, pos)
  {
  }

  lemma SpokenThenApplied(s: State, key: OpKey, at: Place, op: Operation, w: World, t: TurnId, events: seq<EventInput>)
    requires t in s.turns && s.turns[t].key.persona == key.pos.persona && MaySay(events, key.pos.persona, t, at, key.pos)
    ensures var s1, log, p := WithExperience(s, t, events), s.journal.log, key.pos.persona;
            && log <= s1.journal.log && Says(s1.journal.log, |log|, p, t, at, key.pos)
            && (w.effect.Works? ==>
                  var log' := ApplyTool(s1, key, at.call, op, w.effect.response).journal.log;
                  log <= log' && Says(log', |log|, p, t, at, key.pos))
  {
    hide Says, MaySay, WithExperience, ApplyTool;
    ExperienceSays(s, t, events, at, key.pos);
    if w.effect.Works? {
      var s1 := WithExperience(s, t, events);
      ToolSays(s1, key, at, op, w.effect.response, key.pos.persona, t);
      SaysOn(s.journal.log, s1.journal.log, ApplyTool(s1, key, at.call, op, w.effect.response).journal.log, key.pos.persona, t, at, key.pos);
    }
  }

  lemma ClaimMaySay(at: Place, p: Persona, t: TurnId, key: OpKey, op: Operation, approval: Option<Approval>)
    ensures MaySay(ClaimEvents(Some(at), key, op, approval), p, t, at, key.pos)
  {
    hide OutcomeOf;
  }

  /** What an accepted claim journals is of its own call, as the plan records it: the
      round's text, the call, its request for approval, its result, the input's
      receipt and a note's text.  Once it has an outcome, or waits for a decision, the
      text its round came with is known. */
  lemma ClaimSays(s: State, p: Persona, g: nat, c: ClaimRequest, w: World) returns (at: Place)
    requires Claim(s, p, g, c, w).1 == Ok && c.turn in s.turns
    ensures var plan := PlanOf(s, s.turns[c.turn].key);
            && at.round < |plan| && at.text == plan[at.round].text && at.index == c.index
            && |Flat(plan[..at.round])| <= c.index < |Flat(plan[..at.round])| + |plan[at.round].calls|
            && at.call == plan[at.round].calls[c.index - |Flat(plan[..at.round])|]
    ensures var s' := Claim(s, p, g, c, w).0;
            var key := OpKey(Position(p, s.turns[c.turn].key.input, c.index), c.tool);
            && s.journal.log <= s'.journal.log && Says(s'.journal.log, |s.journal.log|, p, c.turn, at, key.pos)
            && s'.turns == s.turns && key in s'.ops
            && var op := s'.ops[key];
               at.text.Some? && (op.status == OpFailed
                                 || (op.status == OpDone && op.receipt.Some? && op.receipt.value.Response?)
                                 || (op.status == AwaitingApproval && key.pos in s'.approvals && s'.approvals[key.pos].status == Pending))
               ==> Known(s', c.turn, TextOf(at.round))
  {
    hide ClaimBody, Flat, Experienced, Lineage, Walk, Says, MaySay;
    ThrownIsNotOk(s, p, g, c, w);
    BodyRows(s, p, g, c, w);
    ParkedApproval(s, p, g, c, w);
    var r := ClaimBody(s, p, g, c, w);
    WalkAgreesWithFlat(PlanOf(s, s.turns[c.turn].key), c.index, 0, c.index);
    at := PlaceOf(PlanOf(s, s.turns[c.turn].key), c.index).value;
    BodySays(s, p, g, c, w, at);
    var events := ClaimEvents(Some(at), r.key, r.op, r.approval);
    if events == [] { return; }
    ClaimMaySay(at, p, c.turn, r.key, r.op, r.approval);
    ExperienceSays(r.state, c.turn, events, at, r.key.pos);
    SaysOn(s.journal.log, r.state.journal.log, Claim(s, p, g, c, w).0.journal.log, p, c.turn, at, r.key.pos);
    if at.text.Some? {
      assert ExperienceKey(events[0]) == Some(TextOf(at.round));
      ExperienceIsKnown(r.state, c.turn, events, TextOf(at.round));
    }
  }

  /** A parked claim answers with the approval row it waits for. */
  lemma ParkedApproval(s: State, p: Persona, g: nat, c: ClaimRequest, w: World)
    requires ClaimBody(s, p, g, c, w).Got?
    ensures var r := ClaimBody(s, p, g, c, w);
            r.op.status == AwaitingApproval && r.key.pos in r.state.approvals ==> r.approval == Some(r.state.approvals[r.key.pos])
  {
    hide Experienced, Flat, WasDenied, NoteJournal;
    var key := OpKey(Position(p, s.turns[c.turn].key.input, c.index), c.tool);
    var call := Flat(PlanOf(s, s.turns[c.turn].key))[c.index];
    if key in s.ops {
      if s.ops[key].status == AwaitingApproval { GatedApproval(s, c, w, key, call, s.ops[key]); }
      return;
    }
    if call.route == Elevated { return; }
    NormalNotParked(s, g, c, w, key, call);
  }

  lemma GatedApproval(s: State, c: ClaimRequest, w: World, key: OpKey, call: Call, op: Operation)
    requires c.turn in s.turns
    ensures var r := ClaimGated(s, c, w, key, call, op);
            r.Got? && r.op.status == AwaitingApproval && key.pos in r.state.approvals ==> r.approval == Some(r.state.approvals[key.pos])
  {
    hide Experienced, NoteJournal;
  }

  lemma NormalNotParked(s: State, g: nat, c: ClaimRequest, w: World, key: OpKey, call: Call)
    requires c.turn in s.turns
    ensures var r := ClaimNormal(s, g, c, w, key, call); r.Got? ==> r.op.status != AwaitingApproval
  {
    hide Experienced, WasDenied, NoteJournal;
  }

  /** A rejected claim of the live turn's recorded call changes no row, and is told
      as that call's failure. */
  lemma RejectionTells(s: State, p: Persona, g: nat, c: ClaimRequest, w: World)
    requires Claim(s, p, g, c, w).1 == Refused(400) && LiveTurn(s, p, g, c.turn)
    requires 0 <= c.index < |Flat(PlanOf(s, s.turns[c.turn].key))|
    requires var call := Flat(PlanOf(s, s.turns[c.turn].key))[c.index]; call.tool == c.tool && call.request == c.request
    requires ResultOf(c.index) !in Lineage(s.journal.log, OwnersOf(s.turns), s.turns[c.turn].key)
    ensures var s' := Claim(s, p, g, c, w).0;
            && s' == s.(journal := s'.journal)
            && forall o :: Told(s'.journal.log, |s.journal.log|, p, c.turn, Flat(PlanOf(s, s.turns[c.turn].key))[c.index], c.index, o)
                           <==> o == Failure(w.cause, false)
  {
    hide ClaimBody, Flat, Experienced, Lineage, Told, Walk;
    WalkAgreesWithFlat(PlanOf(s, s.turns[c.turn].key), c.index, 0, c.index);
    var at := PlaceOf(PlanOf(s, s.turns[c.turn].key), c.index).value;
    ResultIsJournaled(s, c.turn, at, Failure(w.cause, false));
    var log := s.journal.log;
    OnlyThisResult(log, log, Claim(s, p, g, c, w).0.journal.log, p, c.turn, at.call, c.index, Failure(w.cause, false));
  }

  /** The live turn's recorded call at the index, for this tool and request. */
  ghost predicate Recorded(s: State, c: ClaimRequest)
    requires c.turn in s.turns
  {
    && 0 <= c.index < |Flat(PlanOf(s, s.turns[c.turn].key))|
    && var call := Flat(PlanOf(s, s.turns[c.turn].key))[c.index]; call.tool == c.tool && call.request == c.request
  }

  /** A claim is accepted only from the live turn under the lease, for the very call
      its plan records, of a registered tool and storable; refused it changes nothing,
      but that a malformed request for a recorded call is told as its failure. */
  lemma ClaimAccepted(s: State, p: Persona, g: nat, c: ClaimRequest, w: World)
    ensures var (s', reply) := Claim(s, p, g, c, w);
            && (reply == Ok ==>
                  && p in s.leases && s.leases[p].generation == g
                  && c.turn in s.turns && s.turns[c.turn].key.persona == p && s.turns[c.turn].generation == g
                  && s.turns[c.turn].status == Running && Recorded(s, c)
                  && (c.tool.Delegated? ==> c.tool in s.registered) && !c.nul)
            && (reply != Ok && s' != s ==>
                  && reply == Refused(400) && s' == s.(journal := s'.journal)
                  && p in s.leases && s.leases[p].generation == g && c.turn in s.turns && s.turns[c.turn].key.persona == p
                  && s.turns[c.turn].generation == g && s.turns[c.turn].status == Running && Recorded(s, c))
  {
    hide ClaimExisting, ClaimElevated, ClaimNormal, Flat, Walk, Experienced, ResultEvents, ClaimEvents;
    ThrownIsNotOk(s, p, g, c, w);
    if c.turn in s.turns { WalkAgreesWithFlat(PlanOf(s, s.turns[c.turn].key), c.index, 0, c.index); }
  }

  /** Only the writer that claimed an operation finishes it, and only while it is
      running under the lease. */
  lemma CompletedByClaimant(s: State, p: Persona, key: OpKey, id: int, g: nat, answer: Payload, failed: bool)
    requires CompleteOperation(s, p, key, id, g, answer, failed) != s
    ensures p in s.leases && s.leases[p].generation == g && key.pos.persona == p
    ensures key in s.ops && s.ops[key].id == id && s.ops[key].status == OpRunning && s.ops[key].generation == g
  {
    hide CompletedJournal;
  }

  /** Completing an operation finishes it with what was reported, and is told at its
      turn's recorded call as that: a failure exactly when it was reported as one. */
  lemma CompletionTells(s: State, p: Persona, key: OpKey, id: int, g: nat, answer: Payload, failed: bool)
    requires Completes(s, p, key, id, g)
    ensures var s' := CompleteOperation(s, p, key, id, g, answer, failed);
            && s' == s.(ops := s'.ops, journal := s'.journal)
            && s'.ops == s.ops[key := if failed then s.ops[key].(status := OpFailed, receipt := Some(Error(answer)))
                                   else s.ops[key].(status := OpDone, receipt := Some(Receipt.Response(answer)))]
            && var t := s.ops[key].turn;
               t in s.turns && 0 <= key.pos.index < |Flat(PlanOf(s, s.turns[t].key))|
               && Flat(PlanOf(s, s.turns[t].key))[key.pos.index].tool == key.tool
               && ResultOf(key.pos.index) !in Lineage(s.journal.log, OwnersOf(s.turns), s.turns[t].key)
               ==>
                 var call := Flat(PlanOf(s, s.turns[t].key))[key.pos.index];
                 var log, from, q := s'.journal.log, |s.journal.log|, s.turns[t].key.persona;
                 && (forall v :: Told(log, from, q, t, call, key.pos.index, ToolOutcome.Response(v))
                                 <==> !failed && v == answer)
                 && (forall e, d :: Told(log, from, q, t, call, key.pos.index, Failure(e, d))
                                    <==> failed && e == answer && !d)
  {
    hide Flat, Experienced, Lineage, Told, Walk;
    var s' := CompleteOperation(s, p, key, id, g, answer, failed);
    var op := s'.ops[key];
    var t := op.turn;
    if t !in s.turns { return; }
    var plan := PlanOf(s, s.turns[t].key);
    WalkAgreesWithFlat(plan, key.pos.index, 0, key.pos.index);
    if !(0 <= key.pos.index < |Flat(plan)|) || Flat(plan)[key.pos.index].tool != key.tool { return; }
    if ResultOf(key.pos.index) in Lineage(s.journal.log, OwnersOf(s.turns), s.turns[t].key) { return; }
    var at, outcome, log := PlaceOf(plan, key.pos.index).value, OutcomeOf(op, None), s.journal.log;
    ResultIsJournaled(s, t, at, outcome.value);
    OnlyThisResult(log, log, s'.journal.log, s.turns[t].key.persona, t, at.call, key.pos.index, outcome.value);
  }
}
