/** The durable state service: writer leases, inputs, turns, plans, operations,
    approvals, the journal, the usage ledger and parked budget waits, with every
    operation of the state contract as a function of the whole state.

    Time is the field `clock`; what the outside world decides (the effect of a
    tool, the validity of a request) is a parameter of the step. */
module Store {
  import opened Common
  import opened Plan
  import opened Journal
  import opened Ledger

  // --------------------------------------------------------------------- rows

  /** `Moved` stands for sealed, transferred and retired. */
  datatype Authority = Active | Staged | Moved

  datatype PersonaRow = PersonaRow(human: Option<Human>, authority: Authority)

  datatype Lease = Lease(generation: nat, holder: int, expires: int)

  datatype InputStatus = Queued | Claimed | Waiting | Done

  /** `history` lists the finished waits (start and end) behind `waitedMs`. */
  datatype Input = Input(
    key: InputKey, status: InputStatus, claimedGeneration: Option<nat>, turn: Option<TurnId>,
    notBefore: Option<int>, waitingSince: Option<int>, waitedMs: int, history: seq<(int, int)>)

  datatype TurnStatus = Running | Complete | Awaiting | Failed | Interrupted

  datatype Turn = Turn(
    key: InputKey, generation: nat, attempt: nat, status: TurnStatus,
    output: Option<Payload>, usage: Option<Payload>, error: Option<Payload>)

  datatype Receipt =
    | Response(value: Payload)
    | Error(message: Payload)
    | DeniedBy(approval: Position)
    | ElevatedRouteRequired

  datatype OpStatus = OpRunning | AwaitingApproval | OpDone | OpFailed

  /** Effect identity is server-derived: the plan position and the tool. */
  datatype OpKey = OpKey(pos: Position, tool: Tool)

  datatype Operation = Operation(
    id: int, turn: TurnId, request: Payload, status: OpStatus, receipt: Option<Receipt>, generation: nat)

  datatype ApprovalStatus = Pending | Approved | DeniedApproval

  datatype Decision = Decision(approve: bool, id: int, decider: Human)

  datatype Approval = Approval(
    operation: int, turn: TurnId, call: Call, status: ApprovalStatus, decision: Option<Decision>, consumed: bool)

  datatype WaitRow = WaitRow(turn: TurnId, funding: Funding, estimate: Estimate, needed: int, currency: Currency)

  /** What the world has seen, in order: decisions taken, each with the human
      bound to the persona at that moment, and effects applied. */
  datatype Happening =
    | Decided(pos: Position, decision: Decision, owner: Option<Human>)
    | Applied(pos: Position, call: Call)

  datatype State = State(
    personas: map<Persona, PersonaRow>,
    registered: set<Tool>,
    leases: map<Persona, Lease>,
    generations: map<Persona, nat>,
    inputs: seq<Input>,
    turns: map<TurnId, Turn>,
    commits: map<TurnId, CommitRequest>,
    plans: map<InputKey, seq<Round>>,
    ops: map<OpKey, Operation>,
    approvals: map<Position, Approval>,
    journal: Journal,
    ledger: Ledger,
    waits: map<InputKey, WaitRow>,
    clock: int,
    trail: seq<Happening>)

  function Initial(): State {
    State(map[], {}, map[], map[], [], map[], map[], map[], map[], map[],
          Journal([], map[], map[]), Ledger(map[], [], []), map[], 0, [])
  }

  // ------------------------------------------------------------------ lookups

  function FindInput(inputs: seq<Input>, key: InputKey): (k: Option<nat>)
    ensures k.Some? ==> k.value < |inputs| && inputs[k.value].key == key
    ensures k.None? ==> forall i :: 0 <= i < |inputs| ==> inputs[i].key != key
  {
    if inputs == [] then None
    else if inputs[|inputs| - 1].key == key then Some(|inputs| - 1)
    else FindInput(inputs[..|inputs| - 1], key)
  }

  predicate Claimable(i: Input, p: Persona, now: int) {
    i.key.persona == p && i.status == Queued && (i.notBefore.None? || i.notBefore.value <= now)
  }

  /** The first queued input whose backoff has expired. */
  function FirstClaimable(inputs: seq<Input>, p: Persona, now: int, from: nat): (k: Option<nat>)
    requires from <= |inputs|
    ensures k.Some? ==> from <= k.value < |inputs| && Claimable(inputs[k.value], p, now)
    ensures k.Some? ==> forall i :: from <= i < k.value ==> !Claimable(inputs[i], p, now)
    ensures k.None? ==> forall i :: from <= i < |inputs| ==> !Claimable(inputs[i], p, now)
    decreases |inputs| - from
  {
    if from == |inputs| then None
    else if Claimable(inputs[from], p, now) then Some(from)
    else FirstClaimable(inputs, p, now, from + 1)
  }

  predicate Holds(s: State, p: Persona, generation: nat) {
    p in s.leases && s.leases[p].generation == generation
  }

  function OwnersOf(turns: map<TurnId, Turn>): Owners { map t | t in turns :: turns[t].key }

  predicate RunningFor(turns: map<TurnId, Turn>, t: TurnId, p: Persona) {
    t in turns && turns[t].key.persona == p && turns[t].status == Running
  }

  predicate PendingFor(approvals: map<Position, Approval>, key: InputKey) {
    exists pos :: pos in approvals && HeldBy(approvals, pos, key)
  }

  predicate HeldBy(approvals: map<Position, Approval>, pos: Position, key: InputKey)
    requires pos in approvals
  {
    pos.persona == key.persona && pos.input == key.input && approvals[pos].status == Pending
  }

  // ------------------------------------------------------------ writer leases

  /** An active persona's lease is granted unless another holder's is unexpired. */
  predicate Grants(s: State, p: Persona, holder: int) {
    && p in s.personas && s.personas[p].authority == Active
    && !(p in s.leases && s.leases[p].expires > s.clock && s.leases[p].holder != holder)
  }

  function NextGeneration(s: State, p: Persona): nat { (if p in s.generations then s.generations[p] else 0) + 1 }

  function Acquire(s: State, p: Persona, holder: int, ttl: int): State {
    if !Grants(s, p, holder) then s
    else s.(generations := s.generations[p := NextGeneration(s, p)],
            leases := s.leases[p := Lease(NextGeneration(s, p), holder, s.clock + ttl)])
  }

  function Renew(s: State, p: Persona, holder: int, generation: nat, ttl: int): State {
    if !Holds(s, p, generation) || s.leases[p].holder != holder then s
    else s.(leases := s.leases[p := s.leases[p].(expires := s.clock + ttl)])
  }

  /** Release expires the lease in place; the row and its generation stay. */
  function Release(s: State, p: Persona, holder: int, generation: nat): State {
    if !Holds(s, p, generation) || s.leases[p].holder != holder then s
    else s.(leases := s.leases[p := s.leases[p].(expires := s.clock - 1)])
  }

  // ----------------------------------------------------------------- recovery

  ghost function RunningTurns(turns: map<TurnId, Turn>, p: Persona): set<TurnId> {
    set t | t in turns && turns[t].key.persona == p && turns[t].status == Running
  }

  function InterruptTurn(t: Turn, p: Persona): Turn {
    if t.key.persona == p && t.status == Running then t.(status := Interrupted) else t
  }

  function RequeueClaimed(i: Input, p: Persona): Input {
    if i.key.persona == p && i.status == Claimed
    then i.(status := Queued, claimedGeneration := None, turn := None) else i
  }

  /** A turn that already journaled experience says its request stopped there. */
  function MarkInterrupted(j: Journal, p: Persona, t: TurnId, input: InputId): Journal {
    var key := InputKey(p, input);
    if key in j.received
       && exists k :: 0 <= k < |j.log| && j.log[k].persona == p && j.log[k].num >= j.received[key] && j.log[k].turn == t
    then Push(j, p, t, TurnPaused(ByCrash))
    else j
  }

  ghost function Pick(ts: set<TurnId>): (t: TurnId)
    requires exists t :: t in ts
    ensures t in ts
  {
    var t :| t in ts; t
  }

  ghost function MarkAll(j: Journal, p: Persona, turns: map<TurnId, Turn>, ts: set<TurnId>): Journal
    requires forall t :: t in ts ==> t in turns
    decreases |ts|
  {
    if !exists t :: t in ts then j
    else
      var t := Pick(ts);
      MarkAll(MarkInterrupted(j, p, t, turns[t].key.input), p, turns, ts - {t})
  }

  ghost function Recover(s: State, p: Persona, generation: nat): State {
    if !Holds(s, p, generation) then s
    else
      s.(turns := map t | t in s.turns :: InterruptTurn(s.turns[t], p),
         journal := MarkAll(s.journal, p, s.turns, RunningTurns(s.turns, p)),
         inputs := seq(|s.inputs|, k requires 0 <= k < |s.inputs| => RequeueClaimed(s.inputs[k], p)),
         ledger := Reconcile(s.ledger, BeforeGeneration(p, generation), 0))
  }

  // ------------------------------------------------------------------ loading

  function Attempts(turns: map<TurnId, Turn>, key: InputKey): nat {
    |set t | t in turns && turns[t].key == key && turns[t].status != Awaiting|
  }

  predicate HasRunning(turns: map<TurnId, Turn>, p: Persona) {
    exists r :: r in turns && RunningFor(turns, r, p)
  }

  /** The input a load claims: none while a turn of the persona is running (a
      lost load response under the same generation just reads it again). */
  function LoadIndex(s: State, p: Persona, generation: nat): (k: Option<nat>)
    ensures k.Some? ==> k.value < |s.inputs|
  {
    if !Holds(s, p, generation) || HasRunning(s.turns, p) then None else FirstClaimable(s.inputs, p, s.clock, 0)
  }

  function ClaimInput(i: Input, generation: nat, t: TurnId): Input {
    i.(status := Claimed, claimedGeneration := Some(generation), turn := Some(t), notBefore := None)
  }

  function Load(s: State, p: Persona, generation: nat, t: TurnId): State {
    match LoadIndex(s, p, generation)
    case None => s
    case Some(k) =>
      var i := s.inputs[k];
      s.(inputs := s.inputs[k := ClaimInput(i, generation, t)],
         turns := s.turns[t := Turn(i.key, generation, Attempts(s.turns, i.key) + 1, Running, None, None, None)])
  }

  function LoadReply(s: State, p: Persona, generation: nat): Reply {
    if !Holds(s, p, generation) then Fenced
    else if HasRunning(s.turns, p) && !exists r :: r in s.turns && RunningFor(s.turns, r, p) && s.turns[r].generation == generation
    then Refused(409)
    else Ok
  }

  // -------------------------------------------------------------------- plans

  /** The live turn of the generation that holds the lease. */
  predicate LiveTurn(s: State, p: Persona, generation: nat, t: TurnId) {
    && Holds(s, p, generation) && t in s.turns && s.turns[t].key.persona == p
    && s.turns[t].generation == generation && s.turns[t].status == Running
  }

  function PlanOf(s: State, key: InputKey): seq<Round> { if key in s.plans then s.plans[key] else [] }

  /** savePlan: one plan per input, append-only rounds.  Only the next round is
      appended; a recorded round is never replaced and none is skipped. */
  function SavePlan(s: State, p: Persona, generation: nat, t: TurnId, round: int, decision: Round, nul: bool): State {
    if !LiveTurn(s, p, generation, t) || nul || round != |PlanOf(s, s.turns[t].key)| then s
    else s.(plans := s.plans[s.turns[t].key := PlanOf(s, s.turns[t].key) + [decision]])
  }

  function SavePlanReply(s: State, p: Persona, generation: nat, t: TurnId, round: int, decision: Round, nul: bool): Reply {
    if !Holds(s, p, generation) then Fenced
    else if t !in s.turns || s.turns[t].key.persona != p then Refused(404)
    else if !LiveTurn(s, p, generation, t) then Refused(409)
    else if nul then Refused(400)
    else
      var plan := PlanOf(s, s.turns[t].key);
      if 0 <= round < |plan| then if plan[round] == decision then Ok else Refused(409)
      else if round != |plan| then Refused(409) else Ok
  }

  // ------------------------------------------------------------------- claims

  datatype ClaimRequest = ClaimRequest(operation: int, turn: TurnId, tool: Tool, index: int, request: Payload, nul: bool)

  /** What running a tool does: it takes effect, refuses deterministically
      (status 400), or fails in passing. */
  datatype Effect = Works(response: Payload) | Refuses(message: Payload) | Breaks

  /** The outside world of one claim: whether the request is well formed, what
      the tool does, the text of a rejection, and which of several identical
      denials a refused call cites. */
  datatype World = World(malformed: Option<Payload>, effect: Effect, cause: Payload, cited: Position)

  datatype Claiming =
    | Threw(reply: Reply)
    | Got(state: State, key: OpKey, op: Operation, approval: Option<Approval>, created: bool)

  predicate Registered(s: State, tool: Tool) { tool.Delegated? ==> tool in s.registered }

  function DecidedEvents(place: Option<Place>): seq<EventInput> {
    match place
    case None => []
    case Some(at) =>
      (if at.text.Some? then [AssistantMessage(at.text.value, Some(at.round))] else [])
      + [ToolCall(at.call, Some(at.round), Some(at.index))]
  }

  function AwaitingEvents(place: Option<Place>, pos: Position): seq<EventInput> {
    match place
    case None => []
    case Some(at) =>
      (if at.text.Some? then [AssistantMessage(at.text.value, Some(at.round))] else [])
      + [ApprovalRequested(at.call, Some(at.round), Some(at.index), Some(pos))]
  }

  function ResultEvents(place: Option<Place>, outcome: ToolOutcome): seq<EventInput> {
    match place
    case None => []
    case Some(at) => DecidedEvents(place) + [ToolResult(at.call.tool, at.call.callId, Some(at.index), outcome)]
  }

  /** Journal records of the turn `t` at its own input. */
  function WithExperience(s: State, t: TurnId, events: seq<EventInput>): State
    requires t in s.turns
  {
    s.(journal := Experienced(s.journal, OwnersOf(s.turns), t, s.turns[t].key, events))
  }

  /** A note is journaled after its input's receipt. */
  function NoteJournal(j: Journal, turns: map<TurnId, Turn>, p: Persona, t: TurnId, text: Payload): Journal {
    var received := if t in turns then EnsureReceived(j, p, t, turns[t].key.input) else j;
    Push(received, p, t, Note(text))
  }

  /** Apply the tool for the operation at `key`: the effect joins the trail, a
      note is journaled, and the operation is done. */
  function ApplyTool(s: State, key: OpKey, call: Call, op: Operation, response: Payload): State {
    s.(journal := if call.tool == JournalNote
                  then NoteJournal(s.journal, s.turns, key.pos.persona, op.turn, call.request) else s.journal,
       ops := s.ops[key := op.(status := OpDone, receipt := Some(Receipt.Response(response)))],
       trail := s.trail + [Applied(key.pos, call)])
  }

  function Fail(s: State, key: OpKey, op: Operation, receipt: Receipt): State {
    s.(ops := s.ops[key := op.(status := OpFailed, receipt := Some(receipt))])
  }

  predicate DeniedTwin(a: Approval, pos: Position, at: Position, call: Call) {
    && at.persona == pos.persona && at.input == pos.input
    && a.status == DeniedApproval && a.call.tool == call.tool && a.call.request == call.request
  }

  /** Some call identical to this one was denied for this input. */
  predicate WasDenied(approvals: map<Position, Approval>, pos: Position, call: Call) {
    exists at :: at in approvals && DeniedTwin(approvals[at], pos, at, call)
  }

  /** The denial cited: the one the world points at, if it is one. */
  ghost function SomeDenial(approvals: map<Position, Approval>, pos: Position, call: Call, cited: Position): (at: Position)
    requires WasDenied(approvals, pos, call)
    ensures at in approvals && DeniedTwin(approvals[at], pos, at, call)
  {
    if cited in approvals && DeniedTwin(approvals[cited], pos, cited, call) then cited
    else var at :| at in approvals && DeniedTwin(approvals[at], pos, at, call); at
  }

  ghost function ClaimBody(s: State, p: Persona, generation: nat, c: ClaimRequest, w: World): Claiming {
    if !Registered(s, c.tool) || c.nul then Threw(Refused(400))
    else if !Holds(s, p, generation) then Threw(Fenced)
    else if c.turn !in s.turns || s.turns[c.turn].key.persona != p then Threw(Refused(404))
    else if s.turns[c.turn].generation != generation || s.turns[c.turn].status != Running then Threw(Refused(409))
    else
      var planned := Flat(PlanOf(s, s.turns[c.turn].key));
      if !(0 <= c.index < |planned|) then Threw(Refused(409))
      else if planned[c.index].tool != c.tool || planned[c.index].request != c.request then Threw(Refused(409))
      else
        var key := OpKey(Position(p, s.turns[c.turn].key.input, c.index), c.tool);
        if key in s.ops then ClaimExisting(s, generation, c, w, key, planned[c.index])
        else if planned[c.index].route == Elevated then ClaimElevated(s, generation, c, w, key, planned[c.index])
        else ClaimNormal(s, generation, c, w, key, planned[c.index])
  }

  ghost function ClaimExisting(s: State, generation: nat, c: ClaimRequest, w: World, key: OpKey, call: Call): Claiming
    requires key in s.ops && c.turn in s.turns
  {
    var op := s.ops[key];
    if op.request != c.request then Threw(Refused(409))
    else if op.status == OpRunning && op.generation != generation then
      var op' := op.(generation := generation, turn := c.turn);
      Got(s.(ops := s.ops[key := op']), key, op', None, true)
    else if op.status == AwaitingApproval then ClaimGated(s, c, w, key, call, op)
    else Got(s, key, op, if key.pos in s.approvals then Some(s.approvals[key.pos]) else None, false)
  }

  /** A parked call: its approval decides whether it stays parked, replays its
      denial, or spends the one-shot grant together with the effect. */
  ghost function ClaimGated(s: State, c: ClaimRequest, w: World, key: OpKey, call: Call, op: Operation): Claiming
    requires c.turn in s.turns
  {
    if key.pos !in s.approvals then Threw(Refused(500))
    else
      var a := s.approvals[key.pos];
      if a.status != Approved || a.consumed then Got(s, key, op, Some(a), false)
      else if w.effect.Breaks? then Threw(Refused(500))
      else
        var s1 := Spend(s, c, key);
        var s2 := if w.effect.Works? then ApplyTool(s1, key, call, op, w.effect.response)
                  else Fail(s1, key, op, Error(w.effect.message));
        Got(s2, key, s2.ops[key], Some(a.(consumed := true)), true)
  }

  /** The grant is consumed and the call journaled before its effect runs. */
  function Spend(s: State, c: ClaimRequest, key: OpKey): State
    requires c.turn in s.turns && key.pos in s.approvals
  {
    WithExperience(s.(approvals := s.approvals[key.pos := s.approvals[key.pos].(consumed := true)]), c.turn,
                   DecidedEvents(PlaceOf(PlanOf(s, s.turns[c.turn].key), c.index)))
  }

  ghost function ClaimElevated(s: State, generation: nat, c: ClaimRequest, w: World, key: OpKey, call: Call): Claiming {
    var op := Operation(c.operation, c.turn, c.request, AwaitingApproval, None, generation);
    if w.malformed.Some? then
      var s1 := Fail(s, key, op, Error(w.malformed.value));
      Got(s1, key, s1.ops[key], None, true)
    else
      var a := if key.pos in s.approvals then s.approvals[key.pos]
               else Approval(c.operation, c.turn, call, Pending, None, false);
      Got(s.(ops := s.ops[key := op], approvals := s.approvals[key.pos := a]), key, op, Some(a), true)
  }

  ghost function ClaimNormal(s: State, generation: nat, c: ClaimRequest, w: World, key: OpKey, call: Call): Claiming
    requires c.turn in s.turns
  {
    var op := Operation(c.operation, c.turn, c.request, OpRunning, None, generation);
    if WasDenied(s.approvals, key.pos, call) then
      var at := SomeDenial(s.approvals, key.pos, call, w.cited);
      var s1 := Fail(s, key, op, DeniedBy(at));
      Got(s1, key, s1.ops[key], Some(s.approvals[at]), true)
    else if call.tool == MessageSend then
      var s1 := Fail(s, key, op, ElevatedRouteRequired);
      Got(s1, key, s1.ops[key], None, true)
    else
      var s1 := WithExperience(s, c.turn, DecidedEvents(PlaceOf(PlanOf(s, s.turns[c.turn].key), c.index)));
      match w.effect
      case Works(response) =>
        var s2 := ApplyTool(s1, key, call, op, response);
        Got(s2, key, s2.ops[key], None, true)
      case Refuses(_) => Threw(Refused(400))
      case Breaks => Threw(Refused(500))
  }

  function OutcomeOf(op: Operation, approval: Option<Approval>): Option<ToolOutcome> {
    if op.status == OpDone && op.receipt.Some? && op.receipt.value.Response? then
      Some(ToolOutcome.Response(op.receipt.value.value))
    else if op.status == OpFailed then
      Some(Failure(if op.receipt.Some? && op.receipt.value.Error? then op.receipt.value.message else 0,
                   approval.Some? && approval.value.status == DeniedApproval))
    else None
  }

  /** The claim's own journaling: the parked request, or the call with its
      finalized outcome. */
  function ClaimEvents(place: Option<Place>, key: OpKey, op: Operation, approval: Option<Approval>): seq<EventInput> {
    if op.status == AwaitingApproval && approval.Some? && approval.value.status == Pending
    then AwaitingEvents(place, key.pos)
    else match OutcomeOf(op, approval)
         case Some(outcome) => ResultEvents(place, outcome)
         case None => []
  }

  /** Journal a claim's events; a claim with no outcome journals nothing. */
  function JournalClaim(s: State, t: TurnId, events: seq<EventInput>): State
    requires t in s.turns
  {
    if events == [] then s else WithExperience(s, t, events)
  }

  /** A deterministic rejection is journaled as the call's result, fenced like
      the claim and only at the live turn's recorded position. */
  function JournalRejected(s: State, p: Persona, generation: nat, c: ClaimRequest, cause: Payload): State {
    if !LiveTurn(s, p, generation, c.turn) then s
    else
      var place := PlaceOf(PlanOf(s, s.turns[c.turn].key), c.index);
      if place.None? || place.value.call.tool != c.tool || place.value.call.request != c.request then s
      else WithExperience(s, c.turn, ResultEvents(place, Failure(cause, false)))
  }

  /** claimOperation: the claim and its journaling are one transaction; an error
      rolls everything back. */
  ghost function Claim(s: State, p: Persona, generation: nat, c: ClaimRequest, w: World): (State, Reply) {
    match ClaimBody(s, p, generation, c, w)
    case Threw(reply) =>
      (if reply == Refused(400) then JournalRejected(s, p, generation, c, w.cause) else s, reply)
    case Got(s1, key, op, approval, _) =>
      if c.turn !in s1.turns then (s1, Ok) else
      var place := PlaceOf(PlanOf(s1, s1.turns[c.turn].key), c.index);
      (JournalClaim(s1, c.turn, ClaimEvents(place, key, op, approval)), Ok)
  }

  /** Only the claiming generation finishes an operation still running. */
  predicate Completes(s: State, p: Persona, key: OpKey, operation: int, generation: nat) {
    && Holds(s, p, generation) && key in s.ops && key.pos.persona == p
    && s.ops[key].id == operation && s.ops[key].status == OpRunning && s.ops[key].generation == generation
  }

  /** completeOperation for the stored operation `key` whose id is `operation`:
      the outcome is journaled at the finalizing turn's plan position. */
  function CompleteOperation(s: State, p: Persona, key: OpKey, operation: int, generation: nat, answer: Payload, failed: bool): State {
    if !Completes(s, p, key, operation, generation) then s else
    var op := if failed then s.ops[key].(status := OpFailed, receipt := Some(Error(answer)))
              else s.ops[key].(status := OpDone, receipt := Some(Receipt.Response(answer)));
    s.(ops := s.ops[key := op], journal := CompletedJournal(s, key, op))
  }

  function CompletedJournal(s: State, key: OpKey, op: Operation): Journal {
    if op.turn !in s.turns then s.journal else
    var place := PlaceOf(PlanOf(s, s.turns[op.turn].key), key.pos.index);
    if place.None? || place.value.call.tool != key.tool then s.journal
    else JournalClaim(s, op.turn, ClaimEvents(place, key, op, None)).journal
  }

  // ---------------------------------------------------------------- approvals

  function Requeued(i: Input, now: int): Input {
    var i1 := i.(status := Queued, claimedGeneration := None, turn := None, notBefore := None);
    match i.waitingSince
    case None => i1
    case Some(since) =>
      i1.(waitedMs := i.waitedMs + (now - since), waitingSince := None, history := i.history + [(since, now)])
  }

  function DenyOp(key: OpKey, op: Operation, p: Persona, pos: Position, operation: int): Operation {
    if key.pos.persona == p && op.id == operation && op.status == AwaitingApproval
    then op.(status := OpFailed, receipt := Some(DeniedBy(pos))) else op
  }

  /** A decision is taken only from the active persona's bound human, on one of
      its own approvals that is still pending. */
  predicate Decides(s: State, p: Persona, pos: Position, d: Decision, valid: bool) {
    && valid && p in s.personas && s.personas[p].authority == Active && s.personas[p].human == Some(d.decider)
    && pos in s.approvals && pos.persona == p && s.approvals[pos].status == Pending
  }

  function DecidedInputs(inputs: seq<Input>, key: InputKey, now: int): seq<Input> {
    var k := FindInput(inputs, key);
    if k.Some? && inputs[k.value].status == Waiting
    then inputs[k.value := Requeued(inputs[k.value], now)] else inputs
  }

  /** resolveApproval: a pending approval resolves exactly once; a denial
      finalizes its parked operation, and the parked input is requeued. */
  function Resolve(s: State, p: Persona, pos: Position, d: Decision, valid: bool): State {
    if !Decides(s, p, pos, d, valid) then s else
    var a := s.approvals[pos];
    s.(approvals := s.approvals[pos := a.(status := if d.approve then Approved else DeniedApproval, decision := Some(d))],
       ops := if d.approve then s.ops else map o | o in s.ops :: DenyOp(o, s.ops[o], p, pos, a.operation),
       journal := Push(s.journal, p, a.turn, ApprovalDecided(pos, d.approve, d.decider)),
       inputs := DecidedInputs(s.inputs, InputKey(p, pos.input), s.clock),
       trail := s.trail + [Decided(pos, d, s.personas[p].human)])
  }

  function ResolveReply(s: State, p: Persona, pos: Position, d: Decision, valid: bool): Reply {
    if !valid then Refused(400)
    else if p in s.personas && s.personas[p].authority != Active then Refused(409)
    else if p !in s.personas || s.personas[p].human != Some(d.decider) then Refused(403)
    else if pos !in s.approvals || pos.persona != p then Refused(404)
    else if s.approvals[pos].status != Pending && s.approvals[pos].decision != Some(d) then Refused(409)
    else Ok
  }

  // -------------------------------------------------------------- budget waits

  /** Requeue a still-waiting input unless a pending approval also holds it. */
  function Woken(i: Input, freed: set<InputKey>, approvals: map<Position, Approval>, now: int): Input {
    if i.key in freed && i.status == Waiting && !PendingFor(approvals, i.key) then Requeued(i, now) else i
  }

  function Wake(s: State, freed: set<InputKey>): State {
    s.(waits := map k | k in s.waits && k !in freed :: s.waits[k],
       inputs := seq(|s.inputs|, k requires 0 <= k < |s.inputs| => Woken(s.inputs[k], freed, s.approvals, s.clock)))
  }

  function Fitting(s: State, fund: Funding): set<InputKey> {
    set k | k in s.waits && s.waits[k].funding == fund && Fits(s.ledger, fund, s.waits[k].estimate)
  }

  /** Restate a wait under the card now in force. */
  function Restated(l: Ledger, w: WaitRow, fund: Funding): WaitRow {
    if w.funding == fund && fund in l.budgets
    then w.(needed := PriceEstimate(w.estimate, l.budgets[fund].card), currency := l.budgets[fund].card.currency)
    else w
  }

  /** resumeBudgetWaits: requeue the waits on `fund` that fit, restate the rest. */
  function ResumeWaits(s: State, fund: Funding): State {
    Wake(s.(waits := map k | k in s.waits :: Restated(s.ledger, s.waits[k], fund)), Fitting(s, fund))
  }

  function SetBudget(s: State, fund: Funding, b: Option<Budget>): State {
    var budgets := match b case Some(v) => s.ledger.budgets[fund := v] case None => s.ledger.budgets - {fund};
    ResumeWaits(s.(ledger := s.ledger.(budgets := budgets)), fund)
  }

  function ResumeForHuman(s: State, h: Human): State {
    Wake(s, set k | k in s.waits && k.persona in s.personas && s.personas[k.persona].human == Some(h))
  }

  function AdmitUsage(s: State, p: Persona, generation: nat, req: AdmitRequest): State {
    if !Holds(s, p, generation) then s else s.(ledger := Admit(s.ledger, p, generation, req).0)
  }

  function AdmitReply(s: State, p: Persona, generation: nat, req: AdmitRequest): Reply {
    if !Holds(s, p, generation) then Fenced else Admit(s.ledger, p, generation, req).1
  }

  /** recordUsage is not fenced: the spend already happened. */
  function RecordUsage(s: State, p: Persona, req: RecordRequest): State {
    var r := Record(s.ledger, p, req);
    var s1 := s.(ledger := r.ledger);
    if r.resume then ResumeWaits(s1, req.funding) else s1
  }

  // ------------------------------------------------------------------- commit

  datatype CommitOutcome = ToComplete | ToAwait | ToFail

  /** A JSON `error` field: left out, present but undefined, a text without a NUL
      character, or a text with one together with what is left without it. */
  datatype ErrorField = Absent | Undefined | Text(message: Payload) | NulText(message: Payload, stripped: Payload)

  datatype WaitRequest = WaitRequest(budgetKind: bool, named: bool, funding: Funding, estimate: Option<Estimate>)

  datatype CommitRequest = CommitRequest(
    outcome: CommitOutcome, events: seq<EventInput>, output: Option<Payload>, usage: Option<Payload>,
    error: ErrorField, retryable: bool, retryAfter: int, wait: Option<WaitRequest>, unstorable: bool)

  predicate ValidWait(w: WaitRequest) {
    && w.budgetKind && w.named && w.estimate.Some?
    && w.estimate.value.inputTokens >= 0 && w.estimate.value.outputBound.GetOr(0) >= 0
  }

  /** The stored request always carries an `error` key, without its NULs. */
  function Stored(req: CommitRequest): CommitRequest {
    match req.error
    case Absent => req.(error := Undefined)
    case NulText(_, stripped) => req.(error := Text(stripped))
    case _ => req
  }

  predicate BadReceipt(s: State, p: Persona, e: EventInput) {
    e.InputReceived? && (e.input.None? || FindInput(s.inputs, InputKey(p, e.input.value)).None?)
  }

  function BackoffMs(attempt: nat): int {
    if attempt <= 1 then 200 else if attempt == 2 then 400 else if attempt == 3 then 800
    else if attempt == 4 then 1_600 else if attempt == 5 then 3_200 else if attempt == 6 then 6_400
    else if attempt == 7 then 12_800 else if attempt == 8 then 25_600 else 30_000
  }

  function Parked(i: Input, now: int): Input { i.(status := Waiting, waitingSince := Some(now)) }

  function BackInQueue(i: Input): Input {
    i.(status := Queued, claimedGeneration := None, turn := None, notBefore := None)
  }

  /** Does an await commit park its input?  Only while its estimate does not
      fit, or while an approval for it is still pending. */
  predicate Parks(s: State, key: InputKey, wait: Option<WaitRequest>)
    requires wait.Some? ==> ValidWait(wait.value)
  {
    match wait
    case Some(w) => !Fits(s.ledger, w.funding, w.estimate.value)
    case None => PendingFor(s.approvals, key)
  }

  function NewRow(l: Ledger, t: TurnId, fund: Funding, e: Estimate): WaitRow
    requires !Fits(l, fund, e)
  {
    var card := l.budgets[fund].card;
    WaitRow(t, fund, e, PriceEstimate(e, card), card.currency)
  }

  function RetryAt(s: State, attempt: nat, req: CommitRequest): int {
    s.clock + Max(BackoffMs(attempt), Min(Max(req.retryAfter, 0), 120_000))
  }

  function ClosedTurn(t: Turn, req: CommitRequest): Turn {
    match req.outcome
    case ToComplete => t.(status := Complete, output := req.output, usage := req.usage)
    case ToAwait => t.(status := Awaiting)
    case ToFail => t.(status := Failed, error := Some(if Stored(req).error.Text? then Stored(req).error.message else 0))
  }

  /** What the commit refuses before it changes anything. */
  predicate CommitRefused(s: State, p: Persona, req: CommitRequest) {
    req.unstorable || exists e :: e in req.events && BadReceipt(s, p, e)
  }

  /** A malformed wait is refused only after the turn was already closed. */
  predicate MalformedWait(req: CommitRequest) {
    req.outcome == ToAwait && req.wait.Some? && !ValidWait(req.wait.value)
  }

  function CommitJournal(s: State, p: Persona, t: TurnId, req: CommitRequest): Journal
    requires t in s.turns && !CommitRefused(s, p, req)
  {
    assert forall e :: e in req.events && e.InputReceived? ==> !BadReceipt(s, p, e);
    AppendCommitted(s.journal, p, t, req.events, Lineage(s.journal.log, OwnersOf(s.turns), s.turns[t].key))
  }

  /** What the commit does to its turn's input. */
  function DisposedInput(s: State, i: Input, attempt: nat, req: CommitRequest): Input
    requires !MalformedWait(req)
  {
    match req.outcome
    case ToComplete => i.(status := Done)
    case ToAwait => if Parks(s, i.key, req.wait) then Parked(i, s.clock) else BackInQueue(i)
    case ToFail =>
      if req.retryable
      then i.(status := Queued, claimedGeneration := None, turn := None, notBefore := Some(RetryAt(s, attempt, req)))
      else i.(status := Done)
  }

  /** A parked budget wait leaves a row. */
  function CommitWaits(s: State, t: TurnId, key: InputKey, req: CommitRequest): map<InputKey, WaitRow>
    requires !MalformedWait(req)
  {
    if req.outcome == ToAwait && req.wait.Some? && Parks(s, key, req.wait)
    then s.waits[key := NewRow(s.ledger, t, req.wait.value.funding, req.wait.value.estimate.value)]
    else s.waits
  }

  /** Does the commit get past its refusals and close a running turn? */
  predicate Commits(s: State, p: Persona, t: TurnId, generation: nat, req: CommitRequest) {
    && Holds(s, p, generation)
    && t in s.turns && s.turns[t].key.persona == p && s.turns[t].status == Running
    && !CommitRefused(s, p, req)
    && FindInput(s.inputs, s.turns[t].key).Some?
  }

  /** The records land and the turn closes; then a malformed wait is refused
      with that much already done, and otherwise the input is disposed of, the
      request stored and the turn's holds reconciled. */
  function Committed(s: State, p: Persona, t: TurnId, generation: nat, req: CommitRequest): State
    requires Commits(s, p, t, generation, req)
  {
    var turn := s.turns[t];
    var k := FindInput(s.inputs, turn.key).value;
    s.(journal := CommitJournal(s, p, t, req),
       turns := s.turns[t := ClosedTurn(turn, req)],
       inputs := if MalformedWait(req) then s.inputs
                 else s.inputs[k := DisposedInput(s, s.inputs[k], turn.attempt, req)],
       waits := if MalformedWait(req) then s.waits else CommitWaits(s, t, turn.key, req),
       commits := if MalformedWait(req) then s.commits else s.commits[t := Stored(req)],
       ledger := if MalformedWait(req) then s.ledger else Reconcile(s.ledger, OfTurn(p, t), 0))
  }

  function Commit(s: State, p: Persona, t: TurnId, generation: nat, req: CommitRequest): State {
    if Commits(s, p, t, generation, req) then Committed(s, p, t, generation, req) else s
  }

  function CommitReply(s: State, p: Persona, t: TurnId, generation: nat, req: CommitRequest): Reply {
    if !Holds(s, p, generation) then Fenced
    else if t !in s.turns || s.turns[t].key.persona != p then Refused(500)
    else if s.turns[t].status != Running then if t in s.commits && s.commits[t] != req then Refused(409) else Ok
    else if CommitRefused(s, p, req) then Refused(400)
    else if FindInput(s.inputs, s.turns[t].key).None? then Refused(500)
    else if MalformedWait(req) then Refused(400)
    else Ok
  }

  // -------------------------------------------------------------------- steps

  /** Everything that can happen to the store, in any order. */
  datatype Step =
    | Tick(ms: nat)
    | AddPersona(p: Persona, bound: Option<Human>)
    | BindHuman(p: Persona, human: Human)
    | SetAuthority(p: Persona, authority: Authority)
    | Register(tool: Tool)
    | AddInput(key: InputKey)
    | AcquireStep(p: Persona, holder: int, ttl: int)
    | RenewStep(p: Persona, holder: int, generation: nat, ttl: int)
    | ReleaseStep(p: Persona, holder: int, generation: nat)
    | RecoverStep(p: Persona, generation: nat)
    | LoadStep(p: Persona, generation: nat, turn: TurnId)
    | SavePlanStep(p: Persona, generation: nat, turn: TurnId, round: int, decision: Round, nul: bool)
    | ClaimStep(p: Persona, generation: nat, claim: ClaimRequest, world: World)
    | CompleteStep(p: Persona, opKey: OpKey, operation: int, generation: nat, answer: Payload, failed: bool)
    | ResolveStep(p: Persona, pos: Position, d: Decision, valid: bool)
    | CommitStep(p: Persona, turn: TurnId, generation: nat, req: CommitRequest)
    | AdmitStep(p: Persona, generation: nat, admit: AdmitRequest)
    | RecordStep(p: Persona, record: RecordRequest)
    | BudgetStep(fund: Funding, budget: Option<Budget>)
    | HumanStep(human: Human)

  // What a caller may or may not take care of; each theorem names what it needs.

  /** A load uses a turn id no turn has. */
  ghost predicate FreshTurn(s: State, step: Step) { step.LoadStep? ==> step.turn !in s.turns }

  /** A call is admitted before it is recorded. */
  ghost predicate AdmitsFirst(s: State, step: Step) {
    step.AdmitStep? ==> AdmittedFirst(s.ledger, CallKey(step.p, step.admit.fact))
  }

  /** An await commit carries a well-formed wait. */
  predicate SoundWait(step: Step) { step.CommitStep? ==> !MalformedWait(step.req) }

  /** Inputs arrive under a fresh id; a known id is the same input again. */
  function Enqueue(s: State, key: InputKey): State {
    if FindInput(s.inputs, key).Some? then s
    else s.(inputs := s.inputs + [Input(key, Queued, None, None, None, None, 0, [])])
  }

  /** A persona is added once; a bound human is never replaced. */
  function Personas(s: State, step: Step): map<Persona, PersonaRow> {
    match step
    case AddPersona(p, h) => if p in s.personas then s.personas else s.personas[p := PersonaRow(h, Active)]
    case BindHuman(p, h) =>
      if p in s.personas && s.personas[p].human.None? && s.personas[p].authority != Moved
      then s.personas[p := s.personas[p].(human := Some(h))] else s.personas
    case SetAuthority(p, a) => if p in s.personas then s.personas[p := s.personas[p].(authority := a)] else s.personas
    case _ => s.personas
  }

  ghost function Apply(s: State, step: Step): State {
    match step
    case Tick(ms) => s.(clock := s.clock + ms)
    case AddPersona(_, _) => s.(personas := Personas(s, step))
    case BindHuman(_, _) => s.(personas := Personas(s, step))
    case SetAuthority(_, _) => s.(personas := Personas(s, step))
    case Register(tool) => s.(registered := s.registered + {tool})
    case AddInput(key) => Enqueue(s, key)
    case AcquireStep(p, holder, ttl) => Acquire(s, p, holder, ttl)
    case RenewStep(p, holder, g, ttl) => Renew(s, p, holder, g, ttl)
    case ReleaseStep(p, holder, g) => Release(s, p, holder, g)
    case RecoverStep(p, g) => Recover(s, p, g)
    case LoadStep(p, g, t) => Load(s, p, g, t)
    case SavePlanStep(p, g, t, round, decision, nul) => SavePlan(s, p, g, t, round, decision, nul)
    case ClaimStep(p, g, c, w) => Claim(s, p, g, c, w).0
    case CompleteStep(p, key, id, g, answer, failed) => CompleteOperation(s, p, key, id, g, answer, failed)
    case ResolveStep(p, pos, d, valid) => Resolve(s, p, pos, d, valid)
    case CommitStep(p, t, g, req) => Commit(s, p, t, g, req)
    case AdmitStep(p, g, req) => AdmitUsage(s, p, g, req)
    case RecordStep(p, req) => RecordUsage(s, p, req)
    case BudgetStep(fund, b) => SetBudget(s, fund, b)
    case HumanStep(h) => ResumeForHuman(s, h)
  }

  /** The state after a run: any interleaving of writers, crashes and humans. */
  ghost function Exec(s: State, steps: seq<Step>): State {
    if steps == [] then s else Apply(Exec(s, steps[..|steps| - 1]), steps[|steps| - 1])
  }
}
