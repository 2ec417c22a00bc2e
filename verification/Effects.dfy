/** Exactly-once effects and the approval gate: what every step of the store
    keeps about plans, operations, approvals and the world's trail. */
module Effects {
  import opened Common
  import opened Plan
  import opened Ledger
  import opened Store

  type Plans = map<InputKey, seq<Round>>
  type Ops = map<OpKey, Operation>
  type Approvals = map<Position, Approval>

  /** The call recorded at a plan position. */
  function CallAt(plans: Plans, pos: Position): Option<Call> {
    var key := InputKey(pos.persona, pos.input);
    if key in plans && 0 <= pos.index < |Flat(plans[key])| then Some(Flat(plans[key])[pos.index]) else None
  }

  /** Every operation is bound to the call its plan records at its position. */
  ghost predicate OpsPlanned(plans: Plans, ops: Ops) {
    forall k :: k in ops ==>
      && CallAt(plans, k.pos).Some?
      && CallAt(plans, k.pos).value.tool == k.tool
      && CallAt(plans, k.pos).value.request == ops[k].request
  }

  /** No operation is left running: a claim finalizes its row or removes it. */
  ghost predicate NoneRunning(ops: Ops) {
    forall k :: k in ops ==> ops[k].status != OpRunning
  }

  /** Every approval belongs to the operation of an elevated call. */
  ghost predicate ApprovalsBound(plans: Plans, ops: Ops, approvals: Approvals) {
    forall pos :: pos in approvals ==>
      var a := approvals[pos];
      && CallAt(plans, pos) == Some(a.call)
      && a.call.route == Elevated
      && OpKey(pos, a.call.tool) in ops
      && ops[OpKey(pos, a.call.tool)].id == a.operation
      && (a.status == Pending <==> a.decision.None?)
      && (a.status == Approved <==> a.decision.Some? && a.decision.value.approve)
      && (a.consumed ==> a.status == Approved)
  }

  /** A parked operation has an approval that is neither denied nor spent. */
  ghost predicate ParkedGated(ops: Ops, approvals: Approvals) {
    forall k :: k in ops && ops[k].status == AwaitingApproval ==>
      && k.pos in approvals
      && approvals[k.pos].status != DeniedApproval
      && !approvals[k.pos].consumed
  }

  /** Every applied effect is the recorded call of a finished operation. */
  ghost predicate AppliedDone(plans: Plans, ops: Ops, trail: seq<Happening>) {
    forall j :: 0 <= j < |trail| && trail[j].Applied? ==>
      && CallAt(plans, trail[j].pos) == Some(trail[j].call)
      && OpKey(trail[j].pos, trail[j].call.tool) in ops
      && ops[OpKey(trail[j].pos, trail[j].call.tool)].status == OpDone
  }

  /** No plan position has its effect applied twice. */
  ghost predicate AtMostOnce(trail: seq<Happening>) {
    forall i, j :: 0 <= i < j < |trail| && trail[i].Applied? && trail[j].Applied? ==> trail[i].pos != trail[j].pos
  }

  /** The decisions in the trail are exactly the approvals' recorded ones. */
  ghost predicate DecisionsRecorded(approvals: Approvals, trail: seq<Happening>) {
    && (forall j :: 0 <= j < |trail| && trail[j].Decided? ==>
          && trail[j].pos in approvals
          && approvals[trail[j].pos].decision == Some(trail[j].decision)
          && trail[j].owner == Some(trail[j].decision.decider))
    && (forall pos :: pos in approvals && approvals[pos].decision.Some? ==> DecidedAt(trail, pos, |trail|))
  }

  /** Some decision for `pos` stands in the trail before index `n`. */
  ghost predicate DecidedAt(trail: seq<Happening>, pos: Position, n: int) {
    exists i :: 0 <= i < n && i < |trail| && trail[i].Decided? && trail[i].pos == pos
  }

  /** The bound human's approval of `pos` stands before index `n`. */
  ghost predicate ApprovedBefore(trail: seq<Happening>, pos: Position, n: int) {
    exists i :: 0 <= i < n && i < |trail| && IsApproval(trail[i], pos)
  }

  predicate IsApproval(h: Happening, pos: Position) {
    h.Decided? && h.pos == pos && h.decision.approve && h.owner == Some(h.decision.decider)
  }

  /** Every elevated effect follows the bound human's approval of its position. */
  ghost predicate ElevatedApproved(trail: seq<Happening>) {
    forall j :: 0 <= j < |trail| && trail[j].Applied? && trail[j].call.route == Elevated ==>
      ApprovedBefore(trail, trail[j].pos, j)
  }

  /** Every elevated effect has spent its grant. */
  ghost predicate GrantsSpent(approvals: Approvals, trail: seq<Happening>) {
    forall j :: 0 <= j < |trail| && trail[j].Applied? && trail[j].call.route == Elevated ==>
      trail[j].pos in approvals && approvals[trail[j].pos].consumed
  }

  /** A normal-route effect identical to a denied call of the same input. */
  predicate Sidesteps(approvals: Approvals, denial: Happening, effect: Happening) {
    && denial.Decided? && !denial.decision.approve
    && effect.Applied? && effect.call.route == Normal
    && effect.pos.persona == denial.pos.persona && effect.pos.input == denial.pos.input
    && denial.pos in approvals
    && approvals[denial.pos].call.tool == effect.call.tool
    && approvals[denial.pos].call.request == effect.call.request
  }

  /** No denial is later sidestepped by the same call on the normal route. */
  ghost predicate NoSidestep(approvals: Approvals, trail: seq<Happening>) {
    forall i, j :: 0 <= i < j < |trail| ==> !Sidesteps(approvals, trail[i], trail[j])
  }

  ghost predicate EffectInv(plans: Plans, ops: Ops, approvals: Approvals, trail: seq<Happening>) {
    && OpsPlanned(plans, ops) && NoneRunning(ops)
    && ApprovalsBound(plans, ops, approvals) && ParkedGated(ops, approvals)
    && AppliedDone(plans, ops, trail) && AtMostOnce(trail)
    && DecisionsRecorded(approvals, trail)
    && ElevatedApproved(trail) && NoSidestep(approvals, trail) && GrantsSpent(approvals, trail)
  }

  ghost predicate Inv(s: State) { EffectInv(s.plans, s.ops, s.approvals, s.trail) }

  // ------------------------------------------------------------ growing plans

  /** Plans only ever gain calls at the end. */
  ghost predicate PlansGrow(plans: Plans, plans': Plans) {
    forall pos :: CallAt(plans, pos).Some? ==> CallAt(plans', pos) == CallAt(plans, pos)
  }

  lemma GrownPlansKeep(plans: Plans, plans': Plans, ops: Ops, approvals: Approvals, trail: seq<Happening>)
    requires EffectInv(plans, ops, approvals, trail) && PlansGrow(plans, plans')
    ensures EffectInv(plans', ops, approvals, trail)
  {
  }

  lemma AppendGrows(plans: Plans, key: InputKey, decision: Round)
    ensures PlansGrow(plans, plans[key := (if key in plans then plans[key] else []) + [decision]])
  {
    var plan := if key in plans then plans[key] else [];
    var plans' := plans[key := plan + [decision]];
    forall pos | CallAt(plans, pos).Some? ensures CallAt(plans', pos) == CallAt(plans, pos) {
      if InputKey(pos.persona, pos.input) == key {
        FlatStable(plan, decision, pos.index);
      }
    }
  }

  lemma SavePlanKeeps(s: State, p: Persona, g: nat, t: TurnId, round: int, decision: Round, nul: bool)
    requires Inv(s)
    ensures Inv(SavePlan(s, p, g, t, round, decision, nul))
  {
    var s' := SavePlan(s, p, g, t, round, decision, nul);
    if s'.plans == s.plans { return; }
    AppendGrows(s.plans, s.turns[t].key, decision);
    GrownPlansKeep(s.plans, s'.plans, s.ops, s.approvals, s.trail);
  }

  // --------------------------------------------------------- one kind of change

  /** A row that finished without an effect: parked, or failed. */
  lemma FailKeeps(plans: Plans, ops: Ops, approvals: Approvals, trail: seq<Happening>, k: OpKey, op: Operation)
    requires EffectInv(plans, ops, approvals, trail)
    requires op.status == OpFailed
    requires k in ops ==> ops[k].status == AwaitingApproval && ops[k].id == op.id
    requires CallAt(plans, k.pos).Some? && CallAt(plans, k.pos).value.tool == k.tool
    requires CallAt(plans, k.pos).value.request == op.request
    ensures EffectInv(plans, ops[k := op], approvals, trail)
  {
  }

  lemma ParkKeeps(plans: Plans, ops: Ops, approvals: Approvals, trail: seq<Happening>, k: OpKey, op: Operation, a: Approval)
    requires EffectInv(plans, ops, approvals, trail)
    requires k !in ops && op.status == AwaitingApproval
    requires CallAt(plans, k.pos) == Some(a.call) && a.call.tool == k.tool && a.call.request == op.request
    requires a.call.route == Elevated && a == Approval(op.id, op.turn, a.call, Pending, None, false)
    ensures k.pos !in approvals
    ensures EffectInv(plans, ops[k := op], approvals[k.pos := a], trail)
  {
    var approvals' := approvals[k.pos := a];
    assert k.pos !in approvals;
    assert DecisionsRecorded(approvals', trail);
    forall i, j | 0 <= i < j < |trail| ensures !Sidesteps(approvals', trail[i], trail[j]) {
      assert !Sidesteps(approvals, trail[i], trail[j]);
    }
  }

  /** One more effect, at a position that had none. */
  lemma TrailApply(plans: Plans, ops: Ops, approvals: Approvals, trail: seq<Happening>, pos: Position, call: Call)
    requires AppliedDone(plans, ops, trail) && AtMostOnce(trail) && ElevatedApproved(trail)
    requires DecisionsRecorded(approvals, trail) && NoSidestep(approvals, trail)
    requires CallAt(plans, pos) == Some(call)
    requires OpKey(pos, call.tool) in ops ==> ops[OpKey(pos, call.tool)].status != OpDone
    requires call.route == Elevated ==> ApprovedBefore(trail, pos, |trail|)
    requires call.route == Normal ==>
               forall i :: 0 <= i < |trail| ==> !Sidesteps(approvals, trail[i], Applied(pos, call))
    ensures AtMostOnce(trail + [Applied(pos, call)])
    ensures ElevatedApproved(trail + [Applied(pos, call)])
    ensures NoSidestep(approvals, trail + [Applied(pos, call)])
    ensures DecisionsRecorded(approvals, trail + [Applied(pos, call)])
  {
    var trail' := trail + [Applied(pos, call)];
    assert forall i :: 0 <= i < |trail| ==> trail'[i] == trail[i];
    forall j | 0 <= j < |trail'| && trail'[j].Applied? && trail'[j].call.route == Elevated
      ensures ApprovedBefore(trail', trail'[j].pos, j)
    {
      assert ApprovedBefore(trail, trail'[j].pos, j);
      var i :| 0 <= i < j && i < |trail| && IsApproval(trail[i], trail'[j].pos);
      assert IsApproval(trail'[i], trail'[j].pos);
    }
    forall q | q in approvals && approvals[q].decision.Some? ensures DecidedAt(trail', q, |trail'|) {
      var i :| 0 <= i < |trail| && trail[i].Decided? && trail[i].pos == q;
      assert trail'[i].Decided? && trail'[i].pos == q;
    }
  }

  /** The operation row of an effect just applied. */
  lemma DoneKeeps(plans: Plans, ops: Ops, approvals: Approvals, trail: seq<Happening>, k: OpKey, op: Operation, call: Call)
    requires OpsPlanned(plans, ops) && NoneRunning(ops) && ApprovalsBound(plans, ops, approvals)
    requires AppliedDone(plans, ops, trail)
    requires op.status == OpDone && (k in ops ==> ops[k].id == op.id)
    requires CallAt(plans, k.pos) == Some(call) && call.tool == k.tool && call.request == op.request
    ensures OpsPlanned(plans, ops[k := op]) && NoneRunning(ops[k := op])
    ensures ApprovalsBound(plans, ops[k := op], approvals)
    ensures AppliedDone(plans, ops[k := op], trail + [Applied(k.pos, call)])
  {
  }

  /** An effect on the normal route: no row yet, and no identical denied call. */
  lemma NormalKeeps(plans: Plans, ops: Ops, approvals: Approvals, trail: seq<Happening>, k: OpKey, op: Operation, call: Call)
    requires EffectInv(plans, ops, approvals, trail)
    requires k !in ops && op.status == OpDone
    requires CallAt(plans, k.pos) == Some(call) && call.tool == k.tool && call.request == op.request
    requires call.route == Normal && !WasDenied(approvals, k.pos, call)
    ensures EffectInv(plans, ops[k := op], approvals, trail + [Applied(k.pos, call)])
  {
    forall i | 0 <= i < |trail| ensures !Sidesteps(approvals, trail[i], Applied(k.pos, call)) {
      if Sidesteps(approvals, trail[i], Applied(k.pos, call)) {
        assert DeniedTwin(approvals[trail[i].pos], k.pos, trail[i].pos, call);
      }
    }
    TrailApply(plans, ops, approvals, trail, k.pos, call);
    DoneKeeps(plans, ops, approvals, trail, k, op, call);
  }

  /** Spending a grant changes only its consumed flag. */
  lemma SpendKeeps(plans: Plans, ops: Ops, approvals: Approvals, trail: seq<Happening>, k: OpKey, op: Operation)
    requires EffectInv(plans, ops, approvals, trail)
    requires k in ops && ops[k].status == AwaitingApproval && op.id == ops[k].id && op.request == ops[k].request
    requires op.status == OpFailed
    requires approvals[k.pos].status == Approved
    ensures EffectInv(plans, ops[k := op], approvals[k.pos := approvals[k.pos].(consumed := true)], trail)
  {
    assert OpKey(k.pos, approvals[k.pos].call.tool) == k;
    SpendTrail(approvals, trail, k.pos);
    SpendRows(plans, ops, approvals, k, op);
    assert AppliedDone(plans, ops[k := op], trail);
  }

  lemma SpendTrail(approvals: Approvals, trail: seq<Happening>, pos: Position)
    requires DecisionsRecorded(approvals, trail) && NoSidestep(approvals, trail) && pos in approvals
    ensures DecisionsRecorded(approvals[pos := approvals[pos].(consumed := true)], trail)
    ensures NoSidestep(approvals[pos := approvals[pos].(consumed := true)], trail)
  {
    var approvals' := approvals[pos := approvals[pos].(consumed := true)];
    forall i, j | 0 <= i < j < |trail| ensures !Sidesteps(approvals', trail[i], trail[j]) {
      assert !Sidesteps(approvals, trail[i], trail[j]);
    }
  }

  lemma SpendRows(plans: Plans, ops: Ops, approvals: Approvals, k: OpKey, op: Operation)
    requires OpsPlanned(plans, ops) && NoneRunning(ops) && ApprovalsBound(plans, ops, approvals) && ParkedGated(ops, approvals)
    requires k in ops && ops[k].status == AwaitingApproval && op.id == ops[k].id && op.request == ops[k].request
    requires op.status == OpFailed && approvals[k.pos].status == Approved && OpKey(k.pos, approvals[k.pos].call.tool) == k
    ensures var ops', approvals' := ops[k := op], approvals[k.pos := approvals[k.pos].(consumed := true)];
            && OpsPlanned(plans, ops') && NoneRunning(ops')
            && ApprovalsBound(plans, ops', approvals') && ParkedGated(ops', approvals')
  {
    hide CallAt;
    forall o | o in ops && ops[o].status == AwaitingApproval && o.pos == k.pos ensures o == k { SameTool(plans, ops, o, k); }
  }

  /** Two operations at one position are the same operation. */
  lemma SameTool(plans: Plans, ops: Ops, o: OpKey, k: OpKey)
    requires OpsPlanned(plans, ops) && o in ops && k in ops && o.pos == k.pos
    ensures o == k
  {
  }

  lemma GrantIsApproval(plans: Plans, ops: Ops, approvals: Approvals, trail: seq<Happening>, pos: Position)
    requires ApprovalsBound(plans, ops, approvals) && DecisionsRecorded(approvals, trail)
    requires pos in approvals && approvals[pos].status == Approved
    ensures ApprovedBefore(trail, pos, |trail|)
  {
    assert DecidedAt(trail, pos, |trail|);
    var i :| 0 <= i < |trail| && trail[i].Decided? && trail[i].pos == pos;
    assert IsApproval(trail[i], pos);
  }

  /** An effect under a grant: parked until now, approved and unspent. */
  lemma GrantedKeeps(plans: Plans, ops: Ops, approvals: Approvals, trail: seq<Happening>, k: OpKey, op: Operation, call: Call)
    requires EffectInv(plans, ops, approvals, trail)
    requires k in ops && ops[k].status == AwaitingApproval && op.id == ops[k].id && op.request == ops[k].request
    requires op.status == OpDone
    requires approvals[k.pos].status == Approved && CallAt(plans, k.pos) == Some(call)
    ensures EffectInv(plans, ops[k := op], approvals[k.pos := approvals[k.pos].(consumed := true)],
                      trail + [Applied(k.pos, call)])
  {
    hide CallAt, AtMostOnce, ElevatedApproved, NoSidestep, DecisionsRecorded, ApprovedBefore;
    var failed := op.(status := OpFailed);
    var approvals' := approvals[k.pos := approvals[k.pos].(consumed := true)];
    SpendKeeps(plans, ops, approvals, trail, k, failed);
    GrantIsApproval(plans, ops, approvals, trail, k.pos);
    TrailApply(plans, ops[k := failed], approvals', trail, k.pos, call);
    DoneKeeps(plans, ops[k := failed], approvals', trail, k, op, call);
    assert ops[k := failed][k := op] == ops[k := op];
  }

  // ------------------------------------------------------------------- claims

  lemma ClaimGatedKeeps(s: State, c: ClaimRequest, w: World, key: OpKey, call: Call)
    requires Inv(s) && c.turn in s.turns && key in s.ops && s.ops[key].status == AwaitingApproval
    requires CallAt(s.plans, key.pos) == Some(call)
    ensures var r := ClaimGated(s, c, w, key, call, s.ops[key]); r.Got? ==> Inv(r.state)
  {
    hide OpsPlanned, NoneRunning, AppliedDone, AtMostOnce, DecisionsRecorded, ElevatedApproved, NoSidestep, ApprovalsBound,
         CallAt, NoteJournal, DecidedEvents, PlaceOf;
    var op := s.ops[key];
    if s.approvals[key.pos].status != Approved || w.effect.Breaks? { return; }
    if w.effect.Works? {
      GrantedKeeps(s.plans, s.ops, s.approvals, s.trail, key,
                   op.(status := OpDone, receipt := Some(Receipt.Response(w.effect.response))), call);
      return;
    }
    SpendKeeps(s.plans, s.ops, s.approvals, s.trail, key,
               op.(status := OpFailed, receipt := Some(Error(w.effect.message))));
  }

  lemma ClaimElevatedKeeps(s: State, g: nat, c: ClaimRequest, w: World, key: OpKey, call: Call)
    requires Inv(s) && key !in s.ops && CallAt(s.plans, key.pos) == Some(call)
    requires call.tool == key.tool && call.request == c.request && call.route == Elevated
    ensures Inv(ClaimElevated(s, g, c, w, key, call).state)
  {
    var op := Operation(c.operation, c.turn, c.request, AwaitingApproval, None, g);
    if w.malformed.Some? {
      FailKeeps(s.plans, s.ops, s.approvals, s.trail, key,
                op.(status := OpFailed, receipt := Some(Error(w.malformed.value))));
    } else {
      ParkKeeps(s.plans, s.ops, s.approvals, s.trail, key, op, Approval(c.operation, c.turn, call, Pending, None, false));
    }
  }

  lemma ClaimNormalKeeps(s: State, g: nat, c: ClaimRequest, w: World, key: OpKey, call: Call)
    requires Inv(s) && key !in s.ops && c.turn in s.turns && CallAt(s.plans, key.pos) == Some(call)
    requires call.tool == key.tool && call.request == c.request && call.route == Normal
    ensures var r := ClaimNormal(s, g, c, w, key, call); r.Got? ==> Inv(r.state)
  {
    var op := Operation(c.operation, c.turn, c.request, OpRunning, None, g);
    if WasDenied(s.approvals, key.pos, call) {
      FailKeeps(s.plans, s.ops, s.approvals, s.trail, key,
                op.(status := OpFailed, receipt := Some(DeniedBy(SomeDenial(s.approvals, key.pos, call, w.cited)))));
    } else if call.tool == MessageSend {
      FailKeeps(s.plans, s.ops, s.approvals, s.trail, key,
                op.(status := OpFailed, receipt := Some(ElevatedRouteRequired)));
    } else if w.effect.Works? {
      NormalKeeps(s.plans, s.ops, s.approvals, s.trail, key,
                  op.(status := OpDone, receipt := Some(Receipt.Response(w.effect.response))), call);
    }
  }

  lemma ClaimBodyKeeps(s: State, p: Persona, g: nat, c: ClaimRequest, w: World)
    requires Inv(s)
    ensures var r := ClaimBody(s, p, g, c, w); r.Got? ==> Inv(r.state)
  {
    var r := ClaimBody(s, p, g, c, w);
    if r.Got? {
      var planned := Flat(PlanOf(s, s.turns[c.turn].key));
      var key := OpKey(Position(p, s.turns[c.turn].key.input, c.index), c.tool);
      assert InputKey(p, key.pos.input) == s.turns[c.turn].key;
      assert CallAt(s.plans, key.pos) == Some(planned[c.index]);
      if key in s.ops {
        if s.ops[key].status == AwaitingApproval {
          ClaimGatedKeeps(s, c, w, key, planned[c.index]);
        }
      } else if planned[c.index].route == Elevated {
        ClaimElevatedKeeps(s, g, c, w, key, planned[c.index]);
      } else {
        ClaimNormalKeeps(s, g, c, w, key, planned[c.index]);
      }
    }
  }

  /** Journaling a claim touches only the journal. */
  lemma ClaimKeeps(s: State, p: Persona, g: nat, c: ClaimRequest, w: World)
    requires Inv(s)
    ensures Inv(Claim(s, p, g, c, w).0)
  {
    ClaimBodyKeeps(s, p, g, c, w);
  }

  // ---------------------------------------------------------------- decisions

  lemma DecideTrail(approvals: Approvals, trail: seq<Happening>, pos: Position, d: Decision, a: Approval)
    requires DecisionsRecorded(approvals, trail) && NoSidestep(approvals, trail) && ElevatedApproved(trail)
    requires AtMostOnce(trail)
    requires pos in approvals && approvals[pos].decision.None?
    requires a.decision == Some(d) && a.call == approvals[pos].call
    ensures DecisionsRecorded(approvals[pos := a], trail + [Decided(pos, d, Some(d.decider))])
    ensures NoSidestep(approvals[pos := a], trail + [Decided(pos, d, Some(d.decider))])
    ensures ElevatedApproved(trail + [Decided(pos, d, Some(d.decider))])
    ensures AtMostOnce(trail + [Decided(pos, d, Some(d.decider))])
  {
    var trail', approvals' := trail + [Decided(pos, d, Some(d.decider))], approvals[pos := a];
    assert forall i :: 0 <= i < |trail| ==> trail'[i] == trail[i];
    forall q | q in approvals' && approvals'[q].decision.Some? ensures DecidedAt(trail', q, |trail'|) {
      if q == pos {
        assert trail'[|trail|].pos == pos;
      } else {
        assert DecidedAt(trail, q, |trail|);
        var i :| 0 <= i < |trail| && trail[i].Decided? && trail[i].pos == q;
        assert trail'[i].Decided? && trail'[i].pos == q;
      }
    }
    forall i, j | 0 <= i < j < |trail'| ensures !Sidesteps(approvals', trail'[i], trail'[j]) {
      if j < |trail| { assert !Sidesteps(approvals, trail[i], trail[j]); }
    }
    forall j | 0 <= j < |trail'| && trail'[j].Applied? && trail'[j].call.route == Elevated
      ensures ApprovedBefore(trail', trail'[j].pos, j)
    {
      var i :| 0 <= i < j && i < |trail| && IsApproval(trail[i], trail'[j].pos);
      assert IsApproval(trail'[i], trail'[j].pos);
    }
  }

  /** What a decision does to the operations: nothing, or a denial. */
  ghost predicate OpsDecided(ops: Ops, ops': Ops, p: Persona, pos: Position, a: Approval) {
    && ops'.Keys == ops.Keys
    && forall k :: k in ops ==> ops'[k] == if a.status == Approved then ops[k] else DenyOp(k, ops[k], p, pos, a.operation)
  }

  lemma DecideOps(plans: Plans, ops: Ops, ops': Ops, trail: seq<Happening>, p: Persona, pos: Position, a: Approval)
    requires OpsPlanned(plans, ops) && NoneRunning(ops) && AppliedDone(plans, ops, trail) && OpsDecided(ops, ops', p, pos, a)
    ensures OpsPlanned(plans, ops') && NoneRunning(ops') && AppliedDone(plans, ops', trail)
  {
    hide CallAt;
  }

  lemma DecideApprovals(plans: Plans, ops: Ops, ops': Ops, approvals: Approvals, p: Persona, pos: Position, a: Approval)
    requires OpsPlanned(plans, ops) && ApprovalsBound(plans, ops, approvals) && ParkedGated(ops, approvals)
    requires OpsDecided(ops, ops', p, pos, a)
    requires pos in approvals && pos.persona == p && approvals[pos].status == Pending
    requires a.call == approvals[pos].call && a.operation == approvals[pos].operation
    requires a.decision.Some? && !a.consumed && a.status != Pending
    requires a.status == Approved <==> a.decision.value.approve
    ensures ApprovalsBound(plans, ops', approvals[pos := a])
    ensures ParkedGated(ops', approvals[pos := a])
  {
    var k := OpKey(pos, approvals[pos].call.tool);
    forall o | o in ops && o.pos == pos ensures o == k { SameTool(plans, ops, o, k); }
    hide CallAt, OpsPlanned;
  }

  lemma ResolveKeeps(s: State, p: Persona, pos: Position, d: Decision, valid: bool)
    requires Inv(s)
    ensures Inv(Resolve(s, p, pos, d, valid))
  {
    hide DecidedInputs, Sidesteps, DenyOp, CallAt, GrantsSpent;
    if !Decides(s, p, pos, d, valid) { return; }
    var s' := Resolve(s, p, pos, d, valid);
    DecideTrail(s.approvals, s.trail, pos, d, s'.approvals[pos]);
    assert OpsDecided(s.ops, s'.ops, p, pos, s'.approvals[pos]);
    DecideOps(s.plans, s.ops, s'.ops, s.trail, p, pos, s'.approvals[pos]);
    DecideApprovals(s.plans, s.ops, s'.ops, s.approvals, p, pos, s'.approvals[pos]);
    AppliedDoneSnoc(s.plans, s'.ops, s.trail, Decided(pos, d, Some(d.decider)));
    GrantsSpentSnoc(s.approvals, s.trail, pos, s'.approvals[pos], Decided(pos, d, Some(d.decider)));
  }

  lemma GrantsSpentSnoc(approvals: Approvals, trail: seq<Happening>, pos: Position, a: Approval, h: Happening)
    requires GrantsSpent(approvals, trail) && pos in approvals && a.consumed == approvals[pos].consumed && h.Decided?
    ensures GrantsSpent(approvals[pos := a], trail + [h])
  {
  }

  lemma AppliedDoneSnoc(plans: Plans, ops: Ops, trail: seq<Happening>, h: Happening)
    requires AppliedDone(plans, ops, trail) && h.Decided?
    ensures AppliedDone(plans, ops, trail + [h])
  {
  }

  // ------------------------------------------------------------ every step, run

  /** The steps that touch no plan, operation, approval or effect. */
  ghost predicate SameEffects(s: State, s': State) {
    s'.plans == s.plans && s'.ops == s.ops && s'.approvals == s.approvals && s'.trail == s.trail
  }

  lemma RecordFrame(s: State, p: Persona, req: RecordRequest)
    ensures SameEffects(s, RecordUsage(s, p, req))
  {
    if Record(s.ledger, p, req).resume {}
  }

  lemma BudgetFrame(s: State, fund: Funding, b: Option<Budget>)
    ensures SameEffects(s, SetBudget(s, fund, b))
  {
    if b.Some? {}
  }

  lemma AcquireFrame(s: State, p: Persona, holder: int, ttl: int)
    ensures SameEffects(s, Acquire(s, p, holder, ttl))
  {
    if !Grants(s, p, holder) { return; }
  }

  lemma LoadFrame(s: State, p: Persona, g: nat, t: TurnId)
    ensures SameEffects(s, Load(s, p, g, t))
  {
    if LoadIndex(s, p, g).None? { return; }
  }

  lemma CompleteFrame(s: State, p: Persona, key: OpKey, id: int, g: nat, answer: Payload, failed: bool)
    requires NoneRunning(s.ops)
    ensures CompleteOperation(s, p, key, id, g, answer, failed) == s
  {
  }

  lemma CompleteKeeps(s: State, p: Persona, key: OpKey, id: int, g: nat, answer: Payload, failed: bool)
    requires Inv(s)
    ensures Inv(CompleteOperation(s, p, key, id, g, answer, failed))
  {
    CompleteFrame(s, p, key, id, g, answer, failed);
  }

  lemma SameKeeps(s: State, s': State)
    requires Inv(s) && SameEffects(s, s')
    ensures Inv(s')
  {
  }

  lemma QuietKeeps(s: State, step: Step)
    requires Inv(s) && (step.Tick? || step.AddPersona? || step.BindHuman? || step.SetAuthority? || step.Register?)
    ensures Inv(Apply(s, step))
  {
    hide Inv, Personas;
    SameKeeps(s, Apply(s, step));
  }

  lemma CommitFrame(s: State, p: Persona, t: TurnId, g: nat, req: CommitRequest)
    ensures SameEffects(s, Commit(s, p, t, g, req))
  {
    hide CommitJournal, DisposedInput, CommitWaits, Reconcile, Commits;
    if Commits(s, p, t, g, req) { return; }
  }

  lemma RecoverFrame(s: State, p: Persona, g: nat)
    ensures SameEffects(s, Recover(s, p, g))
  {
    hide MarkAll, Reconcile;
    if Holds(s, p, g) { return; }
  }

  lemma LeaseFrame(s: State, p: Persona, holder: int, g: nat, ttl: int)
    ensures SameEffects(s, Renew(s, p, holder, g, ttl)) && SameEffects(s, Release(s, p, holder, g))
  {
    if !Holds(s, p, g) || s.leases[p].holder != holder { return; }
  }

  lemma AdmitFrame(s: State, p: Persona, g: nat, req: AdmitRequest)
    ensures SameEffects(s, AdmitUsage(s, p, g, req))
  {
    hide Admit;
    if Holds(s, p, g) { return; }
  }

  lemma InputFrame(s: State, key: InputKey)
    ensures SameEffects(s, Enqueue(s, key))
  {
    if FindInput(s.inputs, key).Some? { return; }
  }

  lemma HumanFrame(s: State, h: Human)
    ensures SameEffects(s, ResumeForHuman(s, h))
  {
    hide Woken;
  }

  lemma StepKeeps(s: State, step: Step)
    requires Inv(s)
    ensures Inv(Apply(s, step))
  {
    hide Inv, Claim, Resolve, Commit, CompleteOperation, Load, Recover, RecordUsage, SetBudget, ResumeForHuman,
         Acquire, Renew, Release, AdmitUsage, Enqueue, SavePlan, Personas, SameEffects;
    var s' := Apply(s, step);
    match step {
      case SavePlanStep(p, g, t, round, decision, nul) => SavePlanKeeps(s, p, g, t, round, decision, nul);
      case ClaimStep(p, g, c, w) => ClaimKeeps(s, p, g, c, w);
      case ResolveStep(p, pos, d, valid) => ResolveKeeps(s, p, pos, d, valid);
      case CompleteStep(p, key, id, g, answer, failed) => CompleteKeeps(s, p, key, id, g, answer, failed);
      case CommitStep(p, t, g, req) => CommitFrame(s, p, t, g, req); SameKeeps(s, s');
      case RecordStep(p, req) => RecordFrame(s, p, req); SameKeeps(s, s');
      case BudgetStep(fund, b) => BudgetFrame(s, fund, b); SameKeeps(s, s');
      case AcquireStep(p, holder, ttl) => AcquireFrame(s, p, holder, ttl); SameKeeps(s, s');
      case LoadStep(p, g, t) => LoadFrame(s, p, g, t); SameKeeps(s, s');
      case RecoverStep(p, g) => RecoverFrame(s, p, g); SameKeeps(s, s');
      case RenewStep(p, holder, g, ttl) => LeaseFrame(s, p, holder, g, ttl); SameKeeps(s, s');
      case ReleaseStep(p, holder, g) => LeaseFrame(s, p, holder, g, 0); SameKeeps(s, s');
      case AdmitStep(p, g, req) => AdmitFrame(s, p, g, req); SameKeeps(s, s');
      case AddInput(key) => InputFrame(s, key); SameKeeps(s, s');
      case HumanStep(h) => HumanFrame(s, h); SameKeeps(s, s');
      case Tick(_) => QuietKeeps(s, step);
      case AddPersona(_, _) => QuietKeeps(s, step);
      case BindHuman(_, _) => QuietKeeps(s, step);
      case SetAuthority(_, _) => QuietKeeps(s, step);
      case Register(_) => QuietKeeps(s, step);
    }
  }

  lemma {:induction false} RunKeeps(steps: seq<Step>)
    ensures Inv(Exec(Initial(), steps))
  {
    if steps != [] {
      RunKeeps(steps[..|steps| - 1]);
      StepKeeps(Exec(Initial(), steps[..|steps| - 1]), steps[|steps| - 1]);
    }
  }
}
