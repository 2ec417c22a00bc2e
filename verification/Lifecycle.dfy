/** Fencing, the single live turn, parked inputs and budget wake-ups: what every
    step of the store keeps about leases, inputs, turns, waits and the ledger. */
module Lifecycle {
  import opened Common
  import opened Plan
  import opened Ledger
  import opened Store
  import Journal

  type Turns = map<TurnId, Turn>

  // --------------------------------------------------------------- invariants

  /** Each lease carries its persona's newest generation. */
  ghost predicate Fencing(s: State) {
    && (forall p :: p in s.leases ==> p in s.generations && s.generations[p] == s.leases[p].generation)
    && (forall p :: p in s.generations ==> p in s.leases)
  }

  ghost predicate UniqueInputs(inputs: seq<Input>) {
    forall a, b :: 0 <= a < b < |inputs| ==> inputs[a].key != inputs[b].key
  }

  predicate ClaimedBy(i: Input, t: TurnId, turn: Turn) {
    && i.key == turn.key && i.status == Claimed && i.turn == Some(t)
    && i.claimedGeneration == Some(turn.generation)
  }

  /** A claimed input names a running turn of its own. */
  ghost predicate ClaimedRuns(inputs: seq<Input>, turns: Turns) {
    forall k :: 0 <= k < |inputs| && inputs[k].status == Claimed ==>
      && inputs[k].turn.Some? && inputs[k].turn.value in turns
      && turns[inputs[k].turn.value].status == Running
      && ClaimedBy(inputs[k], inputs[k].turn.value, turns[inputs[k].turn.value])
  }

  ghost predicate HasClaim(inputs: seq<Input>, t: TurnId, turn: Turn) {
    exists k :: 0 <= k < |inputs| && ClaimedBy(inputs[k], t, turn)
  }

  /** A running turn's input is claimed by it. */
  ghost predicate RunningClaims(inputs: seq<Input>, turns: Turns) {
    forall t :: t in turns && turns[t].status == Running ==> HasClaim(inputs, t, turns[t])
  }

  /** Each persona has at most one running turn. */
  ghost predicate OneRunning(turns: Turns) {
    forall t, u ::
      (&& t in turns && turns[t].status == Running
       && u in turns && turns[u].status == Running
       && turns[t].key.persona == turns[u].key.persona) ==> t == u
  }

  ghost predicate Lives(inputs: seq<Input>, turns: Turns) {
    UniqueInputs(inputs) && RunningClaims(inputs, turns) && OneRunning(turns)
  }

  // ------------------------------------------------------- inputs that only wake

  /** Rows may only move from waiting back to the queue. */
  predicate Wakes(i: Input, i': Input, now: int) { i' == i || (i.status == Waiting && i' == Requeued(i, now)) }

  ghost predicate OnlyWakes(inputs: seq<Input>, inputs': seq<Input>, now: int) {
    |inputs'| == |inputs| && forall k :: 0 <= k < |inputs| ==> Wakes(inputs[k], inputs'[k], now)
  }

  lemma WakesKeepLives(inputs: seq<Input>, inputs': seq<Input>, turns: Turns, now: int)
    requires Lives(inputs, turns) && OnlyWakes(inputs, inputs', now)
    ensures Lives(inputs', turns) && (ClaimedRuns(inputs, turns) ==> ClaimedRuns(inputs', turns))
  {
    forall t | t in turns && turns[t].status == Running ensures HasClaim(inputs', t, turns[t]) {
      var k :| 0 <= k < |inputs| && ClaimedBy(inputs[k], t, turns[t]);
      assert ClaimedBy(inputs'[k], t, turns[t]);
    }
    assert forall k :: 0 <= k < |inputs| ==> inputs'[k].key == inputs[k].key;
  }

  lemma ResolveWakes(s: State, p: Persona, pos: Position, d: Decision, valid: bool)
    ensures var s' := Resolve(s, p, pos, d, valid);
            OnlyWakes(s.inputs, s'.inputs, s.clock) && s'.turns == s.turns && s'.waits == s.waits && s'.ledger == s.ledger
  {
    if !Decides(s, p, pos, d, valid) { return; }
    DecisionWakes(s.inputs, InputKey(p, pos.input), s.clock);
  }

  lemma DecisionWakes(inputs: seq<Input>, key: InputKey, now: int)
    ensures OnlyWakes(inputs, DecidedInputs(inputs, key, now), now)
  {
  }

  lemma WakeWakes(s: State, freed: set<InputKey>)
    ensures OnlyWakes(s.inputs, Wake(s, freed).inputs, s.clock)
  {
  }

  // ------------------------------------------------------------ loading a turn

  lemma LoadKeepsLives(inputs: seq<Input>, turns: Turns, k: nat, t: TurnId, i: Input, turn: Turn)
    requires Lives(inputs, turns) && k < |inputs| && inputs[k].status == Queued
    requires i.key == inputs[k].key && ClaimedBy(i, t, turn) && turn.status == Running
    requires forall u :: u in turns && turns[u].status == Running ==> turns[u].key.persona != turn.key.persona
    ensures Lives(inputs[k := i], turns[t := turn])
    ensures ClaimedRuns(inputs, turns) && t !in turns ==> ClaimedRuns(inputs[k := i], turns[t := turn])
  {
    var inputs', turns' := inputs[k := i], turns[t := turn];
    forall u | u in turns' && turns'[u].status == Running ensures HasClaim(inputs', u, turns'[u]) {
      if u == t {
        assert ClaimedBy(inputs'[k], t, turn);
      } else {
        var m :| 0 <= m < |inputs| && ClaimedBy(inputs[m], u, turns[u]);
        assert ClaimedBy(inputs'[m], u, turns'[u]);
      }
    }
  }

  // ----------------------------------------------------------- closing a turn

  lemma CloseKeepsLives(inputs: seq<Input>, turns: Turns, k: nat, t: TurnId, i: Input, turn: Turn)
    requires Lives(inputs, turns) && t in turns && turns[t].status == Running
    requires k < |inputs| && inputs[k].key == turns[t].key
    requires i.key == inputs[k].key && i.status != Claimed
    requires turn.key == turns[t].key && turn.status != Running
    ensures Lives(inputs[k := i], turns[t := turn])
    ensures ClaimedRuns(inputs, turns) ==> ClaimedRuns(inputs[k := i], turns[t := turn])
  {
    var inputs', turns' := inputs[k := i], turns[t := turn];
    assert HasClaim(inputs, t, turns[t]);
    assert ClaimedBy(inputs[k], t, turns[t]);
    forall u | u in turns' && turns'[u].status == Running ensures HasClaim(inputs', u, turns'[u]) {
      assert turns'[u] == turns[u];
      var m :| 0 <= m < |inputs| && ClaimedBy(inputs[m], u, turns[u]);
      assert m != k;
      assert ClaimedBy(inputs'[m], u, turns'[u]);
    }
    if !ClaimedRuns(inputs, turns) { return; }
    forall m | 0 <= m < |inputs'| && inputs'[m].status == Claimed
      ensures inputs'[m].turn.Some? && inputs'[m].turn.value in turns'
              && turns'[inputs'[m].turn.value].status == Running
              && ClaimedBy(inputs'[m], inputs'[m].turn.value, turns'[inputs'[m].turn.value])
    {
      assert m != k && inputs'[m] == inputs[m];
      assert inputs[m].turn.value != t;
    }
  }

  /** Closing a turn alone, its input left as it is. */
  lemma CloseAloneKeepsLives(inputs: seq<Input>, turns: Turns, t: TurnId, turn: Turn)
    requires Lives(inputs, turns) && t in turns && turn.status != Running
    ensures Lives(inputs, turns[t := turn])
  {
    var turns' := turns[t := turn];
    forall u | u in turns' && turns'[u].status == Running ensures HasClaim(inputs, u, turns'[u]) {
      assert turns'[u] == turns[u];
    }
  }

  // ----------------------------------------------------------------- recovery

  lemma RecoverKeepsLives(inputs: seq<Input>, turns: Turns, inputs': seq<Input>, turns': Turns, p: Persona)
    requires Lives(inputs, turns)
    requires turns'.Keys == turns.Keys && forall t :: t in turns ==> turns'[t] == InterruptTurn(turns[t], p)
    requires |inputs'| == |inputs| && forall k :: 0 <= k < |inputs| ==> inputs'[k] == RequeueClaimed(inputs[k], p)
    ensures Lives(inputs', turns') && (ClaimedRuns(inputs, turns) ==> ClaimedRuns(inputs', turns'))
  {
    forall t | t in turns' && turns'[t].status == Running ensures HasClaim(inputs', t, turns'[t]) {
      assert turns'[t] == turns[t];
      var m :| 0 <= m < |inputs| && ClaimedBy(inputs[m], t, turns[t]);
      assert ClaimedBy(inputs'[m], t, turns'[t]);
    }
    assert forall k :: 0 <= k < |inputs| ==> inputs'[k].key == inputs[k].key;
  }

  /** After recovery the persona has no running turn and no claimed input, in
      whatever state the last writer left the store. */
  lemma RecoveryLeavesNone(s: State, p: Persona, g: nat)
    requires Holds(s, p, g)
    ensures var s' := Recover(s, p, g);
            && (forall t :: t in s'.turns && s'.turns[t].key.persona == p ==> s'.turns[t].status != Running)
            && (forall k :: 0 <= k < |s'.inputs| && s'.inputs[k].key.persona == p ==> s'.inputs[k].status != Claimed)
  {
    hide Reconcile, MarkAll;
  }

  // ----------------------------------------------------------------- fencing

  /** A call carrying a superseded generation changes nothing at all. */
  lemma SupersededChangesNothing(s: State, p: Persona, g: nat)
    requires !Holds(s, p, g)
    ensures forall holder, ttl :: Renew(s, p, holder, g, ttl) == s
    ensures forall holder :: Release(s, p, holder, g) == s
    ensures Recover(s, p, g) == s
    ensures forall t :: Load(s, p, g, t) == s
    ensures forall t, round, d, nul :: SavePlan(s, p, g, t, round, d, nul) == s
    ensures forall key, id, answer, failed :: CompleteOperation(s, p, key, id, g, answer, failed) == s
    ensures forall t, req :: Commit(s, p, t, g, req) == s
    ensures forall req :: AdmitUsage(s, p, g, req) == s
  {
  }

  /** Including the claim and its journaling of rejections. */
  lemma SupersededClaimChangesNothing(s: State, p: Persona, g: nat, c: ClaimRequest, w: World)
    requires !Holds(s, p, g)
    ensures Claim(s, p, g, c, w).0 == s
  {
    if !Registered(s, c.tool) || c.nul { return; }
  }

  /** A granted lease carries a generation no earlier lease ever had. */
  lemma AcquireIsNew(s: State, p: Persona, holder: int, ttl: int)
    requires Fencing(s) && Grants(s, p, holder)
    ensures var s' := Acquire(s, p, holder, ttl);
            && s'.leases[p].generation == s'.generations[p]
            && (p in s.generations ==> s.generations[p] < s'.generations[p])
            && (p in s.leases ==> !Holds(s', p, s.leases[p].generation))
  {
  }

  // ------------------------------------------------------------- parked inputs

  function TotalWait(history: seq<(int, int)>): int {
    if history == [] then 0
    else TotalWait(history[..|history| - 1]) + (history[|history| - 1].1 - history[|history| - 1].0)
  }

  /** waiting_since is set exactly while the input waits, and waited_ms is the
      sum of its finished waits. */
  predicate Timed(i: Input, now: int) {
    && (i.status == Waiting <==> i.waitingSince.Some?)
    && (i.waitingSince.Some? ==> i.waitingSince.value <= now)
    && i.waitedMs == TotalWait(i.history)
    && (forall h :: 0 <= h < |i.history| ==> i.history[h].0 <= i.history[h].1 <= now)
  }

  ghost predicate AllTimed(inputs: seq<Input>, now: int) {
    forall k :: 0 <= k < |inputs| ==> Timed(inputs[k], now)
  }

  lemma RequeuedTimed(i: Input, now: int)
    requires Timed(i, now)
    ensures Timed(Requeued(i, now), now)
  {
    if i.waitingSince.Some? {
      var h := i.history + [(i.waitingSince.value, now)];
      assert h[..|i.history|] == i.history;
    }
  }

  lemma WakesTimed(inputs: seq<Input>, inputs': seq<Input>, now: int)
    requires AllTimed(inputs, now) && OnlyWakes(inputs, inputs', now)
    ensures AllTimed(inputs', now)
  {
    forall k | 0 <= k < |inputs'| ensures Timed(inputs'[k], now) {
      RequeuedTimed(inputs[k], now);
    }
  }

  /** A waiting input has something that will wake it. */
  ghost predicate NotStranded(inputs: seq<Input>, approvals: map<Position, Approval>, waits: map<InputKey, WaitRow>) {
    forall k :: 0 <= k < |inputs| && inputs[k].status == Waiting ==>
      PendingFor(approvals, inputs[k].key) || inputs[k].key in waits
  }

  lemma StillPending(approvals: map<Position, Approval>, approvals': map<Position, Approval>, key: InputKey)
    requires forall pos :: pos in approvals ==> pos in approvals' && approvals'[pos].status == approvals[pos].status
    requires PendingFor(approvals, key)
    ensures PendingFor(approvals', key)
  {
    var pos :| pos in approvals && HeldBy(approvals, pos, key);
    assert HeldBy(approvals', pos, key);
  }

  /** What a claim leaves alone: everything but the operations, the journal, the
      trail and the approvals, none of which leaves pending. */
  ghost predicate ClaimFrame(s: State, s': State) {
    && s'.inputs == s.inputs && s'.turns == s.turns && s'.waits == s.waits && s'.ledger == s.ledger
    && s'.clock == s.clock && s'.leases == s.leases && s'.generations == s.generations
    && s'.commits == s.commits && s'.personas == s.personas
    && forall pos :: pos in s.approvals ==>
         pos in s'.approvals && s'.approvals[pos].status == s.approvals[pos].status
  }

  lemma SpendFrame(s: State, c: ClaimRequest, key: OpKey)
    requires c.turn in s.turns && key.pos in s.approvals
    ensures ClaimFrame(s, Spend(s, c, key))
  {
  }

  lemma EffectFrame(s: State, s1: State, key: OpKey, call: Call, op: Operation, w: World)
    requires ClaimFrame(s, s1)
    ensures w.effect.Works? ==> ClaimFrame(s, ApplyTool(s1, key, call, op, w.effect.response))
    ensures w.effect.Refuses? ==> ClaimFrame(s, Fail(s1, key, op, Error(w.effect.message)))
  {
  }

  lemma GatedFrame(s: State, c: ClaimRequest, w: World, key: OpKey, call: Call, op: Operation)
    requires c.turn in s.turns
    ensures var r := ClaimGated(s, c, w, key, call, op); r.Got? ==> ClaimFrame(s, r.state)
  {
    hide Spend, ApplyTool, Fail, ClaimFrame;
    assert ClaimFrame(s, s) by { StillFrame(s); }
    if key.pos !in s.approvals { return; }
    var a := s.approvals[key.pos];
    if a.status != Approved || a.consumed { return; }
    if w.effect.Breaks? { return; }
    SpendFrame(s, c, key);
    EffectFrame(s, Spend(s, c, key), key, call, op, w);
    if w.effect.Works? { return; }
  }

  lemma StillFrame(s: State)
    ensures ClaimFrame(s, s)
  {
  }

  lemma ExistingFrame(s: State, g: nat, c: ClaimRequest, w: World, key: OpKey, call: Call)
    requires key in s.ops && c.turn in s.turns
    ensures var r := ClaimExisting(s, g, c, w, key, call); r.Got? ==> ClaimFrame(s, r.state)
  {
    var op := s.ops[key];
    if op.request != c.request { return; }
    if op.status == OpRunning && op.generation != g { return; }
    if op.status != AwaitingApproval { return; }
    GatedFrame(s, c, w, key, call, op);
  }

  lemma ClaimBodyFrame(s: State, p: Persona, g: nat, c: ClaimRequest, w: World)
    ensures var r := ClaimBody(s, p, g, c, w); r.Got? ==> ClaimFrame(s, r.state)
  {
    hide ClaimExisting, ClaimElevated, ClaimNormal, ClaimFrame;
    var r := ClaimBody(s, p, g, c, w);
    if !r.Got? { return; }
    var key := OpKey(Position(p, s.turns[c.turn].key.input, c.index), c.tool);
    var call := Flat(PlanOf(s, s.turns[c.turn].key))[c.index];
    if key in s.ops {
      ExistingFrame(s, g, c, w, key, call);
      return;
    }
    NewFrame(s, g, c, w, key, call);
    if call.route == Elevated { return; }
  }

  lemma NewFrame(s: State, g: nat, c: ClaimRequest, w: World, key: OpKey, call: Call)
    requires c.turn in s.turns
    ensures ClaimFrame(s, ClaimElevated(s, g, c, w, key, call).state)
    ensures var r := ClaimNormal(s, g, c, w, key, call); r.Got? ==> ClaimFrame(s, r.state)
  {
    ElevatedFrame(s, g, c, w, key, call);
    NormalFrame(s, g, c, w, key, call);
  }

  lemma ElevatedFrame(s: State, g: nat, c: ClaimRequest, w: World, key: OpKey, call: Call)
    ensures ClaimFrame(s, ClaimElevated(s, g, c, w, key, call).state)
  {
    if w.malformed.Some? { return; }
    if key.pos in s.approvals { return; }
  }

  lemma NormalFrame(s: State, g: nat, c: ClaimRequest, w: World, key: OpKey, call: Call)
    requires c.turn in s.turns
    ensures var r := ClaimNormal(s, g, c, w, key, call); r.Got? ==> ClaimFrame(s, r.state)
  {
    hide ApplyTool, Fail, WithExperience, ClaimFrame;
    var op := Operation(c.operation, c.turn, c.request, OpRunning, None, g);
    if WasDenied(s.approvals, key.pos, call) {
      FailFrame(s, key, op, DeniedBy(SomeDenial(s.approvals, key.pos, call, w.cited)));
      return;
    }
    if call.tool == MessageSend {
      FailFrame(s, key, op, ElevatedRouteRequired);
      return;
    }
    if !w.effect.Works? { return; }
    var events := DecidedEvents(PlaceOf(PlanOf(s, s.turns[c.turn].key), c.index));
    ExperienceFrame(s, c.turn, events);
    EffectFrame(s, WithExperience(s, c.turn, events), key, call, op, w);
  }

  lemma FailFrame(s: State, key: OpKey, op: Operation, receipt: Receipt)
    ensures ClaimFrame(s, Fail(s, key, op, receipt))
  {
  }

  lemma ExperienceFrame(s: State, t: TurnId, events: seq<Journal.EventInput>)
    requires t in s.turns
    ensures ClaimFrame(s, WithExperience(s, t, events))
  {
  }

  lemma ResolveNotStranded(s: State, p: Persona, pos: Position, d: Decision, valid: bool)
    requires NotStranded(s.inputs, s.approvals, s.waits) && UniqueInputs(s.inputs)
    ensures var s' := Resolve(s, p, pos, d, valid); NotStranded(s'.inputs, s'.approvals, s'.waits)
  {
    if !Decides(s, p, pos, d, valid) { return; }
    var s' := Resolve(s, p, pos, d, valid);
    var f := FindInput(s.inputs, InputKey(p, pos.input));
    forall k | 0 <= k < |s'.inputs| && s'.inputs[k].status == Waiting
      ensures PendingFor(s'.approvals, s'.inputs[k].key) || s'.inputs[k].key in s'.waits
    {
      assert s'.inputs[k] == s.inputs[k];
      if PendingFor(s.approvals, s.inputs[k].key) {
        var q :| q in s.approvals && HeldBy(s.approvals, q, s.inputs[k].key);
        assert q != pos;
        assert HeldBy(s'.approvals, q, s.inputs[k].key);
      }
    }
  }

  lemma WakeNotStranded(s: State, freed: set<InputKey>)
    requires NotStranded(s.inputs, s.approvals, s.waits)
    ensures var s' := Wake(s, freed); NotStranded(s'.inputs, s'.approvals, s'.waits)
  {
  }

  // --------------------------------------------------------- budget wake-ups

  /** No parked budget wait fits the cap and rates now in force. */
  ghost predicate NoMissedWake(waits: map<InputKey, WaitRow>, l: Ledger) {
    forall key :: key in waits ==> !Fits(l, waits[key].funding, waits[key].estimate)
  }

  ghost predicate NoMissedOn(waits: map<InputKey, WaitRow>, l: Ledger, but: Funding) {
    forall key :: key in waits && waits[key].funding != but ==> !Fits(l, waits[key].funding, waits[key].estimate)
  }

  /** Resuming a funding leaves no fitting wait on it and disturbs no other. */
  lemma ResumeMissesNone(s: State, fund: Funding)
    requires NoMissedOn(s.waits, s.ledger, fund)
    ensures NoMissedWake(ResumeWaits(s, fund).waits, s.ledger)
    ensures ResumeWaits(s, fund).ledger == s.ledger
  {
    hide Fits, PriceEstimate, Woken;
  }

  /** Figures that do not go down cannot make a parked wait fit. */
  lemma StillDoesNotFit(l: Ledger, l': Ledger, fund: Funding, e: Estimate)
    requires !Fits(l, fund, e)
    requires fund in l'.budgets && l'.budgets[fund] == l.budgets[fund]
    requires Used(l', fund, l.budgets[fund].card.currency) >= Used(l, fund, l.budgets[fund].card.currency)
    ensures !Fits(l', fund, e)
  {
  }

  lemma BudgetNoMissed(s: State, fund: Funding, b: Option<Budget>)
    requires NoMissedWake(s.waits, s.ledger)
    ensures NoMissedWake(SetBudget(s, fund, b).waits, SetBudget(s, fund, b).ledger)
  {
    var budgets := match b case Some(v) => s.ledger.budgets[fund := v] case None => s.ledger.budgets - {fund};
    var s1 := s.(ledger := s.ledger.(budgets := budgets));
    forall key | key in s.waits && s.waits[key].funding != fund
      ensures !Fits(s1.ledger, s.waits[key].funding, s.waits[key].estimate)
    {
      StillDoesNotFit(s.ledger, s1.ledger, s.waits[key].funding, s.waits[key].estimate);
    }
    ResumeMissesNone(s1, fund);
  }

  lemma RecordNoMissed(s: State, p: Persona, req: RecordRequest)
    requires NoMissedWake(s.waits, s.ledger) && Balanced(s.ledger)
    ensures NoMissedWake(RecordUsage(s, p, req).waits, RecordUsage(s, p, req).ledger)
  {
    var r := Record(s.ledger, p, req);
    var s1 := s.(ledger := r.ledger);
    forall key | key in s.waits && (s.waits[key].funding != req.funding || !r.resume)
      ensures !Fits(s1.ledger, s.waits[key].funding, s.waits[key].estimate)
    {
      var fund := s.waits[key].funding;
      RecordUsed(s.ledger, p, req, fund, s.ledger.budgets[fund].card.currency);
      StillDoesNotFit(s.ledger, s1.ledger, fund, s.waits[key].estimate);
    }
    if r.resume { ResumeMissesNone(s1, req.funding); return; }
  }

  lemma AdmitNoMissed(s: State, p: Persona, g: nat, req: AdmitRequest)
    requires NoMissedWake(s.waits, s.ledger)
    ensures NoMissedWake(AdmitUsage(s, p, g, req).waits, AdmitUsage(s, p, g, req).ledger)
  {
    if !Holds(s, p, g) { return; }
    var l' := Admit(s.ledger, p, g, req).0;
    forall key | key in s.waits ensures !Fits(l', s.waits[key].funding, s.waits[key].estimate) {
      var fund := s.waits[key].funding;
      AdmitUsed(s.ledger, p, g, req, fund, s.ledger.budgets[fund].card.currency);
      StillDoesNotFit(s.ledger, l', fund, s.waits[key].estimate);
    }
  }

  /** Reconciling holds changes no figure, so no wait starts to fit unseen. */
  lemma ReconcileNoMissed(waits: map<InputKey, WaitRow>, l: Ledger, sel: Selector)
    requires NoMissedWake(waits, l) && Balanced(l)
    ensures NoMissedWake(waits, Reconcile(l, sel, 0))
  {
    ReconcileKeeps(l, sel, 0);
    forall key | key in waits ensures !Fits(Reconcile(l, sel, 0), waits[key].funding, waits[key].estimate) {
      StillDoesNotFit(l, Reconcile(l, sel, 0), waits[key].funding, waits[key].estimate);
    }
  }

  // --------------------------------------------------------------- every step

  /** What holds on every run, whatever its callers do. */
  ghost predicate Inv(s: State) {
    && Fencing(s)
    && Lives(s.inputs, s.turns)
    && AllTimed(s.inputs, s.clock)
    && NotStranded(s.inputs, s.approvals, s.waits)
  }

  /** What holds while calls are admitted before they are recorded. */
  ghost predicate Books(s: State) { NoMissedWake(s.waits, s.ledger) && Balanced(s.ledger) }

  /** What holds while turn ids are fresh and waits well formed. */
  ghost predicate Matched(s: State) { ClaimedRuns(s.inputs, s.turns) }

  /** A step that keeps all three. */
  ghost predicate Keeps(s: State, s': State) {
    Inv(s') && (Books(s) ==> Books(s')) && (Matched(s) ==> Matched(s'))
  }

  lemma KeepsTransitive(a: State, b: State, c: State)
    requires Keeps(a, b) && Keeps(b, c)
    ensures Keeps(a, c)
  {
  }

  /** A step that leaves every field of the invariant alone but the approvals,
      none of which leaves pending. */
  lemma ClaimFrameKeeps(s: State, s': State)
    requires Inv(s) && ClaimFrame(s, s')
    ensures Keeps(s, s')
  {
    hide Fits;
    forall k | 0 <= k < |s'.inputs| && s'.inputs[k].status == Waiting
      ensures PendingFor(s'.approvals, s'.inputs[k].key) || s'.inputs[k].key in s'.waits
    {
      if PendingFor(s.approvals, s.inputs[k].key) {
        StillPending(s.approvals, s'.approvals, s.inputs[k].key);
      }
    }
  }

  lemma ClaimKeeps(s: State, p: Persona, g: nat, c: ClaimRequest, w: World)
    requires Inv(s)
    ensures Keeps(s, Claim(s, p, g, c, w).0)
  {
    hide ClaimBody, JournalRejected, JournalClaim, ClaimEvents, PlaceOf, Inv, Keeps, ClaimFrame;
    var r := ClaimBody(s, p, g, c, w);
    ClaimBodyFrame(s, p, g, c, w);
    StillFrame(s);
    ClaimFrameKeeps(s, s);
    if r.Threw? {
      RejectedFrame(s, p, g, c, w.cause);
      ClaimFrameKeeps(s, JournalRejected(s, p, g, c, w.cause));
      if r.reply == Refused(400) { return; }
      return;
    }
    ClaimFrameKeeps(s, r.state);
    if c.turn !in r.state.turns { return; }
    KeepsInv(s, r.state);
    var events := ClaimEvents(PlaceOf(PlanOf(r.state, r.state.turns[c.turn].key), c.index), r.key, r.op, r.approval);
    JournalingFrame(r.state, c.turn, events);
    ClaimFrameKeeps(r.state, JournalClaim(r.state, c.turn, events));
    KeepsTransitive(s, r.state, JournalClaim(r.state, c.turn, events));
  }

  lemma KeepsInv(s: State, s': State)
    requires Keeps(s, s')
    ensures Inv(s')
  {
  }

  lemma JournalingFrame(s: State, t: TurnId, events: seq<Journal.EventInput>)
    requires t in s.turns
    ensures ClaimFrame(s, JournalClaim(s, t, events))
  {
    if events == [] { return; }
  }

  lemma RejectedFrame(s: State, p: Persona, g: nat, c: ClaimRequest, cause: Payload)
    ensures ClaimFrame(s, JournalRejected(s, p, g, c, cause))
  {
    hide PlaceOf, ResultEvents, ClaimFrame;
    StillFrame(s);
    if !LiveTurn(s, p, g, c.turn) { return; }
    var place := PlaceOf(PlanOf(s, s.turns[c.turn].key), c.index);
    if place.None? || place.value.call.tool != c.tool || place.value.call.request != c.request { return; }
    ExperienceFrame(s, c.turn, ResultEvents(place, Journal.Failure(cause, false)));
  }

  lemma CompleteKeeps(s: State, p: Persona, key: OpKey, id: int, g: nat, answer: Payload, failed: bool)
    requires Inv(s)
    ensures Keeps(s, CompleteOperation(s, p, key, id, g, answer, failed))
  {
    hide CompletedJournal, Fits, PendingFor;
    if !Completes(s, p, key, id, g) { return; }
  }

  /** Loading keeps claims matched when the turn id is fresh. */
  lemma LoadKeeps(s: State, p: Persona, g: nat, t: TurnId)
    requires Inv(s)
    ensures var s' := Load(s, p, g, t);
            Inv(s') && (Books(s) ==> Books(s')) && (Matched(s) && t !in s.turns ==> Matched(s'))
  {
    hide Attempts, Fits, PendingFor;
    var f := LoadIndex(s, p, g);
    if f.None? { return; }
    var k, s' := f.value, Load(s, p, g, t);
    forall u | u in s.turns && s.turns[u].status == Running ensures s.turns[u].key.persona != p {
      assert !RunningFor(s.turns, u, p);
    }
    LoadKeepsLives(s.inputs, s.turns, k, t, s'.inputs[k], s'.turns[t]);
    assert Timed(s.inputs[k], s.clock);
  }

  lemma RecoverKeeps(s: State, p: Persona, g: nat)
    requires Inv(s)
    ensures Keeps(s, Recover(s, p, g))
  {
    hide MarkAll, Reconcile, PendingFor;
    if !Holds(s, p, g) { return; }
    var s' := Recover(s, p, g);
    RecoverKeepsLives(s.inputs, s.turns, s'.inputs, s'.turns, p);
    assert forall k :: 0 <= k < |s.inputs| ==> Timed(s.inputs[k], s.clock);
    if Books(s) {
      ReconcileKeeps(s.ledger, BeforeGeneration(p, g), 0);
      ReconcileNoMissed(s.waits, s.ledger, BeforeGeneration(p, g));
    }
  }

  lemma ResolveKeeps(s: State, p: Persona, pos: Position, d: Decision, valid: bool)
    requires Inv(s)
    ensures Keeps(s, Resolve(s, p, pos, d, valid))
  {
    hide Fits, DecidedInputs;
    if !Decides(s, p, pos, d, valid) { return; }
    var s' := Resolve(s, p, pos, d, valid);
    ResolveWakes(s, p, pos, d, valid);
    WakesKeepLives(s.inputs, s'.inputs, s.turns, s.clock);
    WakesTimed(s.inputs, s'.inputs, s.clock);
    ResolveNotStranded(s, p, pos, d, valid);
  }

  lemma WakeKeeps(s: State, freed: set<InputKey>)
    requires Inv(s)
    ensures Keeps(s, Wake(s, freed))
  {
    hide Fits;
    var s' := Wake(s, freed);
    WakeWakes(s, freed);
    WakesKeepLives(s.inputs, s'.inputs, s.turns, s.clock);
    WakesTimed(s.inputs, s'.inputs, s.clock);
    WakeNotStranded(s, freed);
  }

  /** Re-evaluating a funding, whatever happened to the ledger before. */
  lemma ResumeKeeps(s: State, l: Ledger, fund: Funding)
    requires Inv(s)
    ensures var s' := ResumeWaits(s.(ledger := l), fund);
            Inv(s') && s'.ledger == l && (Matched(s) ==> Matched(s'))
  {
    hide Fitting, Restated, Woken, Fits;
    var s1 := s.(ledger := l);
    var waits := map k | k in s.waits :: Restated(l, s.waits[k], fund);
    var s2 := s1.(waits := waits);
    var s' := Wake(s2, Fitting(s1, fund));
    WakeWakes(s2, Fitting(s1, fund));
    WakesKeepLives(s.inputs, s'.inputs, s.turns, s.clock);
    WakesTimed(s.inputs, s'.inputs, s.clock);
    assert forall k :: k in s.waits <==> k in waits;
    WakeNotStranded(s2, Fitting(s1, fund));
  }

  lemma BudgetKeeps(s: State, fund: Funding, b: Option<Budget>)
    requires Inv(s)
    ensures Keeps(s, SetBudget(s, fund, b))
  {
    hide ResumeWaits, NoMissedWake, Inv;
    var budgets := match b case Some(v) => s.ledger.budgets[fund := v] case None => s.ledger.budgets - {fund};
    ResumeKeeps(s, s.ledger.(budgets := budgets), fund);
    if Books(s) { BudgetNoMissed(s, fund, b); }
  }

  lemma RecordKeeps(s: State, p: Persona, req: RecordRequest)
    requires Inv(s)
    ensures Keeps(s, RecordUsage(s, p, req))
  {
    hide ResumeWaits, Record, NoMissedWake;
    var r := Record(s.ledger, p, req);
    if Books(s) {
      RecordBalanced(s.ledger, p, req);
      RecordNoMissed(s, p, req);
    }
    if r.resume {
      ResumeKeeps(s, r.ledger, req.funding);
      return;
    }
  }

  /** Admission keeps the books when the call was not recorded first. */
  lemma AdmitKeeps(s: State, p: Persona, g: nat, req: AdmitRequest)
    requires Inv(s)
    ensures var s' := AdmitUsage(s, p, g, req);
            && Inv(s') && (Matched(s) ==> Matched(s'))
            && (Books(s) && AdmittedFirst(s.ledger, CallKey(p, req.fact)) ==> Books(s'))
  {
    hide Admit, PendingFor;
    if !Holds(s, p, g) { return; }
    if Books(s) && AdmittedFirst(s.ledger, CallKey(p, req.fact)) {
      AdmitBalanced(s.ledger, p, g, req);
      AdmitNoMissed(s, p, g, req);
    }
  }

  /** A commit keeps claims matched when its wait is well formed; everything else
      survives even the commit that is refused half way. */
  lemma CommitKeeps(s: State, p: Persona, t: TurnId, g: nat, req: CommitRequest)
    requires Inv(s)
    ensures var s' := Commit(s, p, t, g, req);
            Inv(s') && (Books(s) ==> Books(s')) && (Matched(s) && !MalformedWait(req) ==> Matched(s'))
  {
    hide Committed, CommitRefused;
    if !Commits(s, p, t, g, req) { return; }
    if MalformedWait(req) { HalfCommitKeeps(s, p, t, g, req); return; }
    WholeCommitKeeps(s, p, t, g, req);
  }

  /** The refused half: the records landed and the turn is closed. */
  lemma HalfCommitKeeps(s: State, p: Persona, t: TurnId, g: nat, req: CommitRequest)
    requires Inv(s) && Commits(s, p, t, g, req) && MalformedWait(req)
    ensures Inv(Committed(s, p, t, g, req)) && (Books(s) ==> Books(Committed(s, p, t, g, req)))
  {
    hide CommitJournal, Fits, CommitRefused, PendingFor;
    CloseAloneKeepsLives(s.inputs, s.turns, t, ClosedTurn(s.turns[t], req));
  }

  lemma WholeCommitKeeps(s: State, p: Persona, t: TurnId, g: nat, req: CommitRequest)
    requires Inv(s) && Commits(s, p, t, g, req) && !MalformedWait(req)
    ensures Keeps(s, Committed(s, p, t, g, req))
  {
    hide CommitJournal, Reconcile, Fits, CommitRefused, PendingFor, CommitWaits, Balanced, NoMissedWake;
    var s' := Committed(s, p, t, g, req);
    var k := FindInput(s.inputs, s.turns[t].key).value;
    CloseKeepsLives(s.inputs, s.turns, k, t, s'.inputs[k], s'.turns[t]);
    assert Timed(s.inputs[k], s.clock);
    assert HasClaim(s.inputs, t, s.turns[t]);
    assert s.inputs[k].status == Claimed;
    CommitWaitsOk(s, t, s.turns[t].key, req);
    if Books(s) {
      ReconcileKeeps(s.ledger, OfTurn(p, t), 0);
      ReconcileNoMissed(s'.waits, s.ledger, OfTurn(p, t));
    }
  }

  lemma CommitWaitsOk(s: State, t: TurnId, key: InputKey, req: CommitRequest)
    requires !MalformedWait(req)
    ensures NoMissedWake(s.waits, s.ledger) ==> NoMissedWake(CommitWaits(s, t, key, req), s.ledger)
    ensures forall k :: k in s.waits ==> k in CommitWaits(s, t, key, req)
    ensures req.outcome == ToAwait && Parks(s, key, req.wait) ==>
              PendingFor(s.approvals, key) || key in CommitWaits(s, t, key, req)
  {
  }

  lemma PlanKeeps(s: State, p: Persona, g: nat, t: TurnId, round: int, decision: Round, nul: bool)
    requires Inv(s)
    ensures Keeps(s, SavePlan(s, p, g, t, round, decision, nul))
  {
    hide Fits, PendingFor;
    if !LiveTurn(s, p, g, t) || nul || round != |PlanOf(s, s.turns[t].key)| { return; }
  }

  lemma AcquireKeeps(s: State, p: Persona, holder: int, ttl: int)
    requires Inv(s)
    ensures Keeps(s, Acquire(s, p, holder, ttl))
  {
    hide Fits, PendingFor;
    if !Grants(s, p, holder) { return; }
  }

  lemma RenewKeeps(s: State, p: Persona, holder: int, g: nat, ttl: int)
    requires Inv(s)
    ensures Keeps(s, Renew(s, p, holder, g, ttl)) && Keeps(s, Release(s, p, holder, g))
  {
    hide Fits, PendingFor;
    if !Holds(s, p, g) || s.leases[p].holder != holder { return; }
  }

  /** Every step keeps the fences, the single live turn and the parked inputs.
      It keeps the books if calls are admitted first, and claims matched to
      running turns if turn ids are fresh and waits well formed. */
  lemma StepKeeps(s: State, step: Step)
    requires Inv(s)
    ensures Inv(Apply(s, step))
    ensures Books(s) && AdmitsFirst(s, step) ==> Books(Apply(s, step))
    ensures Matched(s) && FreshTurn(s, step) && SoundWait(step) ==> Matched(Apply(s, step))
  {
    hide Inv, Books, Matched, Claim, Resolve, Commit, CompleteOperation, Load, Recover, RecordUsage, SetBudget, ResumeForHuman,
         Acquire, Renew, Release, AdmitUsage, Enqueue, SavePlan, Personas;
    match step {
      case SavePlanStep(p, g, t, round, decision, nul) => PlanKeeps(s, p, g, t, round, decision, nul);
      case ClaimStep(p, g, c, w) => ClaimKeeps(s, p, g, c, w);
      case ResolveStep(p, pos, d, valid) => ResolveKeeps(s, p, pos, d, valid);
      case CommitStep(p, t, g, req) => CommitKeeps(s, p, t, g, req);
      case CompleteStep(p, key, id, g, answer, failed) => CompleteKeeps(s, p, key, id, g, answer, failed);
      case RecordStep(p, req) => RecordKeeps(s, p, req);
      case BudgetStep(fund, b) => BudgetKeeps(s, fund, b);
      case AcquireStep(p, holder, ttl) => AcquireKeeps(s, p, holder, ttl);
      case RenewStep(p, holder, g, ttl) => RenewKeeps(s, p, holder, g, ttl);
      case ReleaseStep(p, holder, g) => RenewKeeps(s, p, holder, g, 0);
      case LoadStep(p, g, t) => LoadKeeps(s, p, g, t);
      case RecoverStep(p, g) => RecoverKeeps(s, p, g);
      case AdmitStep(p, g, req) => AdmitKeeps(s, p, g, req);
      case AddInput(key) => EnqueueKeeps(s, key);
      case HumanStep(h) => HumanKeeps(s, h);
      case Tick(ms) => QuietKeeps(s, ms, s.personas, s.registered);
      case AddPersona(_, _) => QuietKeeps(s, 0, Personas(s, step), s.registered);
      case BindHuman(_, _) => QuietKeeps(s, 0, Personas(s, step), s.registered);
      case SetAuthority(_, _) => QuietKeeps(s, 0, Personas(s, step), s.registered);
      case Register(tool) => QuietKeeps(s, 0, s.personas, s.registered + {tool});
    }
  }

  lemma HumanKeeps(s: State, h: Human)
    requires Inv(s)
    ensures Keeps(s, ResumeForHuman(s, h))
  {
    WakeKeeps(s, set k | k in s.waits && k.persona in s.personas && s.personas[k.persona].human == Some(h));
  }

  /** Time passing, and changes to the personas and the tools. */
  lemma QuietKeeps(s: State, ms: nat, personas: map<Persona, PersonaRow>, registered: set<Tool>)
    requires Inv(s)
    ensures Keeps(s, s.(clock := s.clock + ms))
    ensures Keeps(s, s.(personas := personas)) && Keeps(s, s.(registered := registered))
  {
    hide Fits, PendingFor;
  }

  lemma EnqueueKeeps(s: State, key: InputKey)
    requires Inv(s)
    ensures Keeps(s, Enqueue(s, key))
  {
    hide Fits, PendingFor;
    if FindInput(s.inputs, key).Some? { return; }
    var s' := Enqueue(s, key);
    assert forall k :: 0 <= k < |s.inputs| ==> s'.inputs[k] == s.inputs[k];
    forall t | t in s.turns && s.turns[t].status == Running ensures HasClaim(s'.inputs, t, s.turns[t]) {
      var k :| 0 <= k < |s.inputs| && ClaimedBy(s.inputs[k], t, s.turns[t]);
      assert ClaimedBy(s'.inputs[k], t, s.turns[t]);
    }
  }
}
