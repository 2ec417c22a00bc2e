/** What the state service promises about every run: the theorems, drawn from
    the invariants of every step. */
module Guarantees {
  import opened Common
  import opened Plan
  import opened Journal
  import opened Ledger
  import opened Store
  import opened Runs
  import Effects
  import Lifecycle
  import Records

  // --------------------------------------------------------------- exactly once

  /** Over every run whatsoever, a plan position has its effect at most once. */
  lemma ExactlyOnce(steps: seq<Step>, i: nat, j: nat)
    requires var trail := Exec(Initial(), steps).trail;
             i < |trail| && j < |trail| && trail[i].Applied? && trail[j].Applied? && trail[i].pos == trail[j].pos
    ensures i == j
  {
    Effects.RunKeeps(steps);
  }

  /** Every effect is the call the durable plan records at its position, and its
      operation is finished. */
  lemma EffectsAreRecorded(steps: seq<Step>, j: nat)
    requires var s := Exec(Initial(), steps); j < |s.trail| && s.trail[j].Applied?
    ensures var s := Exec(Initial(), steps);
            var pos, call := s.trail[j].pos, s.trail[j].call;
            var plan := PlanOf(s, InputKey(pos.persona, pos.input));
            && 0 <= pos.index < |Flat(plan)| && Flat(plan)[pos.index] == call
            && PlaceOf(plan, pos.index).Some? && PlaceOf(plan, pos.index).value.call == call
            && OpKey(pos, call.tool) in s.ops && s.ops[OpKey(pos, call.tool)].status == OpDone
  {
    Effects.RunKeeps(steps);
    var s := Exec(Initial(), steps);
    var pos := s.trail[j].pos;
    WalkAgreesWithFlat(PlanOf(s, InputKey(pos.persona, pos.input)), pos.index, 0, pos.index);
  }

  /** The claim a turn sends for a recorded call is never refused as divergent,
      whichever attempt sends it. */
  lemma RecordedClaimsAgree(s: State, p: Persona, g: nat, c: ClaimRequest, w: World)
    requires Effects.Inv(s) && LiveTurn(s, p, g, c.turn) && Registered(s, c.tool) && !c.nul
    requires 0 <= c.index < |Flat(PlanOf(s, s.turns[c.turn].key))|
    requires Flat(PlanOf(s, s.turns[c.turn].key))[c.index].tool == c.tool
    requires Flat(PlanOf(s, s.turns[c.turn].key))[c.index].request == c.request
    ensures ClaimBody(s, p, g, c, w) != Threw(Refused(409))
  {
    hide ClaimElevated, ClaimNormal, Spend, ApplyTool, Fail;
    var key := OpKey(Position(p, s.turns[c.turn].key.input, c.index), c.tool);
    var call := Flat(PlanOf(s, s.turns[c.turn].key))[c.index];
    if key in s.ops {
      OpRequest(s, key, call);
      GatedNotDivergent(s, c, w, key, call, s.ops[key]);
      return;
    }
    ElevatedNotDivergent(s, g, c, w, key, call);
    if call.route == Elevated { return; }
  }

  lemma OpRequest(s: State, key: OpKey, call: Call)
    requires Effects.Inv(s) && key in s.ops
    requires 0 <= key.pos.index < |Flat(PlanOf(s, InputKey(key.pos.persona, key.pos.input)))|
    requires Flat(PlanOf(s, InputKey(key.pos.persona, key.pos.input)))[key.pos.index] == call
    ensures s.ops[key].request == call.request
  {
    assert Effects.CallAt(s.plans, key.pos).Some?;
  }

  lemma GatedNotDivergent(s: State, c: ClaimRequest, w: World, key: OpKey, call: Call, op: Operation)
    requires c.turn in s.turns
    ensures ClaimGated(s, c, w, key, call, op) != Threw(Refused(409))
  {
    hide Spend, ApplyTool, Fail;
    if key.pos !in s.approvals { return; }
    if s.approvals[key.pos].status != Approved || s.approvals[key.pos].consumed { return; }
    if w.effect.Breaks? { return; }
  }

  lemma ElevatedNotDivergent(s: State, g: nat, c: ClaimRequest, w: World, key: OpKey, call: Call)
    requires c.turn in s.turns
    ensures ClaimElevated(s, g, c, w, key, call) != Threw(Refused(409))
    ensures ClaimNormal(s, g, c, w, key, call) != Threw(Refused(409))
  {
    hide WithExperience, ApplyTool, Fail;
    if w.malformed.Some? {}
    if WasDenied(s.approvals, key.pos, call) { return; }
    if call.tool == MessageSend { return; }
  }

  /** Records a claim adds: the receipt its input lacked, or an experience its
      lineage lacked. */
  ghost predicate Lacked(j: Journal, owners: Owners, key: InputKey, e: EventInput) {
    || (e == InputReceived(Some(key.input)) && key !in j.received)
    || (ExperienceKey(e).Some? && ExperienceKey(e).value !in Lineage(j.log, owners, key))
  }

  lemma {:induction false} AppendFreshLacked(j: Journal, p: Persona, t: TurnId, events: seq<EventInput>, seen: set<Experience>)
    requires forall e :: e in events ==> ExperienceKey(e).Some?
    ensures var log := AppendFresh(j, p, t, events, seen).log;
            && j.log <= log
            && forall k :: |j.log| <= k < |log| ==> ExperienceKey(log[k].body).Some? && ExperienceKey(log[k].body).value !in seen
    decreases |events|
  {
    if events == [] { return; }
    assert events[0] in events;
    var x := ExperienceKey(events[0]).value;
    if x in seen {
      AppendFreshLacked(j, p, t, events[1..], seen);
      return;
    }
    AppendFreshLacked(Push(j, p, t, events[0]), p, t, events[1..], seen + {x});
  }

  lemma ExperiencedLacked(j: Journal, owners: Owners, t: TurnId, key: InputKey, events: seq<EventInput>)
    requires forall e :: e in events ==> ExperienceKey(e).Some?
    ensures var log := Experienced(j, owners, t, key, events).log;
            j.log <= log && forall k :: |j.log| <= k < |log| ==> Lacked(j, owners, key, log[k].body)
  {
    var j1 := EnsureReceived(j, key.persona, t, key.input);
    LineageSnoc(j.log, owners, key, Event(key.persona, Last(j, key.persona) + 1, t, InputReceived(Some(key.input))));
    AppendFreshLacked(j1, key.persona, t, events, Lineage(j1.log, owners, key));
  }

  lemma ClaimEventsKeyed(place: Option<Place>, key: OpKey, op: Operation, approval: Option<Approval>)
    ensures forall e :: e in ClaimEvents(place, key, op, approval) ==> ExperienceKey(e).Some?
  {
    if op.status == AwaitingApproval && approval.Some? && approval.value.status == Pending { return; }
    if OutcomeOf(op, approval).None? { return; }
  }

  /** A replayed claim of a finished operation answers with the recorded row and
      leaves everything but the journal as it was; the journal gains only records
      the input's lineage lacked. */
  lemma FinishedClaimReplays(s: State, p: Persona, g: nat, c: ClaimRequest, w: World)
    requires Effects.Inv(s) && LiveTurn(s, p, g, c.turn) && Registered(s, c.tool) && !c.nul
    requires 0 <= c.index < |Flat(PlanOf(s, s.turns[c.turn].key))|
    requires Flat(PlanOf(s, s.turns[c.turn].key))[c.index].tool == c.tool
    requires Flat(PlanOf(s, s.turns[c.turn].key))[c.index].request == c.request
    requires var key := OpKey(Position(p, s.turns[c.turn].key.input, c.index), c.tool);
             key in s.ops && (s.ops[key].status == OpDone || s.ops[key].status == OpFailed)
    ensures var r, (s', reply) := ClaimBody(s, p, g, c, w), Claim(s, p, g, c, w);
            var key := OpKey(Position(p, s.turns[c.turn].key.input, c.index), c.tool);
            && r.Got? && !r.created && r.op == s.ops[key] && reply == Ok
            && s' == s.(journal := s'.journal) && s.journal.log <= s'.journal.log
            && forall k :: |s.journal.log| <= k < |s'.journal.log| ==>
                 Lacked(s.journal, OwnersOf(s.turns), s.turns[c.turn].key, s'.journal.log[k].body)
  {
    hide ClaimGated, ClaimEvents, PlaceOf, Lacked;
    var key := OpKey(Position(p, s.turns[c.turn].key.input, c.index), c.tool);
    OpRequest(s, key, Flat(PlanOf(s, s.turns[c.turn].key))[c.index]);
    var r := ClaimBody(s, p, g, c, w);
    var place := PlaceOf(PlanOf(s, s.turns[c.turn].key), c.index);
    var events := ClaimEvents(place, r.key, r.op, r.approval);
    ClaimEventsKeyed(place, r.key, r.op, r.approval);
    ExperiencedLacked(s.journal, OwnersOf(s.turns), c.turn, s.turns[c.turn].key, events);
    if events == [] { return; }
  }

  // ------------------------------------------------------------ the approval gate

  /** On any run every elevated effect follows an approve_once of its own position
      by the human bound to the persona then and now. */
  lemma ElevatedNeedsApproval(steps: seq<Step>, j: nat)
    requires var s := Exec(Initial(), steps); j < |s.trail| && s.trail[j].Applied? && s.trail[j].call.route == Elevated
    ensures var s := Exec(Initial(), steps);
            exists i :: 0 <= i < j && s.trail[i].Decided? && s.trail[i].pos == s.trail[j].pos
                        && s.trail[i].decision.approve && ByBoundHuman(s.trail[i], s.personas)
  {
    hide Lifecycle.Inv, Exec, Kept;
    RunSturdy(steps);
    var s := Exec(Initial(), steps);
    assert Effects.ApprovedBefore(s.trail, s.trail[j].pos, j);
    var i :| 0 <= i < j && i < |s.trail| && Effects.IsApproval(s.trail[i], s.trail[j].pos);
    assert ByBoundHuman(s.trail[i], s.personas);
  }

  /** An elevated effect spends its grant: no second effect stands at its
      position, and no operation there still waits to run. */
  lemma GrantSpentOnce(steps: seq<Step>, i: nat, j: nat)
    requires var s := Exec(Initial(), steps);
             && j < |s.trail| && s.trail[j].Applied? && s.trail[j].call.route == Elevated
             && i < |s.trail| && s.trail[i].Applied? && s.trail[i].pos == s.trail[j].pos
    ensures var s := Exec(Initial(), steps);
            var pos := s.trail[j].pos;
            && i == j
            && pos in s.approvals && s.approvals[pos].consumed && s.approvals[pos].status == Approved
            && forall k :: k in s.ops && k.pos == pos ==> s.ops[k].status != AwaitingApproval
  {
    Effects.RunKeeps(steps);
  }

  /** A position denied at some point of a run has not run, and does not run however
      the run goes on. */
  lemma DeniedNeverRuns(before: seq<Step>, after: seq<Step>, pos: Position, j: nat)
    requires var s := Exec(Initial(), before); pos in s.approvals && s.approvals[pos].status == DeniedApproval
    requires var s' := Exec(Initial(), before + after); j < |s'.trail| && s'.trail[j].Applied?
    ensures Exec(Initial(), before + after).trail[j].pos != pos
  {
    hide Lifecycle.Inv, Exec, Initial, Kept, TrailForward, Effects.Inv;
    var s := Exec(Initial(), before);
    ExecConcat(Initial(), before, after);
    RunSturdy(before);
    SturdyRun(s, after);
    DeniedStays(s, Exec(s, after), pos);
    DeniedHasNoEffect(Exec(s, after), pos, j);
  }

  lemma DeniedStays(s: State, s': State, pos: Position)
    requires Effects.Inv(s) && Steady(s, s') && pos in s.approvals && s.approvals[pos].status == DeniedApproval
    ensures pos in s'.approvals && s'.approvals[pos].status == DeniedApproval
  {
  }

  lemma DeniedHasNoEffect(s: State, pos: Position, j: nat)
    requires Effects.Inv(s) && pos in s.approvals && s.approvals[pos].status == DeniedApproval
    requires j < |s.trail| && s.trail[j].Applied?
    ensures s.trail[j].pos != pos
  {
    assert Effects.CallAt(s.plans, pos) == Some(s.approvals[pos].call);
  }

  /** After a denial, no identical normal-route call of that input runs. */
  lemma DenialNotSidestepped(steps: seq<Step>, i: nat, j: nat)
    requires var s := Exec(Initial(), steps);
             && i < j < |s.trail| && s.trail[i].Decided? && !s.trail[i].decision.approve
             && s.trail[j].Applied? && s.trail[j].call.route == Normal
             && s.trail[j].pos.persona == s.trail[i].pos.persona && s.trail[j].pos.input == s.trail[i].pos.input
    ensures var s := Exec(Initial(), steps);
            && s.trail[i].pos in s.approvals
            && var denied := s.approvals[s.trail[i].pos].call;
               denied.tool != s.trail[j].call.tool || denied.request != s.trail[j].call.request
  {
    Effects.RunKeeps(steps);
    var s := Exec(Initial(), steps);
    assert !Effects.Sidesteps(s.approvals, s.trail[i], s.trail[j]);
  }

  // -------------------------------------------------------------------- fencing

  /** Two granted leases of one persona never share a generation: however a run
      goes on between them, the later one's is strictly larger. */
  lemma GenerationsIncrease(before: seq<Step>, p: Persona, h1: int, ttl1: int, between: seq<Step>, h2: int, ttl2: int)
    requires var s := Exec(Initial(), before);
             Grants(s, p, h1) && Grants(Exec(Acquire(s, p, h1, ttl1), between), p, h2)
    ensures var s1 := Acquire(Exec(Initial(), before), p, h1, ttl1);
            var s2 := Acquire(Exec(s1, between), p, h2, ttl2);
            s1.leases[p].generation < s2.leases[p].generation
  {
    hide Effects.Inv, Exec, Initial, Kept, TrailForward, Extends;
    var s := Exec(Initial(), before);
    var s1 := Acquire(s, p, h1, ttl1);
    RunSturdy(before);
    SturdyStep(s, AcquireStep(p, h1, ttl1));
    Lifecycle.AcquireIsNew(s, p, h1, ttl1);
    SturdyRun(s1, between);
    Lifecycle.AcquireIsNew(Exec(s1, between), p, h2, ttl2);
  }

  /** A superseded generation stays superseded however a run goes on, so by
      SupersededChangesNothing none of its calls ever changes anything again. */
  lemma SupersededForGood(before: seq<Step>, after: seq<Step>, p: Persona, g: nat)
    requires var s := Exec(Initial(), before); p in s.generations && g < s.generations[p]
    ensures !Holds(Exec(Initial(), before + after), p, g)
  {
    hide Effects.Inv, Exec, Initial, Kept, TrailForward, Extends;
    ExecConcat(Initial(), before, after);
    RunSturdy(before);
    SturdyRun(Exec(Initial(), before), after);
  }

  /** The input is a running turn's. */
  ghost predicate Served(s: State, i: Input) {
    exists t :: t in s.turns && s.turns[t].status == Running && s.turns[t].key == i.key
  }

  /** On any run each persona has at most one running turn, and its input is
      claimed.  With fresh turn ids and well-formed waits, nothing else is. */
  lemma OneLiveTurn(care: set<Care>, steps: seq<Step>)
    requires Careful(care, Initial(), steps)
    ensures var s := Exec(Initial(), steps);
            && Lifecycle.OneRunning(s.turns)
            && (forall k :: 0 <= k < |s.inputs| && Served(s, s.inputs[k]) ==> s.inputs[k].status == Claimed)
            && ({FreshIds, SoundWaits} <= care ==>
                  forall k :: 0 <= k < |s.inputs| && s.inputs[k].status == Claimed ==> Served(s, s.inputs[k]))
  {
    hide Effects.Inv, Exec, Kept, TrailForward, Careful;
    var s := Exec(Initial(), steps);
    RunSturdy(steps);
    forall k | 0 <= k < |s.inputs| && Served(s, s.inputs[k]) ensures s.inputs[k].status == Claimed {
      var t :| t in s.turns && s.turns[t].status == Running && s.turns[t].key == s.inputs[k].key;
      RunningIsClaimed(s, t, k);
    }
    if {FreshIds, SoundWaits} <= care {
      InitialSturdy();
      MatchedRun(care, Initial(), steps);
    }
  }

  // ------------------------------------------------- parked inputs and wake-ups

  /** On any run a waiting input has a pending approval or a parked wait, which does
      not fit if calls are admitted first; and waiting_since and waited_ms tell
      its waits exactly. */
  lemma NothingStranded(care: set<Care>, steps: seq<Step>, k: nat)
    requires Careful(care, Initial(), steps) && k < |Exec(Initial(), steps).inputs|
    ensures var s := Exec(Initial(), steps);
            var i := s.inputs[k];
            && (i.status == Waiting ==>
                  || PendingFor(s.approvals, i.key)
                  || (i.key in s.waits
                      && (AdmitFirst in care ==> !Fits(s.ledger, s.waits[i.key].funding, s.waits[i.key].estimate))))
            && (i.status == Waiting <==> i.waitingSince.Some?)
            && i.waitedMs == Lifecycle.TotalWait(i.history)
  {
    hide Effects.Inv, Exec, Kept, TrailForward, Careful, Fits;
    var s := Exec(Initial(), steps);
    RunSturdy(steps);
    assert Lifecycle.Timed(s.inputs[k], s.clock);
    if AdmitFirst in care && s.inputs[k].key in s.waits { NoMissedWakeUp(care, steps, s.inputs[k].key); }
  }

  /** While calls are admitted first no parked budget wait ever fits: whatever
      freed the headroom has already requeued it. */
  lemma NoMissedWakeUp(care: set<Care>, steps: seq<Step>, key: InputKey)
    requires AdmitFirst in care && Careful(care, Initial(), steps) && key in Exec(Initial(), steps).waits
    ensures var s := Exec(Initial(), steps); !Fits(s.ledger, s.waits[key].funding, s.waits[key].estimate)
  {
    hide Sturdy, Exec, Careful, Fits;
    InitialSturdy();
    BooksRun(care, Initial(), steps);
  }

  // ------------------------------------------------------------------- the ledger

  /** While calls are admitted first money is conserved: each admitted call counts
      once, as its hold or as its fact, beside the facts never admitted. */
  lemma MoneyConserved(care: set<Care>, steps: seq<Step>, fund: Funding, c: Currency)
    requires AdmitFirst in care && Careful(care, Initial(), steps)
    ensures var l := Exec(Initial(), steps).ledger;
            Used(l, fund, c) == AdmittedSum(l.reservations, l.facts, fund, c) + UnadmittedSum(l.facts, l.reservations, fund, c)
  {
    hide Sturdy, Exec, Careful;
    InitialSturdy();
    BooksRun(care, Initial(), steps);
    Conservation(Exec(Initial(), steps).ledger, fund, c);
  }

  /** The cap is left alone and records stay within their holds. */
  ghost predicate Prudent(s: State, step: Step, fund: Funding) {
    && AdmitsFirst(s, step)
    && (step.BudgetStep? ==> step.fund != fund)
    && (step.RecordStep? && fund in s.ledger.budgets ==>
          WithinHold(s.ledger, step.p, step.record, fund, s.ledger.budgets[fund].card.currency))
  }

  ghost predicate PrudentRun(s: State, steps: seq<Step>, fund: Funding) {
    steps == [] || (var n := |steps| - 1;
                    PrudentRun(s, steps[..n], fund) && Prudent(Exec(s, steps[..n]), steps[n], fund))
  }

  /** The cap on `fund` is `b` and spend plus holds stay inside it. */
  ghost predicate Capped(l: Ledger, fund: Funding, b: Budget) {
    fund in l.budgets && l.budgets[fund] == b && Used(l, fund, b.card.currency) <= b.limit
  }

  lemma ReconcileCapped(l: Ledger, sel: Selector, fund: Funding, b: Budget)
    requires Capped(l, fund, b) && Balanced(l)
    ensures Capped(Reconcile(l, sel, 0), fund, b)
  {
    ReconcileKeeps(l, sel, 0);
  }

  lemma ResumeSameLedger(s: State, fund: Funding)
    ensures ResumeWaits(s, fund).ledger == s.ledger
  {
    hide Woken, Fitting, Restated;
  }

  lemma RecordCapped(s: State, p: Persona, req: RecordRequest, fund: Funding, b: Budget)
    requires Balanced(s.ledger) && Capped(s.ledger, fund, b) && WithinHold(s.ledger, p, req, fund, b.card.currency)
    ensures Capped(RecordUsage(s, p, req).ledger, fund, b)
  {
    hide ResumeWaits, Record;
    var r := Record(s.ledger, p, req);
    RecordUsed(s.ledger, p, req, fund, b.card.currency);
    RecordWithinHold(s.ledger, p, req, fund, b.card.currency);
    ResumeSameLedger(s.(ledger := r.ledger), req.funding);
    if r.resume { return; }
  }

  lemma BudgetCapped(s: State, other: Funding, nb: Option<Budget>, fund: Funding, b: Budget)
    requires Capped(s.ledger, fund, b) && other != fund
    ensures Capped(SetBudget(s, other, nb).ledger, fund, b)
  {
    hide ResumeWaits;
    var budgets := match nb case Some(v) => s.ledger.budgets[other := v] case None => s.ledger.budgets - {other};
    ResumeSameLedger(s.(ledger := s.ledger.(budgets := budgets)), other);
  }

  lemma AdmitCapped(s: State, p: Persona, g: nat, req: AdmitRequest, fund: Funding, b: Budget)
    requires Capped(s.ledger, fund, b)
    ensures Capped(AdmitUsage(s, p, g, req).ledger, fund, b)
  {
    if !Holds(s, p, g) { return; }
    AdmitWithinLimit(s.ledger, p, g, req, fund);
  }

  lemma CommitCapped(s: State, p: Persona, t: TurnId, g: nat, req: CommitRequest, fund: Funding, b: Budget)
    requires Capped(s.ledger, fund, b) && Balanced(s.ledger)
    ensures Capped(Commit(s, p, t, g, req).ledger, fund, b)
  {
    hide Reconcile, Capped, Commits, CommitJournal, DisposedInput, CommitWaits;
    ReconcileCapped(s.ledger, OfTurn(p, t), fund, b);
    if !Commits(s, p, t, g, req) { return; }
    if MalformedWait(req) { return; }
  }

  lemma RecoverCapped(s: State, p: Persona, g: nat, fund: Funding, b: Budget)
    requires Capped(s.ledger, fund, b) && Balanced(s.ledger)
    ensures Capped(Recover(s, p, g).ledger, fund, b)
  {
    hide Reconcile, Capped, MarkAll;
    ReconcileCapped(s.ledger, BeforeGeneration(p, g), fund, b);
    if !Holds(s, p, g) { return; }
  }

  /** The steps that leave the ledger alone. */
  predicate Unbilled(step: Step) {
    !step.RecordStep? && !step.BudgetStep? && !step.AdmitStep? && !step.CommitStep? && !step.RecoverStep?
  }

  lemma ClaimSameLedger(s: State, p: Persona, g: nat, c: ClaimRequest, w: World)
    ensures Claim(s, p, g, c, w).0.ledger == s.ledger
  {
    hide ClaimBody, JournalRejected, JournalClaim, ClaimEvents, PlaceOf;
    var r := ClaimBody(s, p, g, c, w);
    ClaimBodyForward(s, p, g, c, w);
    RejectedForward(s, p, g, c, w.cause);
    if r.Threw? {
      if r.reply == Refused(400) { return; }
      return;
    }
    if c.turn !in r.state.turns { return; }
    var place := PlaceOf(PlanOf(r.state, r.state.turns[c.turn].key), c.index);
    Records.ClaimEventsNoReceipts(place, r.key, r.op, r.approval);
    JournalClaimForward(r.state, c.turn, ClaimEvents(place, r.key, r.op, r.approval));
  }

  lemma LoadSameLedger(s: State, p: Persona, g: nat, t: TurnId)
    ensures Load(s, p, g, t).ledger == s.ledger
  {
    if LoadIndex(s, p, g).None? { return; }
  }

  lemma LeaseSameLedger(s: State, p: Persona, holder: int, g: nat, ttl: int)
    ensures Acquire(s, p, holder, ttl).ledger == s.ledger
    ensures Renew(s, p, holder, g, ttl).ledger == s.ledger
    ensures Release(s, p, holder, g).ledger == s.ledger
  {
    if !Grants(s, p, holder) {}
  }

  lemma ResolveSameLedger(s: State, p: Persona, pos: Position, d: Decision, valid: bool)
    ensures Resolve(s, p, pos, d, valid).ledger == s.ledger
  {
    if !Decides(s, p, pos, d, valid) { return; }
  }

  lemma CompleteSameLedger(s: State, p: Persona, key: OpKey, id: int, g: nat, answer: Payload, failed: bool)
    ensures CompleteOperation(s, p, key, id, g, answer, failed).ledger == s.ledger
  {
    hide CompletedJournal;
    if !Completes(s, p, key, id, g) { return; }
  }

  lemma EnqueueSameLedger(s: State, key: InputKey)
    ensures Enqueue(s, key).ledger == s.ledger
  {
    if FindInput(s.inputs, key).Some? { return; }
  }

  lemma PlanSameLedger(s: State, p: Persona, g: nat, t: TurnId, round: int, decision: Round, nul: bool)
    ensures SavePlan(s, p, g, t, round, decision, nul).ledger == s.ledger
  {
    if !LiveTurn(s, p, g, t) || nul { return; }
  }

  lemma UnbilledSameLedger(s: State, step: Step)
    requires Unbilled(step)
    ensures Apply(s, step).ledger == s.ledger
  {
    hide Claim, Resolve, CompleteOperation, Load, ResumeForHuman, Acquire, Renew, Release, Enqueue, SavePlan, Personas;
    match step {
      case ClaimStep(p, g, c, w) => ClaimSameLedger(s, p, g, c, w);
      case ResolveStep(p, pos, d, valid) => ResolveSameLedger(s, p, pos, d, valid);
      case CompleteStep(p, key, id, g, answer, failed) => CompleteSameLedger(s, p, key, id, g, answer, failed);
      case LoadStep(p, g, t) => LoadSameLedger(s, p, g, t);
      case HumanStep(h) => HumanSameLedger(s, h);
      case AcquireStep(p, holder, ttl) => LeaseSameLedger(s, p, holder, 0, ttl);
      case RenewStep(p, holder, g, ttl) => LeaseSameLedger(s, p, holder, g, ttl);
      case ReleaseStep(p, holder, g) => LeaseSameLedger(s, p, holder, g, 0);
      case AddInput(key) => EnqueueSameLedger(s, key);
      case SavePlanStep(p, g, t, round, decision, nul) => PlanSameLedger(s, p, g, t, round, decision, nul);
      case Tick(_) =>
      case AddPersona(_, _) =>
      case BindHuman(_, _) =>
      case SetAuthority(_, _) =>
      case Register(_) =>
    }
  }

  lemma HumanSameLedger(s: State, h: Human)
    ensures ResumeForHuman(s, h).ledger == s.ledger
  {
    hide Woken;
  }

  lemma StepCapped(s: State, step: Step, fund: Funding, b: Budget)
    requires Balanced(s.ledger) && Capped(s.ledger, fund, b) && Prudent(s, step, fund)
    ensures Capped(Apply(s, step).ledger, fund, b)
  {
    hide Balanced, Capped, Prudent, Apply;
    if Unbilled(step) { UnbilledSameLedger(s, step); return; }
    BilledCapped(s, step, fund, b);
  }

  lemma BilledCapped(s: State, step: Step, fund: Funding, b: Budget)
    requires Balanced(s.ledger) && Capped(s.ledger, fund, b) && Prudent(s, step, fund) && !Unbilled(step)
    ensures Capped(Apply(s, step).ledger, fund, b)
  {
    hide RecordUsage, SetBudget, AdmitUsage, Commit, Recover, AdmitsFirst, WithinHold, Balanced, Claim, Resolve, Load,
         CompleteOperation, SavePlan, Enqueue, Acquire, Renew, Release, ResumeForHuman, Personas;
    if step.RecordStep? { RecordCapped(s, step.p, step.record, fund, b); return; }
    if step.BudgetStep? { BudgetCapped(s, step.fund, step.budget, fund, b); return; }
    if step.AdmitStep? { AdmitCapped(s, step.p, step.generation, step.admit, fund, b); return; }
    if step.CommitStep? { CommitCapped(s, step.p, step.turn, step.generation, step.req, fund, b); return; }
    RecoverCapped(s, step.p, step.generation, fund, b);
  }

  lemma {:induction false} PrudentIsCareful(s: State, steps: seq<Step>, fund: Funding)
    requires PrudentRun(s, steps, fund)
    ensures Careful({AdmitFirst}, s, steps)
  {
    if steps != [] { PrudentIsCareful(s, steps[..|steps| - 1], fund); }
  }

  /** Under an unchanged cap, with actual costs within their holds, spend plus
      holds never exceeds the limit, through recoveries, commits and any writer. */
  lemma {:induction false} CapHolds(s: State, steps: seq<Step>, fund: Funding, b: Budget)
    requires Sturdy(s) && Lifecycle.Books(s) && Capped(s.ledger, fund, b) && PrudentRun(s, steps, fund)
    ensures Capped(Exec(s, steps).ledger, fund, b)
  {
    hide Sturdy, Apply, Prudent, Capped, Balanced;
    if steps == [] { return; }
    var n := |steps| - 1;
    CapHolds(s, steps[..n], fund, b);
    PrudentIsCareful(s, steps[..n], fund);
    BooksRun({AdmitFirst}, s, steps[..n]);
    StepCapped(Exec(s, steps[..n]), steps[n], fund, b);
  }

  // ------------------------------------------------------------------ the journal

  /** On any run each persona's records are numbered 1..n. */
  lemma JournalNumbered(steps: seq<Step>, p: Persona, k: nat)
    requires k < |Own(Exec(Initial(), steps).journal.log, p)|
    ensures Own(Exec(Initial(), steps).journal.log, p)[k].num == k + 1
  {
    hide Effects.Inv, Lifecycle.Inv, Exec, TrailForward;
    RunSturdy(steps);
    NumberedFromOne(Exec(Initial(), steps).journal.log, p);
  }

  /** On any run every input is received at most once. */
  lemma ReceivedOnce(steps: seq<Step>, a: nat, b: nat)
    requires var log := Exec(Initial(), steps).journal.log;
             && a < |log| && b < |log| && log[a].body.InputReceived?
             && log[b].body == log[a].body && log[a].persona == log[b].persona
    ensures a == b
  {
    hide Effects.Inv, Lifecycle.Inv, Exec, TrailForward;
    RunSturdy(steps);
    OneReceipt(Exec(Initial(), steps).journal, a, b);
  }

  /** Two records of one experience: the text of one round, one call, one call's
      result, one request for approval. */
  predicate SameThing(a: EventInput, b: EventInput) {
    || (a.AssistantMessage? && b.AssistantMessage? && a.round.Some? && a.round == b.round)
    || (a.ToolCall? && b.ToolCall? && a.callIndex.Some? && a.callIndex == b.callIndex)
    || (a.ToolResult? && b.ToolResult? && a.callIndex.Some? && a.callIndex == b.callIndex)
    || (a.ApprovalRequested? && b.ApprovalRequested? && a.approval.Some? && a.approval == b.approval)
  }

  /** With fresh turn ids nothing is experienced twice across all turns serving one
      input: no round's text, no call, no result, no request. */
  lemma ExperiencedOnce(care: set<Care>, steps: seq<Step>, a: nat, b: nat)
    requires FreshIds in care && Careful(care, Initial(), steps)
    requires var s := Exec(Initial(), steps);
             && a < |s.journal.log| && b < |s.journal.log|
             && var x, y := s.journal.log[a], s.journal.log[b];
                && x.turn in s.turns && y.turn in s.turns && s.turns[x.turn].key == s.turns[y.turn].key
                && SameThing(x.body, y.body)
    ensures a == b
  {
    hide Sturdy, Exec, Careful, CommitsClosed, Turned;
    InitialSturdy();
    LinedRun(care, Initial(), steps);
    var s := Exec(Initial(), steps);
    var x, y := s.journal.log[a], s.journal.log[b];
    assert SameExperience(x, y, OwnersOf(s.turns)) && SameExperience(y, x, OwnersOf(s.turns));
  }

  // ---------------------------------------------------------------- rough edges

  /** A commit that closes a turn keeps claims matched to running turns exactly
      when its wait is well formed: a malformed wait is refused only after the
      turn was closed, leaving its input claimed by no running turn. */
  lemma CommitKeepsLivesIff(s: State, p: Persona, t: TurnId, g: nat, req: CommitRequest)
    requires Lifecycle.Inv(s) && Lifecycle.Matched(s) && Commits(s, p, t, g, req)
    ensures Lifecycle.Matched(Commit(s, p, t, g, req)) <==> !MalformedWait(req)
  {
    hide CommitJournal, Reconcile, Fits, CommitRefused, PendingFor;
    Lifecycle.CommitKeeps(s, p, t, g, req);
    if !MalformedWait(req) { return; }
    var s' := Commit(s, p, t, g, req);
    assert Lifecycle.HasClaim(s.inputs, t, s.turns[t]);
    var m :| 0 <= m < |s.inputs| && Lifecycle.ClaimedBy(s.inputs[m], t, s.turns[t]);
    assert s'.inputs[m].status == Claimed && s'.inputs[m].turn == Some(t) && s'.turns[t].status != Running;
  }

  /** Sending a commit again changes nothing; it is answered Ok exactly when the
      request carries an `error` key whose text, if any, has no NUL: the stored
      copy always carries the key and never a NUL. */
  lemma CommitReplay(s: State, p: Persona, t: TurnId, g: nat, req: CommitRequest)
    requires Commits(s, p, t, g, req) && !MalformedWait(req)
    ensures var s' := Commit(s, p, t, g, req);
            && Commit(s', p, t, g, req) == s'
            && (CommitReply(s', p, t, g, req) == Ok <==> req.error.Undefined? || req.error.Text?)
            && (CommitReply(s', p, t, g, req) == Refused(409) <==> req.error.Absent? || req.error.NulText?)
  {
    hide CommitJournal, Reconcile, Fits, CommitRefused, PendingFor, DisposedInput, CommitWaits;
    var s' := Commit(s, p, t, g, req);
    assert s'.turns[t].status != Running && s'.turns[t].key == s.turns[t].key;
    assert s'.commits[t] == Stored(req);
  }

  /** Something still holds the input up: an undecided approval or a budget. */
  predicate HeldUp(s: State, key: InputKey) { PendingFor(s.approvals, key) || key in s.waits }

  /** A decision requeues its waiting input in any case; nothing holds the input up
      any longer exactly when no other approval of it was pending and no wait was
      parked for it before. */
  lemma DecisionFreesIff(s: State, p: Persona, pos: Position, d: Decision, k: nat)
    requires Decides(s, p, pos, d, true) && FindInput(s.inputs, InputKey(p, pos.input)) == Some(k)
    requires s.inputs[k].status == Waiting
    ensures var s', key := Resolve(s, p, pos, d, true), InputKey(p, pos.input);
            && s'.inputs[k].status == Queued
            && (!HeldUp(s', key) <==>
                  (forall q :: q in s.approvals && q != pos ==> !HeldBy(s.approvals, q, key)) && key !in s.waits)
  {
    var s', key := Resolve(s, p, pos, d, true), InputKey(p, pos.input);
    forall q | q in s.approvals && q != pos && HeldBy(s.approvals, q, key) ensures PendingFor(s'.approvals, key) {
      assert HeldBy(s'.approvals, q, key);
    }
    if PendingFor(s'.approvals, key) {
      var q :| q in s'.approvals && HeldBy(s'.approvals, q, key);
      assert q != pos && HeldBy(s.approvals, q, key);
    }
  }

  // ------------------------------------------------------- what a call achieves

  /** Recovery ends exactly the holds of older generations that still stand. */
  lemma RecoverySettlesHolds(s: State, p: Persona, g: nat, a: nat)
    requires Holds(s, p, g) && a < |s.ledger.reservations|
    ensures var rs, r := Recover(s, p, g).ledger.reservations, s.ledger.reservations[a];
            && |rs| == |s.ledger.reservations|
            && rs[a] == if r.key.persona == p && r.generation < g && r.status == Held then r.(status := Settled) else r
  {
    hide MarkAll, Reconcile;
    ReconcileHolds(s.ledger, BeforeGeneration(p, g), 0, a);
  }

  /** A commit ends exactly the holds of its own turn that still stand; refused for its
      wait, none. */
  lemma CommitSettlesHolds(s: State, p: Persona, t: TurnId, g: nat, req: CommitRequest, a: nat)
    requires Commits(s, p, t, g, req) && a < |s.ledger.reservations|
    ensures var rs, r := Commit(s, p, t, g, req).ledger.reservations, s.ledger.reservations[a];
            && |rs| == |s.ledger.reservations|
            && rs[a] == if !MalformedWait(req) && r.key.persona == p && r.identity.turn == Some(t) && r.status == Held
                        then r.(status := Settled) else r
  {
    hide Reconcile, CommitJournal, DisposedInput, CommitWaits, ClosedTurn;
    ReconcileHolds(s.ledger, OfTurn(p, t), 0, a);
  }

  ghost predicate Undecided(approvals: map<Position, Approval>, key: InputKey) {
    exists pos :: pos in approvals && pos.persona == key.persona && pos.input == key.input && approvals[pos].status == Pending
  }

  /** What an await waits for still blocks its input. */
  ghost predicate Blocked(s: State, key: InputKey, wait: Option<WaitRequest>)
    requires wait.Some? ==> ValidWait(wait.value)
  {
    if wait.Some? then Overdrawn(s.ledger, wait.value.funding, wait.value.estimate.value) else Undecided(s.approvals, key)
  }

  lemma ParksIffBlocked(s: State, key: InputKey, wait: Option<WaitRequest>)
    requires wait.Some? ==> ValidWait(wait.value)
    ensures Parks(s, key, wait) <==> Blocked(s, key, wait)
  {
    if PendingFor(s.approvals, key) {
      var pos :| pos in s.approvals && HeldBy(s.approvals, pos, key);
    }
    if Undecided(s.approvals, key) {
      var pos :| pos in s.approvals && pos.persona == key.persona && pos.input == key.input && s.approvals[pos].status == Pending;
      assert HeldBy(s.approvals, pos, key);
    }
  }

  /** 200 ms, doubled for every attempt after the first. */
  function Doubled(attempt: nat): nat { if attempt <= 1 then 200 else 2 * Doubled(attempt - 1) }

  lemma BackoffDoubles(attempt: nat)
    ensures BackoffMs(attempt) == Min(Doubled(attempt), 30_000)
  {
    if attempt <= 9 {
      assert Doubled(1) == 200 && Doubled(2) == 400 && Doubled(3) == 800 && Doubled(4) == 1_600 && Doubled(5) == 3_200;
      assert Doubled(6) == 6_400 && Doubled(7) == 12_800 && Doubled(8) == 25_600 && Doubled(9) == 51_200;
    } else {
      DoubledGrows(attempt);
    }
  }

  lemma {:induction false} DoubledGrows(attempt: nat)
    requires attempt >= 9
    ensures Doubled(attempt) >= 30_000
  {
    if attempt > 9 {
      DoubledGrows(attempt - 1);
    } else {
      assert Doubled(5) == 3_200 && Doubled(8) == 25_600;
    }
  }

  /** A commit disposes of its own input only.  Complete ends it.  Fail ends it, or
      requeues it for when the doubling backoff of at most 30 seconds is over, or
      later if up to two minutes were asked for.  Await parks it exactly while what
      it waits for still blocks it, a budget wait with its row.  The turn's holds
      are settled. */
  lemma CommitSettles(s: State, p: Persona, t: TurnId, g: nat, req: CommitRequest)
    requires Lifecycle.Inv(s) && Commits(s, p, t, g, req) && !MalformedWait(req)
    ensures var s' := Commit(s, p, t, g, req);
            && |s'.inputs| == |s.inputs|
            && (forall k :: 0 <= k < |s.inputs| && s.inputs[k].key != s.turns[t].key ==> s'.inputs[k] == s.inputs[k])
            && (forall k :: 0 <= k < |s.inputs| && s.inputs[k].key == s.turns[t].key ==>
                  Disposed(s, s.inputs[k], s'.inputs[k], s.turns[t].attempt, req))
            && WaitKept(s, s', t, req)
            && (forall a :: 0 <= a < |s'.ledger.reservations| ==> !Selects(OfTurn(p, t), s'.ledger.reservations[a]))
  {
    hide CommitJournal, CommitWaits, Reconcile, CommitRefused, PendingFor, Fits, Overdrawn, Undecided;
    ReconcileClears(s.ledger, OfTurn(p, t), 0);
    var k := FindInput(s.inputs, s.turns[t].key).value;
    RunningIsClaimed(s, t, k);
    DisposedIs(s, s.inputs[k], s.turns[t].attempt, req);
    WaitIsKept(s, t, req);
  }

  ghost predicate Disposed(s: State, i: Input, i': Input, attempt: nat, req: CommitRequest)
    requires !MalformedWait(req)
  {
    && i'.key == i.key
    && match req.outcome
       case ToComplete => i' == i.(status := Done)
       case ToFail =>
         if req.retryable
         then && i'.status == Queued && i'.turn.None? && i'.claimedGeneration.None?
              && i'.notBefore == Some(s.clock + Max(Min(Doubled(attempt), 30_000), Min(Max(req.retryAfter, 0), 120_000)))
         else i' == i.(status := Done)
       case ToAwait =>
         if Blocked(s, i.key, req.wait)
         then i'.status == Waiting && i'.waitingSince == Some(s.clock)
         else i'.status == Queued && i'.turn.None? && i'.claimedGeneration.None? && i'.notBefore.None?
  }

  /** A budget wait that blocks leaves its row, priced now; no other row changes. */
  ghost predicate WaitKept(s: State, s': State, t: TurnId, req: CommitRequest)
    requires t in s.turns && !MalformedWait(req)
  {
    var key := s.turns[t].key;
    if req.outcome == ToAwait && req.wait.Some? && Blocked(s, key, req.wait)
    then
      var fund, e := req.wait.value.funding, req.wait.value.estimate.value;
      && fund in s.ledger.budgets
      && var card := s.ledger.budgets[fund].card;
         s'.waits == s.waits[key := WaitRow(t, fund, e, PriceEstimate(e, card), card.currency)]
    else s'.waits == s.waits
  }

  lemma WaitIsKept(s: State, t: TurnId, req: CommitRequest)
    requires t in s.turns && !MalformedWait(req)
    ensures WaitKept(s, s.(waits := CommitWaits(s, t, s.turns[t].key, req)), t, req)
  {
    hide PendingFor, Undecided;
    if req.outcome == ToAwait { ParksIffBlocked(s, s.turns[t].key, req.wait); }
  }

  lemma DisposedIs(s: State, i: Input, attempt: nat, req: CommitRequest)
    requires !MalformedWait(req)
    ensures Disposed(s, i, DisposedInput(s, i, attempt, req), attempt, req)
  {
    hide Fits, PendingFor, Overdrawn, Undecided, BackoffMs;
    BackoffDoubles(attempt);
    if req.outcome == ToAwait { ParksIffBlocked(s, i.key, req.wait); }
  }

  /** A released lease is free for any holder at once, under a new generation. */
  lemma ReleaseFrees(s: State, p: Persona, holder: int, g: nat, next: int, ttl: int)
    requires Lifecycle.Fencing(s) && Holds(s, p, g) && s.leases[p].holder == holder
    requires p in s.personas && s.personas[p].authority == Active
    ensures var s1 := Release(s, p, holder, g);
            var s2 := Acquire(s1, p, next, ttl);
            Holds(s1, p, g) && Grants(s1, p, next) && !Holds(s2, p, g) && s2.leases[p].holder == next
  {
    var s1 := Release(s, p, holder, g);
    Lifecycle.AcquireIsNew(s1, p, next, ttl);
  }

  /** Re-resolving a human's funding leaves none of their personas' inputs parked
      on a budget. */
  lemma HumanFreesWaits(s: State, h: Human, k: nat)
    requires Lifecycle.Inv(s) && k < |s.inputs|
    requires s.inputs[k].key.persona in s.personas && s.personas[s.inputs[k].key.persona].human == Some(h)
    ensures var s' := ResumeForHuman(s, h);
            && s'.inputs[k].key !in s'.waits
            && (s'.inputs[k].status == Waiting ==> PendingFor(s'.approvals, s'.inputs[k].key))
  {
    Lifecycle.HumanKeeps(s, h);
    hide Fits;
    var s' := ResumeForHuman(s, h);
    assert s'.inputs[k].key == s.inputs[k].key;
  }

  // ------------------------------------------------------------ what a claim does

  /** The claim is for the call its live turn's plan records. */
  ghost predicate InPlan(s: State, p: Persona, g: nat, c: ClaimRequest, call: Call) {
    && LiveTurn(s, p, g, c.turn) && Registered(s, c.tool) && !c.nul
    && 0 <= c.index < |Flat(PlanOf(s, s.turns[c.turn].key))|
    && call == Flat(PlanOf(s, s.turns[c.turn].key))[c.index] && call.tool == c.tool && call.request == c.request
  }

  function KeyOf(s: State, c: ClaimRequest): OpKey
    requires c.turn in s.turns
  {
    OpKey(Position(s.turns[c.turn].key.persona, s.turns[c.turn].key.input, c.index), c.tool)
  }

  /** The claim's journaling leaves rows and effects as the claim made them. */
  lemma ClaimRows(s: State, p: Persona, g: nat, c: ClaimRequest, w: World)
    requires ClaimBody(s, p, g, c, w).Got?
    ensures var r, s' := ClaimBody(s, p, g, c, w), Claim(s, p, g, c, w).0;
            s'.ops == r.state.ops && s'.approvals == r.state.approvals && s'.trail == r.state.trail
  {
    hide ClaimBody, ClaimEvents, PlaceOf, Experienced;
    var r := ClaimBody(s, p, g, c, w);
    if c.turn !in r.state.turns { return; }
  }

  /** A first claim of a normal call nobody denied runs it, once, and finishes its
      operation with the answer. */
  lemma NormalCallRuns(s: State, p: Persona, g: nat, c: ClaimRequest, w: World, call: Call)
    requires InPlan(s, p, g, c, call) && KeyOf(s, c) !in s.ops && call.route == Normal
    requires call.tool != MessageSend && !WasDenied(s.approvals, KeyOf(s, c).pos, call) && w.effect.Works?
    ensures var s', key := Claim(s, p, g, c, w).0, KeyOf(s, c);
            && s'.trail == s.trail + [Applied(key.pos, call)] && s'.approvals == s.approvals
            && key in s'.ops && s'.ops[key].status == OpDone
            && s'.ops[key].receipt == Some(Receipt.Response(w.effect.response))
  {
    hide NoteJournal, DecidedEvents, PlaceOf, Claim;
    ClaimRows(s, p, g, c, w);
  }

  /** A first claim of a well-formed elevated call runs nothing: it parks behind a
      pending approval of its own. */
  lemma ElevatedCallParks(s: State, p: Persona, g: nat, c: ClaimRequest, w: World, call: Call)
    requires InPlan(s, p, g, c, call) && KeyOf(s, c) !in s.ops && call.route == Elevated && w.malformed.None?
    requires KeyOf(s, c).pos !in s.approvals
    ensures var s', key := Claim(s, p, g, c, w).0, KeyOf(s, c);
            && s'.trail == s.trail
            && key in s'.ops && s'.ops[key].status == AwaitingApproval
            && s'.approvals == s.approvals[key.pos := Approval(c.operation, c.turn, call, Pending, None, false)]
  {
    hide Claim;
    ClaimRows(s, p, g, c, w);
  }

  /** Claiming an approved, unspent call runs it with its grant; while the
      approval is pending, or once it is denied or spent, nothing runs. */
  lemma GrantedCallRuns(s: State, p: Persona, g: nat, c: ClaimRequest, w: World, call: Call)
    requires Effects.Inv(s) && InPlan(s, p, g, c, call) && w.effect.Works?
    requires KeyOf(s, c) in s.ops && s.ops[KeyOf(s, c)].status == AwaitingApproval && KeyOf(s, c).pos in s.approvals
    ensures var s', key, a := Claim(s, p, g, c, w).0, KeyOf(s, c), s.approvals[KeyOf(s, c).pos];
            if a.status == Approved && !a.consumed
            then && s'.trail == s.trail + [Applied(key.pos, call)]
                 && s'.approvals == s.approvals[key.pos := a.(consumed := true)]
                 && key in s'.ops && s'.ops[key].status == OpDone
                 && s'.ops[key].receipt == Some(Receipt.Response(w.effect.response))
            else s'.trail == s.trail && s'.approvals == s.approvals && s'.ops == s.ops
  {
    hide NoteJournal, DecidedEvents, PlaceOf, Claim;
    var key := KeyOf(s, c);
    OpRequest(s, key, call);
    ClaimRows(s, p, g, c, w);
  }
}
