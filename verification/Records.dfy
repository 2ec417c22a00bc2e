/** Journal integrity across attempts, recoveries and rolled-back claims. */
module Records {
  import opened Common
  import opened Plan
  import opened Journal
  import opened Ledger
  import opened Store

  type Turns = map<TurnId, Turn>

  predicate ServesInput(turns: Turns, t: TurnId, pos: Position) {
    t in turns && turns[t].key == InputKey(pos.persona, pos.input)
  }

  /** Operations and approvals name turns of their own input. */
  ghost predicate RowsAttributed(turns: Turns, ops: map<OpKey, Operation>, approvals: map<Position, Approval>) {
    && (forall k :: k in ops ==> ServesInput(turns, ops[k].turn, k.pos))
    && (forall pos :: pos in approvals ==> ServesInput(turns, approvals[pos].turn, pos))
  }

  ghost predicate Inv(s: State) {
    Sound(s.journal, OwnersOf(s.turns)) && RowsAttributed(s.turns, s.ops, s.approvals)
  }

  lemma SameOwners(turns: Turns, turns': Turns)
    requires turns'.Keys == turns.Keys && forall t :: t in turns ==> turns'[t].key == turns[t].key
    ensures OwnersOf(turns') == OwnersOf(turns)
  {
    var o, o' := OwnersOf(turns), OwnersOf(turns');
    assert forall t :: t in turns' <==> t in turns'.Keys;
    assert forall t :: t in o' <==> t in o;
    assert forall t :: t in o ==> o'[t] == o[t];
  }

  lemma NoReceipts(place: Option<Place>, pos: Position, outcome: ToolOutcome)
    ensures forall e :: e in DecidedEvents(place) ==> !e.InputReceived?
    ensures forall e :: e in AwaitingEvents(place, pos) ==> !e.InputReceived?
    ensures forall e :: e in ResultEvents(place, outcome) ==> !e.InputReceived?
  {
  }

  lemma WithExperienceKeeps(s: State, t: TurnId, events: seq<EventInput>)
    requires Inv(s) && t in s.turns && forall e :: e in events ==> !e.InputReceived?
    ensures Inv(WithExperience(s, t, events))
  {
    ExperiencedSound(s.journal, OwnersOf(s.turns), t, s.turns[t].key, events);
  }

  lemma NoteKeeps(j: Journal, turns: Turns, p: Persona, t: TurnId, text: Payload)
    requires Sound(j, OwnersOf(turns)) && t in turns && turns[t].key.persona == p
    ensures Sound(NoteJournal(j, turns, p, t, text), OwnersOf(turns))
  {
    ReceiptSound(j, OwnersOf(turns), t, p, turns[t].key.input);
    PushSound(EnsureReceived(j, p, t, turns[t].key.input), OwnersOf(turns), p, t, Note(text));
  }

  lemma ApplyToolKeeps(s: State, key: OpKey, call: Call, op: Operation, response: Payload)
    requires Inv(s) && ServesInput(s.turns, op.turn, key.pos)
    ensures Inv(ApplyTool(s, key, call, op, response))
  {
    if call.tool == JournalNote {
      NoteKeeps(s.journal, s.turns, key.pos.persona, op.turn, call.request);
    }
  }

  lemma FailKeeps(s: State, key: OpKey, op: Operation, receipt: Receipt)
    requires Inv(s) && ServesInput(s.turns, op.turn, key.pos)
    ensures Inv(Fail(s, key, op, receipt))
  {
  }

  lemma SpendKeeps(s: State, c: ClaimRequest, key: OpKey)
    requires Inv(s) && c.turn in s.turns && key.pos in s.approvals
    ensures Inv(Spend(s, c, key))
    ensures Spend(s, c, key).turns == s.turns
  {
    var place := PlaceOf(PlanOf(s, s.turns[c.turn].key), c.index);
    NoReceipts(place, key.pos, Failure(0, false));
    WithExperienceKeeps(s.(approvals := s.approvals[key.pos := s.approvals[key.pos].(consumed := true)]),
                        c.turn, DecidedEvents(place));
  }

  lemma GatedKeeps(s: State, c: ClaimRequest, w: World, key: OpKey, call: Call, op: Operation)
    requires Inv(s) && c.turn in s.turns && ServesInput(s.turns, op.turn, key.pos)
    ensures var r := ClaimGated(s, c, w, key, call, op); r.Got? ==> Inv(r.state)
  {
    hide Spend, ApplyTool, Fail, Inv;
    if key.pos !in s.approvals { return; }
    var a := s.approvals[key.pos];
    if a.status != Approved || a.consumed || w.effect.Breaks? { return; }
    SpendKeeps(s, c, key);
    if w.effect.Works? {
      ApplyToolKeeps(Spend(s, c, key), key, call, op, w.effect.response);
      return;
    }
    FailKeeps(Spend(s, c, key), key, op, Error(w.effect.message));
  }

  lemma ElevatedKeeps(s: State, g: nat, c: ClaimRequest, w: World, key: OpKey, call: Call)
    requires Inv(s) && ServesInput(s.turns, c.turn, key.pos)
    ensures Inv(ClaimElevated(s, g, c, w, key, call).state)
  {
    var op := Operation(c.operation, c.turn, c.request, AwaitingApproval, None, g);
    if w.malformed.Some? {
      FailKeeps(s, key, op, Error(w.malformed.value));
      return;
    }
    if key.pos in s.approvals { return; }
  }

  lemma NormalKeeps(s: State, g: nat, c: ClaimRequest, w: World, key: OpKey, call: Call)
    requires Inv(s) && ServesInput(s.turns, c.turn, key.pos)
    ensures var r := ClaimNormal(s, g, c, w, key, call); r.Got? ==> Inv(r.state)
  {
    hide ApplyTool, Fail, Inv, WithExperience;
    var op := Operation(c.operation, c.turn, c.request, OpRunning, None, g);
    if WasDenied(s.approvals, key.pos, call) {
      FailKeeps(s, key, op, DeniedBy(SomeDenial(s.approvals, key.pos, call, w.cited)));
      return;
    }
    if call.tool == MessageSend {
      FailKeeps(s, key, op, ElevatedRouteRequired);
      return;
    }
    if !w.effect.Works? { return; }
    var place := PlaceOf(PlanOf(s, s.turns[c.turn].key), c.index);
    NoReceipts(place, key.pos, Failure(0, false));
    WithExperienceKeeps(s, c.turn, DecidedEvents(place));
    SameTurns(s, c.turn, DecidedEvents(place));
    ApplyToolKeeps(WithExperience(s, c.turn, DecidedEvents(place)), key, call, op, w.effect.response);
  }

  lemma SameTurns(s: State, t: TurnId, events: seq<EventInput>)
    requires t in s.turns
    ensures WithExperience(s, t, events).turns == s.turns
  {
  }

  lemma ExistingKeeps(s: State, g: nat, c: ClaimRequest, w: World, key: OpKey, call: Call)
    requires Inv(s) && key in s.ops && ServesInput(s.turns, c.turn, key.pos)
    ensures var r := ClaimExisting(s, g, c, w, key, call); r.Got? ==> Inv(r.state)
  {
    hide ClaimGated;
    var op := s.ops[key];
    if op.request != c.request { return; }
    if op.status == OpRunning && op.generation != g { return; }
    if op.status != AwaitingApproval { return; }
    GatedKeeps(s, c, w, key, call, op);
  }

  lemma ClaimBodyKeeps(s: State, p: Persona, g: nat, c: ClaimRequest, w: World)
    requires Inv(s)
    ensures var r := ClaimBody(s, p, g, c, w); r.Got? ==> Inv(r.state)
  {
    hide Inv, ClaimExisting, ClaimElevated, ClaimNormal;
    var r := ClaimBody(s, p, g, c, w);
    if !r.Got? { return; }
    var call := Flat(PlanOf(s, s.turns[c.turn].key))[c.index];
    var key := OpKey(Position(p, s.turns[c.turn].key.input, c.index), c.tool);
    if key in s.ops {
      ExistingKeeps(s, g, c, w, key, call);
      return;
    }
    if call.route == Elevated {
      ElevatedKeeps(s, g, c, w, key, call);
      return;
    }
    NormalKeeps(s, g, c, w, key, call);
  }

  lemma ClaimEventsNoReceipts(place: Option<Place>, key: OpKey, op: Operation, approval: Option<Approval>)
    ensures forall e :: e in ClaimEvents(place, key, op, approval) ==> !e.InputReceived?
  {
    var outcome := OutcomeOf(op, approval);
    NoReceipts(place, key.pos, outcome.GetOr(Failure(0, false)));
  }

  lemma JournalClaimKeeps(s: State, t: TurnId, events: seq<EventInput>)
    requires Inv(s) && t in s.turns && forall e :: e in events ==> !e.InputReceived?
    ensures Inv(JournalClaim(s, t, events))
  {
    if events == [] { return; }
    WithExperienceKeeps(s, t, events);
  }

  lemma RejectedKeeps(s: State, p: Persona, g: nat, c: ClaimRequest, cause: Payload)
    requires Inv(s)
    ensures Inv(JournalRejected(s, p, g, c, cause))
  {
    hide Inv, WithExperience, ResultEvents;
    if !LiveTurn(s, p, g, c.turn) { return; }
    var place := PlaceOf(PlanOf(s, s.turns[c.turn].key), c.index);
    if place.None? || place.value.call.tool != c.tool || place.value.call.request != c.request { return; }
    NoReceipts(place, Position(0, 0, 0), Failure(cause, false));
    WithExperienceKeeps(s, c.turn, ResultEvents(place, Failure(cause, false)));
  }

  lemma ClaimKeeps(s: State, p: Persona, g: nat, c: ClaimRequest, w: World)
    requires Inv(s)
    ensures Inv(Claim(s, p, g, c, w).0)
  {
    hide Inv, ClaimBody, JournalRejected, JournalClaim, ClaimEvents, PlaceOf;
    var r := ClaimBody(s, p, g, c, w);
    ClaimBodyKeeps(s, p, g, c, w);
    if r.Threw? {
      RejectedKeeps(s, p, g, c, w.cause);
      return;
    }
    if c.turn !in r.state.turns { return; }
    var place := PlaceOf(PlanOf(r.state, r.state.turns[c.turn].key), c.index);
    ClaimEventsNoReceipts(place, r.key, r.op, r.approval);
    JournalClaimKeeps(r.state, c.turn, ClaimEvents(place, r.key, r.op, r.approval));
  }

  lemma CompleteKeeps(s: State, p: Persona, key: OpKey, id: int, g: nat, answer: Payload, failed: bool)
    requires Inv(s)
    ensures Inv(CompleteOperation(s, p, key, id, g, answer, failed))
  {
    if !Completes(s, p, key, id, g) { return; }
    var op := CompleteOperation(s, p, key, id, g, answer, failed).ops[key];
    CompletedJournalKeeps(s, key, op);
  }

  lemma CompletedJournalKeeps(s: State, key: OpKey, op: Operation)
    requires Inv(s)
    ensures Sound(CompletedJournal(s, key, op), OwnersOf(s.turns))
  {
    hide ClaimEvents, PlaceOf;
    if op.turn !in s.turns { return; }
    var place := PlaceOf(PlanOf(s, s.turns[op.turn].key), key.pos.index);
    if place.None? || place.value.call.tool != key.tool { return; }
    ClaimEventsNoReceipts(place, key, op, None);
    JournalClaimKeeps(s, op.turn, ClaimEvents(place, key, op, None));
    JournalClaimTurns(s, op.turn, ClaimEvents(place, key, op, None));
  }

  lemma JournalClaimTurns(s: State, t: TurnId, events: seq<EventInput>)
    requires t in s.turns
    ensures JournalClaim(s, t, events).turns == s.turns
  {
    if events == [] { return; }
  }

  lemma LoadKeeps(s: State, p: Persona, g: nat, t: TurnId)
    requires Inv(s) && t !in s.turns
    ensures Inv(Load(s, p, g, t))
  {
    hide Attempts;
    if LoadIndex(s, p, g).None? { return; }
    OwnersGrow(s.journal, OwnersOf(s.turns), OwnersOf(Load(s, p, g, t).turns));
  }

  lemma MarkOne(j: Journal, owners: Owners, p: Persona, t: TurnId, i: InputId)
    requires Sound(j, owners) && t in owners && owners[t].persona == p
    ensures Sound(MarkInterrupted(j, p, t, i), owners)
  {
    PushSound(j, owners, p, t, TurnPaused(ByCrash));
  }

  lemma {:induction false} MarkAllKeeps(j: Journal, p: Persona, turns: Turns, ts: set<TurnId>)
    requires Sound(j, OwnersOf(turns))
    requires forall t :: t in ts ==> t in turns && turns[t].key.persona == p
    ensures Sound(MarkAll(j, p, turns, ts), OwnersOf(turns))
    decreases |ts|
  {
    if exists t :: t in ts {
      var t := Pick(ts);
      MarkOne(j, OwnersOf(turns), p, t, turns[t].key.input);
      MarkAllKeeps(MarkInterrupted(j, p, t, turns[t].key.input), p, turns, ts - {t});
    }
  }

  lemma RecoverKeeps(s: State, p: Persona, g: nat)
    requires Inv(s)
    ensures Inv(Recover(s, p, g))
  {
    hide MarkAll, Reconcile, Sound;
    if !Holds(s, p, g) { return; }
    MarkAllKeeps(s.journal, p, s.turns, RunningTurns(s.turns, p));
    SameOwners(s.turns, Recover(s, p, g).turns);
  }

  lemma ResolveKeeps(s: State, p: Persona, pos: Position, d: Decision, valid: bool)
    requires Inv(s)
    ensures Inv(Resolve(s, p, pos, d, valid))
  {
    hide DecidedInputs;
    if !Decides(s, p, pos, d, valid) { return; }
    PushSound(s.journal, OwnersOf(s.turns), p, s.approvals[pos].turn, ApprovalDecided(pos, d.approve, d.decider));
  }

  lemma CommitJournalKeeps(s: State, p: Persona, t: TurnId, req: CommitRequest)
    requires Inv(s) && t in s.turns && s.turns[t].key.persona == p && !CommitRefused(s, p, req)
    ensures Sound(CommitJournal(s, p, t, req), OwnersOf(s.turns))
  {
    assert forall e :: e in req.events && e.InputReceived? ==> !BadReceipt(s, p, e);
    AppendCommittedSound(s.journal, OwnersOf(s.turns), p, t, req.events,
                         Lineage(s.journal.log, OwnersOf(s.turns), s.turns[t].key));
  }

  lemma CommitKeeps(s: State, p: Persona, t: TurnId, g: nat, req: CommitRequest)
    requires Inv(s)
    ensures Inv(Commit(s, p, t, g, req))
  {
    hide CommitJournal, Reconcile, CommitRefused, Sound;
    if !Commits(s, p, t, g, req) { return; }
    CommitJournalKeeps(s, p, t, req);
    SameOwners(s.turns, Commit(s, p, t, g, req).turns);
  }

  /** Steps that journal nothing, close no turn and touch no operation. */
  ghost predicate SameRecords(s: State, s': State) {
    s'.journal == s.journal && s'.turns == s.turns && s'.ops == s.ops && s'.approvals == s.approvals
  }

  lemma BudgetSame(s: State, fund: Funding, b: Option<Budget>, h: Human)
    ensures SameRecords(s, SetBudget(s, fund, b)) && SameRecords(s, ResumeForHuman(s, h))
  {
  }

  lemma AcquireSame(s: State, p: Persona, holder: int, ttl: int)
    ensures SameRecords(s, Acquire(s, p, holder, ttl))
  {
    if !Grants(s, p, holder) { return; }
  }

  lemma RenewSame(s: State, p: Persona, holder: int, g: nat, ttl: int)
    ensures SameRecords(s, Renew(s, p, holder, g, ttl)) && SameRecords(s, Release(s, p, holder, g))
  {
    if !Holds(s, p, g) || s.leases[p].holder != holder { return; }
  }

  lemma AdmitSame(s: State, p: Persona, g: nat, req: AdmitRequest)
    ensures SameRecords(s, AdmitUsage(s, p, g, req))
  {
    if !Holds(s, p, g) { return; }
  }

  lemma InputSame(s: State, key: InputKey)
    ensures SameRecords(s, Enqueue(s, key))
  {
    if FindInput(s.inputs, key).Some? { return; }
  }

  lemma PlanSame(s: State, p: Persona, g: nat, t: TurnId, round: int, decision: Round, nul: bool)
    ensures SameRecords(s, SavePlan(s, p, g, t, round, decision, nul))
  {
    if !LiveTurn(s, p, g, t) || nul || round != |PlanOf(s, s.turns[t].key)| { return; }
  }

  lemma SameKeeps(s: State, s': State)
    requires Inv(s) && SameRecords(s, s')
    ensures Inv(s')
  {
  }

  lemma QuietKeeps(s: State, step: Step)
    requires Inv(s) && (step.Tick? || step.AddPersona? || step.BindHuman? || step.SetAuthority? || step.Register?)
    ensures Inv(Apply(s, step))
  {
    hide Inv, Personas;
    SameKeeps(s, Apply(s, step));
  }

  lemma StepKeeps(s: State, step: Step)
    requires Inv(s) && FreshTurn(s, step)
    ensures Inv(Apply(s, step))
  {
    hide Inv, Claim, Resolve, Commit, CompleteOperation, Load, Recover, RecordUsage, SetBudget, ResumeForHuman,
         Acquire, Renew, Release, AdmitUsage, Enqueue, SavePlan, Personas, SameRecords;
    var s' := Apply(s, step);
    match step {
      case ClaimStep(p, g, c, w) => ClaimKeeps(s, p, g, c, w);
      case ResolveStep(p, pos, d, valid) => ResolveKeeps(s, p, pos, d, valid);
      case CommitStep(p, t, g, req) => CommitKeeps(s, p, t, g, req);
      case CompleteStep(p, key, id, g, answer, failed) => CompleteKeeps(s, p, key, id, g, answer, failed);
      case LoadStep(p, g, t) => LoadKeeps(s, p, g, t);
      case RecoverStep(p, g) => RecoverKeeps(s, p, g);
      case RecordStep(p, req) => RecordKeeps(s, p, req);
      case BudgetStep(fund, b) => BudgetSame(s, fund, b, 0); SameKeeps(s, s');
      case HumanStep(h) => BudgetSame(s, Funding(0, 0), None, h); SameKeeps(s, s');
      case AcquireStep(p, holder, ttl) => AcquireSame(s, p, holder, ttl); SameKeeps(s, s');
      case RenewStep(p, holder, g, ttl) => RenewSame(s, p, holder, g, ttl); SameKeeps(s, s');
      case ReleaseStep(p, holder, g) => RenewSame(s, p, holder, g, 0); SameKeeps(s, s');
      case AdmitStep(p, g, req) => AdmitSame(s, p, g, req); SameKeeps(s, s');
      case AddInput(key) => InputSame(s, key); SameKeeps(s, s');
      case SavePlanStep(p, g, t, round, decision, nul) =>
        PlanSame(s, p, g, t, round, decision, nul);
        SameKeeps(s, s');
      case Tick(_) => QuietKeeps(s, step);
      case AddPersona(_, _) => QuietKeeps(s, step);
      case BindHuman(_, _) => QuietKeeps(s, step);
      case SetAuthority(_, _) => QuietKeeps(s, step);
      case Register(_) => QuietKeeps(s, step);
    }
  }

  lemma RecordKeeps(s: State, p: Persona, req: RecordRequest)
    requires Inv(s)
    ensures Inv(RecordUsage(s, p, req))
  {
    if Record(s.ledger, p, req).resume { return; }
  }
}
