/** How inputs, turns, leases and decisions move: which step may change what, and
    what it then is. */
module Dispositions {
  import opened Common
  import opened Plan
  import opened Journal
  import opened Ledger
  import opened Store
  import opened Runs
  import opened Guarantees
  import Effects
  import Lifecycle

  // ------------------------------------------------------- how an input moves

  /** The commit of the input's own running turn. */
  predicate CommitOf(s: State, step: Step, i: Input) {
    && step.CommitStep? && Commits(s, step.p, step.turn, step.generation, step.req)
    && s.turns[step.turn].key == i.key
  }

  /** Every way an input's row can change, and the step that does it: loading claims
      it; recovering its persona or a commit of its turn requeues it; an await
      commit parks it; a completing or finally failing commit ends it; a decision or
      freed money wakes it. */
  predicate Moves(s: State, step: Step, i: Input, i': Input) {
    && i'.key == i.key
    && match i.status
       case Queued =>
         i' == i || (&& i'.status == Claimed && step.LoadStep? && step.p == i.key.persona
                     && i'.turn == Some(step.turn) && i'.claimedGeneration == Some(step.generation)
                     && Holds(s, step.p, step.generation) && (i.notBefore.Some? ==> i.notBefore.value <= s.clock))
       case Claimed =>
         || i' == i
         || (&& i'.status == Queued && i'.turn.None? && i'.claimedGeneration.None?
             && (|| (step.RecoverStep? && step.p == i.key.persona && Holds(s, step.p, step.generation))
                 || (CommitOf(s, step, i) && (step.req.outcome == ToAwait || (step.req.outcome == ToFail && step.req.retryable)))))
         || (i'.status == Waiting && i'.waitingSince == Some(s.clock) && CommitOf(s, step, i) && step.req.outcome == ToAwait)
         || (&& i' == i.(status := Done) && CommitOf(s, step, i)
             && (step.req.outcome == ToComplete || (step.req.outcome == ToFail && !step.req.retryable)))
       case Waiting =>
         i' == i || (&& i'.status == Queued && i'.turn.None? && i'.waitingSince.None?
                     && (|| (step.ResolveStep? && step.p == i.key.persona && step.pos.input == i.key.input)
                         || step.BudgetStep? || step.RecordStep? || step.HumanStep?))
       case Done => i' == i
  }

  ghost predicate AllMove(s: State, step: Step, s': State) {
    && |s.inputs| <= |s'.inputs|
    && (forall k :: 0 <= k < |s.inputs| ==> Moves(s, step, s.inputs[k], s'.inputs[k]))
    && (forall k :: |s.inputs| <= k < |s'.inputs| ==> step.AddInput? && s'.inputs[k].key == step.key && s'.inputs[k].status == Queued)
  }

  lemma StillMoves(s: State, step: Step, s': State)
    requires s'.inputs == s.inputs
    ensures AllMove(s, step, s')
  {
  }

  lemma LoadMoves(s: State, p: Persona, g: nat, t: TurnId)
    ensures AllMove(s, LoadStep(p, g, t), Load(s, p, g, t))
  {
    hide Attempts, HasRunning;
  }

  lemma RecoverMoves(s: State, p: Persona, g: nat)
    ensures AllMove(s, RecoverStep(p, g), Recover(s, p, g))
  {
    hide MarkAll, Reconcile;
  }

  lemma CommitMoves(s: State, p: Persona, t: TurnId, g: nat, req: CommitRequest)
    requires Lifecycle.Inv(s)
    ensures AllMove(s, CommitStep(p, t, g, req), Commit(s, p, t, g, req))
  {
    var step, s' := CommitStep(p, t, g, req), Commit(s, p, t, g, req);
    if !Commits(s, p, t, g, req) || MalformedWait(req) {
      StillMoves(s, step, s');
      return;
    }
    CommitSettles(s, p, t, g, req);
    var n := FindInput(s.inputs, s.turns[t].key).value;
    RunningIsClaimed(s, t, n);
    hide Commit, Commits, Blocked, CommitRefused, Doubled, WaitKept;
    forall k | 0 <= k < |s.inputs| ensures Moves(s, step, s.inputs[k], s'.inputs[k]) {
      if s.inputs[k].key == s.turns[t].key {
        RunningIsClaimed(s, t, k);
        assert Disposed(s, s.inputs[k], s'.inputs[k], s.turns[t].attempt, req);
      }
    }
  }

  lemma ResolveMoves(s: State, p: Persona, pos: Position, d: Decision, valid: bool)
    requires Lifecycle.Inv(s)
    ensures AllMove(s, ResolveStep(p, pos, d, valid), Resolve(s, p, pos, d, valid))
  {
  }

  lemma WakeMoves(s: State, step: Step, s': State)
    requires step.BudgetStep? || step.RecordStep? || step.HumanStep?
    requires Lifecycle.Inv(s) && Lifecycle.OnlyWakes(s.inputs, s'.inputs, s.clock)
    ensures AllMove(s, step, s')
  {
    forall k | 0 <= k < |s.inputs| ensures Moves(s, step, s.inputs[k], s'.inputs[k]) {
      assert Lifecycle.Wakes(s.inputs[k], s'.inputs[k], s.clock);
      assert Lifecycle.Timed(s.inputs[k], s.clock);
    }
  }

  lemma ResumeOnlyWakes(s: State, fund: Funding)
    ensures Lifecycle.OnlyWakes(s.inputs, ResumeWaits(s, fund).inputs, s.clock)
  {
    hide Fits, PendingFor;
  }

  /** Every step moves every input as said, and only adding an input makes one. */
  lemma InputsMove(s: State, step: Step)
    requires Lifecycle.Inv(s)
    ensures AllMove(s, step, Apply(s, step))
  {
    hide AllMove, Lifecycle.Inv, Commit, Recover, Load, Resolve, SetBudget, RecordUsage, ResumeForHuman, Claim, CompleteOperation,
         Acquire, Renew, Release, SavePlan, AdmitUsage, Enqueue, Personas;
    var s' := Apply(s, step);
    match step {
      case LoadStep(p, g, t) => LoadMoves(s, p, g, t);
      case RecoverStep(p, g) => RecoverMoves(s, p, g);
      case CommitStep(p, t, g, req) => CommitMoves(s, p, t, g, req);
      case ResolveStep(p, pos, d, valid) => ResolveMoves(s, p, pos, d, valid);
      case BudgetStep(fund, b) => BudgetMoves(s, fund, b);
      case RecordStep(p, req) => RecordMoves(s, p, req);
      case HumanStep(h) => HumanMoves(s, h);
      case AddInput(key) => AddMoves(s, key);
      case ClaimStep(p, g, c, w) => ClaimAside(s, p, g, c, w); StillMoves(s, step, s');
      case CompleteStep(p, key, id, g, answer, failed) => CompleteAside(s, p, key, id, g, answer, failed); StillMoves(s, step, s');
      case _ => OtherInputs(s, step); StillMoves(s, step, s');
    }
  }

  lemma OtherInputs(s: State, step: Step)
    requires step.Tick? || step.AddPersona? || step.BindHuman? || step.SetAuthority? || step.Register? || step.AcquireStep?
             || step.RenewStep? || step.ReleaseStep? || step.SavePlanStep? || step.AdmitStep?
    ensures Apply(s, step).inputs == s.inputs
  {
    hide Commit, Recover, Load, Resolve, SetBudget, RecordUsage, ResumeForHuman, Claim, CompleteOperation, Enqueue, Personas,
         Acquire, Renew, Release, SavePlan, AdmitUsage;
    match step {
      case AcquireStep(p, holder, ttl) => AcquireInputs(s, p, holder, ttl);
      case RenewStep(p, holder, g, ttl) => RenewInputs(s, p, holder, g, ttl);
      case ReleaseStep(p, holder, g) => RenewInputs(s, p, holder, g, 0);
      case SavePlanStep(p, g, t, round, decision, nul) => PlanInputs(s, p, g, t, round, decision, nul);
      case AdmitStep(p, g, req) => AdmitInputs(s, p, g, req);
      case _ =>
    }
  }

  lemma AcquireInputs(s: State, p: Persona, holder: int, ttl: int)
    ensures Acquire(s, p, holder, ttl).inputs == s.inputs
  {
  }

  lemma RenewInputs(s: State, p: Persona, holder: int, g: nat, ttl: int)
    ensures Renew(s, p, holder, g, ttl).inputs == s.inputs && Release(s, p, holder, g).inputs == s.inputs
  {
  }

  lemma PlanInputs(s: State, p: Persona, g: nat, t: TurnId, round: int, decision: Round, nul: bool)
    ensures SavePlan(s, p, g, t, round, decision, nul).inputs == s.inputs
  {
  }

  lemma AdmitInputs(s: State, p: Persona, g: nat, req: AdmitRequest)
    ensures AdmitUsage(s, p, g, req).inputs == s.inputs
  {
    hide Admit;
  }

  lemma BudgetMoves(s: State, fund: Funding, b: Option<Budget>)
    requires Lifecycle.Inv(s)
    ensures AllMove(s, BudgetStep(fund, b), SetBudget(s, fund, b))
  {
    var budgets := match b case Some(v) => s.ledger.budgets[fund := v] case None => s.ledger.budgets - {fund};
    ResumeOnlyWakes(s.(ledger := s.ledger.(budgets := budgets)), fund);
    WakeMoves(s, BudgetStep(fund, b), SetBudget(s, fund, b));
  }

  lemma RecordMoves(s: State, p: Persona, req: RecordRequest)
    requires Lifecycle.Inv(s)
    ensures AllMove(s, RecordStep(p, req), RecordUsage(s, p, req))
  {
    hide Record;
    var r := Record(s.ledger, p, req);
    if r.resume { ResumeOnlyWakes(s.(ledger := r.ledger), req.funding); }
    WakeMoves(s, RecordStep(p, req), RecordUsage(s, p, req));
  }

  lemma HumanMoves(s: State, h: Human)
    requires Lifecycle.Inv(s)
    ensures AllMove(s, HumanStep(h), ResumeForHuman(s, h))
  {
    hide PendingFor;
    WakeMoves(s, HumanStep(h), ResumeForHuman(s, h));
  }

  lemma AddMoves(s: State, key: InputKey)
    ensures AllMove(s, AddInput(key), Enqueue(s, key))
  {
    hide FindInput, Moves;
    if FindInput(s.inputs, key).Some? { StillMoves(s, AddInput(key), s); return; }
    forall i ensures Moves(s, AddInput(key), i, i) { StaysPut(s, AddInput(key), i); }
  }

  lemma StaysPut(s: State, step: Step, i: Input)
    ensures Moves(s, step, i, i)
  {
  }

  /** What claims and completions leave alone. */
  predicate Aside(s: State, s': State) {
    && s'.inputs == s.inputs && s'.turns == s.turns && s'.leases == s.leases && s'.waits == s.waits
    && s'.ledger == s.ledger && s'.clock == s.clock && s'.personas == s.personas && s'.generations == s.generations
  }

  lemma ClaimAside(s: State, p: Persona, g: nat, c: ClaimRequest, w: World)
    ensures Aside(s, Claim(s, p, g, c, w).0)
  {
    hide ClaimBody, Experienced, ClaimEvents, PlaceOf;
    BodyAside(s, p, g, c, w);
  }

  lemma GatedAside(s: State, c: ClaimRequest, w: World, key: OpKey, call: Call, op: Operation)
    requires c.turn in s.turns
    ensures var r := ClaimGated(s, c, w, key, call, op); r.Got? ==> Aside(s, r.state)
  {
    hide Spend, ApplyTool, Fail;
    if key.pos !in s.approvals { return; }
    if s.approvals[key.pos].status != Approved || s.approvals[key.pos].consumed || w.effect.Breaks? { return; }
    SpendAside(s, c, key);
    var s1 := Spend(s, c, key);
    if w.effect.Works? { ToolAside(s1, key, call, op, w.effect.response); } else { FailAside(s1, key, op, Error(w.effect.message)); }
  }

  lemma SpendAside(s: State, c: ClaimRequest, key: OpKey)
    requires c.turn in s.turns && key.pos in s.approvals
    ensures Aside(s, Spend(s, c, key))
  {
    hide Experienced, DecidedEvents, PlaceOf;
  }

  lemma ToolAside(s: State, key: OpKey, call: Call, op: Operation, response: Payload)
    ensures var s' := ApplyTool(s, key, call, op, response); Aside(s, s') && key in s'.ops
  {
    hide NoteJournal;
  }

  lemma FailAside(s: State, key: OpKey, op: Operation, receipt: Receipt)
    ensures var s' := Fail(s, key, op, receipt); Aside(s, s') && key in s'.ops
  {
  }

  lemma NormalAside(s: State, g: nat, c: ClaimRequest, w: World, key: OpKey, call: Call)
    requires c.turn in s.turns
    ensures var r := ClaimNormal(s, g, c, w, key, call); r.Got? ==> Aside(s, r.state)
  {
    hide Experienced, WasDenied, ApplyTool, Fail, DecidedEvents, PlaceOf;
    var op := Operation(c.operation, c.turn, c.request, OpRunning, None, g);
    if WasDenied(s.approvals, key.pos, call) {
      FailAside(s, key, op, DeniedBy(SomeDenial(s.approvals, key.pos, call, w.cited)));
      return;
    }
    if call.tool == MessageSend { FailAside(s, key, op, ElevatedRouteRequired); return; }
    if w.effect.Works? {
      ToolAside(WithExperience(s, c.turn, DecidedEvents(PlaceOf(PlanOf(s, s.turns[c.turn].key), c.index))), key, call, op, w.effect.response);
    }
  }

  lemma ExistingAside(s: State, g: nat, c: ClaimRequest, w: World, key: OpKey, call: Call)
    requires c.turn in s.turns && key in s.ops
    ensures var r := ClaimExisting(s, g, c, w, key, call); r.Got? ==> Aside(s, r.state)
  {
    hide ClaimGated;
    GatedAside(s, c, w, key, call, s.ops[key]);
  }

  lemma ElevatedAside(s: State, g: nat, c: ClaimRequest, w: World, key: OpKey, call: Call)
    ensures var r := ClaimElevated(s, g, c, w, key, call); r.Got? ==> Aside(s, r.state)
  {
    hide Fail;
    var op := Operation(c.operation, c.turn, c.request, AwaitingApproval, None, g);
    if w.malformed.Some? {
      FailAside(s, key, op, Error(w.malformed.value));
      return;
    }
    var a := if key.pos in s.approvals then s.approvals[key.pos] else Approval(c.operation, c.turn, call, Pending, None, false);
    assert ClaimElevated(s, g, c, w, key, call) == Got(s.(ops := s.ops[key := op], approvals := s.approvals[key.pos := a]), key, op, Some(a), true);
  }

  lemma BodyAside(s: State, p: Persona, g: nat, c: ClaimRequest, w: World)
    ensures ClaimBody(s, p, g, c, w).Got? ==> Aside(s, ClaimBody(s, p, g, c, w).state)
  {
    hide ClaimExisting, ClaimElevated, ClaimNormal, Flat, Aside;
    if !ClaimBody(s, p, g, c, w).Got? { return; }
    var key := OpKey(Position(p, s.turns[c.turn].key.input, c.index), c.tool);
    var call := Flat(PlanOf(s, s.turns[c.turn].key))[c.index];
    if key in s.ops {
      ExistingAside(s, g, c, w, key, call);
      return;
    }
    ElevatedAside(s, g, c, w, key, call);
    NormalAside(s, g, c, w, key, call);
  }

  lemma CompleteAside(s: State, p: Persona, key: OpKey, id: int, g: nat, answer: Payload, failed: bool)
    ensures Aside(s, CompleteOperation(s, p, key, id, g, answer, failed))
  {
  }

  /** On any run an input is done only by a commit that completed it or failed it
      for good. */
  lemma {:induction false} DoneByCommit(steps: seq<Step>, k: nat) returns (n: nat)
    requires k < |Exec(Initial(), steps).inputs| && Exec(Initial(), steps).inputs[k].status == Done
    ensures n < |steps|
    ensures var s, step := Exec(Initial(), steps[..n]), steps[n];
            && k < |s.inputs| && s.inputs[k].status == Claimed && CommitOf(s, step, s.inputs[k])
            && s.inputs[k].key == Exec(Initial(), steps).inputs[k].key
            && (step.req.outcome == ToComplete || (step.req.outcome == ToFail && !step.req.retryable))
  {
    hide Apply, Lifecycle.Inv, Sturdy;
    var m := |steps| - 1;
    var s := Exec(Initial(), steps[..m]);
    RunSturdy(steps[..m]);
    assert Lifecycle.Inv(s) by { SturdyLives(s); }
    InputsMove(s, steps[m]);
    assert k < |s.inputs| ==> Moves(s, steps[m], s.inputs[k], Apply(s, steps[m]).inputs[k]);
    if k < |s.inputs| && s.inputs[k].status != Done { return m; }
    n := DoneByCommit(steps[..m], k);
    assert steps[..m][..n] == steps[..n];
  }

  lemma SturdyLives(s: State)
    requires Sturdy(s)
    ensures Lifecycle.Inv(s)
  {
  }

  // ------------------------------------------------------------------- recovery

  /** Recovery requeues each claimed input of the persona, interrupts its running
      turns, and leaves every other input and turn as it was. */
  lemma RecoveryRequeues(s: State, p: Persona, g: nat)
    requires Holds(s, p, g)
    ensures var s' := Recover(s, p, g);
            && |s'.inputs| == |s.inputs|
            && (forall k :: 0 <= k < |s.inputs| ==>
                  if s.inputs[k].key.persona == p && s.inputs[k].status == Claimed
                  then && s'.inputs[k].status == Queued && s'.inputs[k].turn.None? && s'.inputs[k].claimedGeneration.None?
                       && s'.inputs[k] == s.inputs[k].(status := Queued, turn := None, claimedGeneration := None)
                  else s'.inputs[k] == s.inputs[k])
            && s'.turns.Keys == s.turns.Keys
            && (forall t :: t in s.turns ==>
                  s'.turns[t] == if s.turns[t].key.persona == p && s.turns[t].status == Running
                                 then s.turns[t].(status := Interrupted) else s.turns[t])
  {
    hide MarkAll, Reconcile;
  }

  /** A writer crashes while it serves an input; once the next one has recovered,
      loading serves that input again unless an older one is due. */
  lemma CrashedInputIsServed(s: State, p: Persona, g: nat, t: TurnId, k: nat)
    requires Lifecycle.Inv(s) && Holds(s, p, g) && k < |s.inputs|
    requires s.inputs[k].key.persona == p && s.inputs[k].status == Claimed && s.inputs[k].notBefore.None?
    ensures var s1 := Recover(s, p, g);
            var s2 := Load(s1, p, g, t);
            exists n :: 0 <= n <= k && s1.inputs[n].status == Queued && s2.inputs[n].status == Claimed && s2.inputs[n].turn == Some(t)
  {
    hide MarkAll, Reconcile, Attempts;
    RecoveryRequeues(s, p, g);
    var s1 := Recover(s, p, g);
    assert !HasRunning(s1.turns, p);
    assert Claimable(s1.inputs[k], p, s1.clock);
  }

  // ---------------------------------------------------------------------- loading

  predicate Due(i: Input, p: Persona, now: int) {
    i.key.persona == p && i.status == Queued && (i.notBefore.Some? ==> i.notBefore.value <= now)
  }

  /** With no running turn a load serves the oldest input that is due, in a new turn
      whose attempt counts the turns that already served it other than by waiting;
      with none due nothing changes. */
  lemma LoadServes(s: State, p: Persona, g: nat, t: TurnId)
    requires Holds(s, p, g) && forall r :: r in s.turns && s.turns[r].status == Running ==> s.turns[r].key.persona != p
    ensures var s' := Load(s, p, g, t);
            || ((forall k :: 0 <= k < |s.inputs| ==> !Due(s.inputs[k], p, s.clock)) && s' == s)
            || exists k :: && 0 <= k < |s.inputs| && Due(s.inputs[k], p, s.clock)
                           && (forall h :: 0 <= h < k ==> !Due(s.inputs[h], p, s.clock))
                           && Served(s, s', k, g, t)
  {
    hide Attempts;
    assert !HasRunning(s.turns, p);
    match LoadIndex(s, p, g) {
      case None => forall k | 0 <= k < |s.inputs| ensures !Due(s.inputs[k], p, s.clock) { assert !Claimable(s.inputs[k], p, s.clock); }
      case Some(k) =>
        forall h | 0 <= h < k ensures !Due(s.inputs[h], p, s.clock) { assert !Claimable(s.inputs[h], p, s.clock); }
        assert Attempts(s.turns, s.inputs[k].key) == |EarlierTurns(s.turns, s.inputs[k].key)| by { CountsEarlier(s.turns, s.inputs[k].key); }
        assert Served(s, Load(s, p, g, t), k, g, t);
    }
  }

  lemma RecoveredIsIdle(s: State, p: Persona, g: nat)
    requires Holds(s, p, g)
    ensures Holds(Recover(s, p, g), p, g) && !HasRunning(Recover(s, p, g).turns, p)
  {
    hide MarkAll, Reconcile, RequeueClaimed;
  }

  /** A load is fenced without the lease and refused exactly while a turn of an older
      writer is left running; once that writer's work is recovered it is not. */
  lemma LoadAnswers(s: State, p: Persona, g: nat)
    requires Lifecycle.OneRunning(s.turns)
    ensures LoadReply(s, p, g) == Fenced <==> !Holds(s, p, g)
    ensures LoadReply(s, p, g) == Refused(409) <==>
            Holds(s, p, g) && exists t :: t in s.turns && RunningFor(s.turns, t, p) && s.turns[t].generation != g
    ensures Holds(s, p, g) ==> LoadReply(Recover(s, p, g), p, g) == Ok
  {
    hide Recover;
    if !Holds(s, p, g) { return; }
    RecoveredIsIdle(s, p, g);
    if HasRunning(s.turns, p) {
      var t :| t in s.turns && RunningFor(s.turns, t, p);
      forall u | u in s.turns && RunningFor(s.turns, u, p) ensures u == t { }
    }
  }

  function EarlierTurns(turns: map<TurnId, Turn>, key: InputKey): set<TurnId> {
    set t | t in turns && turns[t].key == key && turns[t].status != Awaiting
  }

  lemma CountsEarlier(turns: map<TurnId, Turn>, key: InputKey)
    ensures Attempts(turns, key) == |EarlierTurns(turns, key)|
  {
  }

  ghost predicate Served(s: State, s': State, k: nat, g: nat, t: TurnId)
    requires k < |s.inputs|
  {
    var i := s.inputs[k];
    && s' == s.(inputs := s'.inputs, turns := s'.turns)
    && s'.inputs == s.inputs[k := i.(status := Claimed, claimedGeneration := Some(g), turn := Some(t), notBefore := None)]
    && s'.turns == s.turns[t := Turn(i.key, g, |EarlierTurns(s.turns, i.key)| + 1, Running, None, None, None)]
  }

  // ----------------------------------------------------------------------- leases

  lemma AsideLeases(s: State, s': State)
    requires Aside(s, s')
    ensures s'.leases == s.leases
  {
  }

  /** Only acquiring, renewing and releasing touch a lease. */
  lemma LeasesStay(s: State, step: Step)
    requires !step.AcquireStep? && !step.RenewStep? && !step.ReleaseStep?
    ensures Apply(s, step).leases == s.leases
  {
    hide Commit, Recover, Load, Resolve, SetBudget, RecordUsage, ResumeForHuman, Claim, CompleteOperation, Enqueue, Personas,
         Acquire, Renew, Release, SavePlan, AdmitUsage, Aside;
    match step {
      case ClaimStep(p, g, c, w) => ClaimAside(s, p, g, c, w); AsideLeases(s, Claim(s, p, g, c, w).0);
      case CompleteStep(p, key, id, g, answer, failed) => CompleteAside(s, p, key, id, g, answer, failed); AsideLeases(s, Apply(s, step));
      case LoadStep(p, g, t) => LoadLeases(s, p, g, t);
      case RecoverStep(p, g) => RecoverLeases(s, p, g);
      case CommitStep(p, t, g, req) => CommitLeases(s, p, t, g, req);
      case ResolveStep(p, pos, d, valid) => ResolveLeases(s, p, pos, d, valid);
      case BudgetStep(fund, b) => MoneyLeases(s, fund, b, 0);
      case HumanStep(h) => MoneyLeases(s, Funding(0, 0), None, h);
      case RecordStep(p, req) => RecordLeases(s, p, req);
      case AddInput(key) => InputLeases(s, key);
      case SavePlanStep(p, g, t, round, decision, nul) => PlanLeases(s, p, g, t, round, decision, nul);
      case AdmitStep(p, g, req) => AdmitLeases(s, p, g, req);
      case _ =>
    }
  }

  lemma LoadLeases(s: State, p: Persona, g: nat, t: TurnId)
    ensures Load(s, p, g, t).leases == s.leases
  {
    hide LoadIndex, Attempts;
  }

  lemma RecoverLeases(s: State, p: Persona, g: nat)
    ensures Recover(s, p, g).leases == s.leases
  {
    hide MarkAll, Reconcile;
  }

  lemma CommitLeases(s: State, p: Persona, t: TurnId, g: nat, req: CommitRequest)
    ensures Commit(s, p, t, g, req).leases == s.leases
  {
    hide Commits, CommitJournal, CommitWaits, DisposedInput, Reconcile;
  }

  lemma ResolveLeases(s: State, p: Persona, pos: Position, d: Decision, valid: bool)
    ensures Resolve(s, p, pos, d, valid).leases == s.leases
  {
    hide DecidedInputs;
  }

  lemma MoneyLeases(s: State, fund: Funding, b: Option<Budget>, h: Human)
    ensures SetBudget(s, fund, b).leases == s.leases && ResumeForHuman(s, h).leases == s.leases
  {
    hide Fitting, Restated;
  }

  lemma RecordLeases(s: State, p: Persona, req: RecordRequest)
    ensures RecordUsage(s, p, req).leases == s.leases
  {
    hide Record, ResumeWaits;
    var r := Record(s.ledger, p, req);
    if r.resume { ResumeLeases(s.(ledger := r.ledger), req.funding); }
  }

  lemma ResumeLeases(s: State, fund: Funding)
    ensures ResumeWaits(s, fund).leases == s.leases
  {
    hide Fitting, Restated;
  }

  lemma InputLeases(s: State, key: InputKey)
    ensures Enqueue(s, key).leases == s.leases
  {
  }

  lemma PlanLeases(s: State, p: Persona, g: nat, t: TurnId, round: int, decision: Round, nul: bool)
    ensures SavePlan(s, p, g, t, round, decision, nul).leases == s.leases
  {
  }

  lemma AdmitLeases(s: State, p: Persona, g: nat, req: AdmitRequest)
    ensures AdmitUsage(s, p, g, req).leases == s.leases
  {
    hide Admit;
  }

  /** Acquiring is granted exactly to an active persona whose lease is missing, past
      its time, or the caller's own; it then lasts the time asked for, under a new
      generation.  Renewing moves the end only, for the holder only. */
  lemma LeaseAnswers(s: State, p: Persona, holder: int, g: nat, ttl: int)
    ensures var s', n := Acquire(s, p, holder, ttl), (if p in s.generations then s.generations[p] else 0) + 1;
            if && p in s.personas && s.personas[p].authority == Active
               && (p !in s.leases || s.leases[p].expires <= s.clock || s.leases[p].holder == holder)
            then s' == s.(leases := s.leases[p := Lease(n, holder, s.clock + ttl)], generations := s.generations[p := n])
            else s' == s
    ensures var s' := Renew(s, p, holder, g, ttl);
            if p in s.leases && s.leases[p].generation == g && s.leases[p].holder == holder
            then s' == s.(leases := s.leases[p := Lease(g, holder, s.clock + ttl)]) else s' == s
  {
  }

  /** Until the lease runs out its holder keeps it, unless it lets go. */
  ghost predicate Unexpired(s: State, steps: seq<Step>, p: Persona, holder: int) {
    steps == [] || (var n := |steps| - 1;
                    var before := Exec(s, steps[..n]);
                    && Unexpired(s, steps[..n], p, holder)
                    && p in before.leases && before.clock < before.leases[p].expires
                    && !(steps[n].ReleaseStep? && steps[n].p == p && steps[n].holder == holder))
  }

  /** Whatever anyone else does, nobody takes over a lease before it runs out. */
  lemma {:induction false} LeaseIsExclusive(s: State, steps: seq<Step>, p: Persona, holder: int)
    requires p in s.leases && s.leases[p].holder == holder && Unexpired(s, steps, p, holder)
    ensures p in Exec(s, steps).leases && Exec(s, steps).leases[p].holder == holder
  {
    if steps == [] { return; }
    var n := |steps| - 1;
    LeaseIsExclusive(s, steps[..n], p, holder);
    var before, step := Exec(s, steps[..n]), steps[n];
    LeaseStepKeeps(before, step, p, holder);
  }

  lemma LeaseStepKeeps(s: State, step: Step, p: Persona, holder: int)
    requires p in s.leases && s.leases[p].holder == holder && s.clock < s.leases[p].expires
    requires !(step.ReleaseStep? && step.p == p && step.holder == holder)
    ensures p in Apply(s, step).leases && Apply(s, step).leases[p].holder == holder
  {
    hide Apply;
    if !step.AcquireStep? && !step.RenewStep? && !step.ReleaseStep? { LeasesStay(s, step); return; }
    LeaseStepOwn(s, step, p, holder);
  }

  lemma LeaseStepOwn(s: State, step: Step, p: Persona, holder: int)
    requires p in s.leases && s.leases[p].holder == holder && s.clock < s.leases[p].expires
    requires step.AcquireStep? || step.RenewStep? || (step.ReleaseStep? && !(step.p == p && step.holder == holder))
    ensures p in Apply(s, step).leases && Apply(s, step).leases[p].holder == holder
  {
    hide Commit, Recover, Load, Resolve, SetBudget, RecordUsage, ResumeForHuman, Claim, CompleteOperation, Enqueue, Personas,
         SavePlan, AdmitUsage, Acquire, Renew, Release;
    AppliesLease(s, step);
    hide Apply;
    match step {
      case AcquireStep(q, h, ttl) => LeaseAnswers(s, q, h, 0, ttl);
      case RenewStep(q, h, g, ttl) => LeaseAnswers(s, q, h, g, ttl);
      case ReleaseStep(q, h, g) => ReleaseEnds(s, q, h, g);
    }
  }

  lemma AppliesLease(s: State, step: Step)
    ensures step.AcquireStep? ==> Apply(s, step) == Acquire(s, step.p, step.holder, step.ttl)
    ensures step.RenewStep? ==> Apply(s, step) == Renew(s, step.p, step.holder, step.generation, step.ttl)
    ensures step.ReleaseStep? ==> Apply(s, step) == Release(s, step.p, step.holder, step.generation)
  {
    hide Commit, Recover, Load, Resolve, SetBudget, RecordUsage, ResumeForHuman, Claim, CompleteOperation, Enqueue, Personas,
         SavePlan, AdmitUsage, Acquire, Renew, Release;
  }

  lemma ReleaseEnds(s: State, p: Persona, holder: int, g: nat)
    ensures var s' := Release(s, p, holder, g);
            if p in s.leases && s.leases[p].generation == g && s.leases[p].holder == holder
            then s'.leases.Keys == s.leases.Keys && s'.leases[p].expires < s.clock && s'.leases[p].holder == holder
                 && (forall q :: q in s.leases && q != p ==> s'.leases[q] == s.leases[q])
            else s' == s
  {
  }
}
