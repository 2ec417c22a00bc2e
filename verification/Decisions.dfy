/** What decisions, commits and recoveries leave behind: a decided call, a closed
    turn with its records, the mark of a crash, and waits priced under the card in
    force. */
module Decisions {
  import opened Common
  import opened Plan
  import opened Journal
  import opened Ledger
  import opened Store
  import opened Runs
  import opened Guarantees
  import opened Answers
  import opened Dispositions
  import Effects
  import Lifecycle

  // ------------------------------------------------------------------ decisions

  /** A decision decides its approval and nothing else's, is journaled by the turn
      that asked, and when it denies fails the operation that waited for it. */
  lemma DecisionDecides(s: State, p: Persona, pos: Position, d: Decision)
    requires Decides(s, p, pos, d, true)
    ensures var s', a := Resolve(s, p, pos, d, true), s.approvals[pos];
            && pos in s'.approvals && s'.approvals[pos].decision == Some(d)
            && (if d.approve then s'.approvals[pos].status == Approved else s'.approvals[pos].status == DeniedApproval)
            && s'.approvals[pos].call == a.call && s'.approvals[pos].consumed == a.consumed
            && s'.approvals.Keys == s.approvals.Keys && (forall q :: q in s.approvals && q != pos ==> s'.approvals[q] == s.approvals[q])
            && s'.ops.Keys == s.ops.Keys
            && (forall o :: o in s.ops ==>
                  if !d.approve && o.pos.persona == p && s.ops[o].id == a.operation && s.ops[o].status == AwaitingApproval
                  then s'.ops[o].status == OpFailed && s'.ops[o].receipt == Some(DeniedBy(pos))
                  else s'.ops[o] == s.ops[o])
            && s'.journal.log == s.journal.log + [Event(p, Last(s.journal, p) + 1, a.turn, ApprovalDecided(pos, d.approve, d.decider))]
            && s'.trail == s.trail + [Decided(pos, d, Some(d.decider))]
  {
    hide DecidedInputs;
  }

  /** The claim's call is parked behind the approval at `pos`. */
  ghost predicate ParkedAt(s: State, p: Persona, g: nat, c: ClaimRequest, call: Call, pos: Position) {
    && InPlan(s, p, g, c, call) && KeyOf(s, c).pos == pos && KeyOf(s, c) in s.ops
    && s.ops[KeyOf(s, c)].status == AwaitingApproval && pos in s.approvals
  }

  lemma ResolveKeepsPlan(s: State, p: Persona, pos: Position, d: Decision, g: nat, c: ClaimRequest, call: Call)
    requires InPlan(s, p, g, c, call)
    ensures InPlan(Resolve(s, p, pos, d, true), p, g, c, call)
    ensures var s' := Resolve(s, p, pos, d, true);
            s'.turns == s.turns && s'.plans == s.plans && KeyOf(s', c) == KeyOf(s, c)
  {
    hide DecidedInputs, Flat;
  }

  /** Approve the parked call, then claim it: it runs, once, and answers. */
  lemma ApprovedCallRuns(s: State, p: Persona, pos: Position, d: Decision, g: nat, c: ClaimRequest, w: World, call: Call)
    requires Effects.Inv(s) && ParkedAt(s, p, g, c, call, pos) && Decides(s, p, pos, d, true) && d.approve && w.effect.Works?
    ensures var s1 := Resolve(s, p, pos, d, true);
            var s2, key := Claim(s1, p, g, c, w).0, KeyOf(s, c);
            && s2.trail == s.trail + [Decided(pos, d, Some(d.decider)), Applied(pos, call)]
            && key in s2.ops && s2.ops[key].status == OpDone && s2.ops[key].receipt == Some(Receipt.Response(w.effect.response))
            && pos in s2.approvals && s2.approvals[pos].consumed
  {
    hide Claim, Resolve, Effects.Inv, InPlan;
    var s1 := Resolve(s, p, pos, d, true);
    DecisionDecides(s, p, pos, d);
    ResolveKeepsPlan(s, p, pos, d, g, c, call);
    Effects.ResolveKeeps(s, p, pos, d, true);
    PendingUnspent(s, pos);
    GrantedCallRuns(s1, p, g, c, w, call);
    assert s.trail + [Decided(pos, d, Some(d.decider))] + [Applied(pos, call)]
           == s.trail + [Decided(pos, d, Some(d.decider)), Applied(pos, call)];
  }

  lemma PendingUnspent(s: State, pos: Position)
    requires Effects.Inv(s) && pos in s.approvals && s.approvals[pos].status == Pending
    ensures !s.approvals[pos].consumed && OpKey(pos, s.approvals[pos].call.tool) in s.ops
    ensures s.ops[OpKey(pos, s.approvals[pos].call.tool)].id == s.approvals[pos].operation
    ensures Effects.CallAt(s.plans, pos) == Some(s.approvals[pos].call)
  {
  }

  /** Deny the parked call, then claim it: nothing runs, and where it has no result
      yet the journal tells a denial. */
  lemma DeniedCallTells(s: State, p: Persona, pos: Position, d: Decision, g: nat, c: ClaimRequest, w: World, call: Call)
    requires Effects.Inv(s) && ParkedAt(s, p, g, c, call, pos) && Decides(s, p, pos, d, true) && !d.approve
    requires ResultOf(c.index) !in Lineage(s.journal.log, OwnersOf(s.turns), s.turns[c.turn].key)
    ensures var s1 := Resolve(s, p, pos, d, true);
            var (s2, reply) := Claim(s1, p, g, c, w);
            && reply == Ok && s2.trail == s1.trail && s2.ops == s1.ops && s2.approvals == s1.approvals
            && Told(s2.journal.log, |s1.journal.log|, p, c.turn, call, c.index, Failure(0, true))
  {
    hide Claim, Resolve, Effects.Inv, Flat, Told, Lineage;
    var s1, key := Resolve(s, p, pos, d, true), KeyOf(s, c);
    DecisionDecides(s, p, pos, d);
    ResolveKeepsPlan(s, p, pos, d, g, c, call);
    PendingUnspent(s, pos);
    CallIsPlanned(s, p, g, c, call);
    Effects.ResolveKeeps(s, p, pos, d, true);
    assert s1.ops[key].status == OpFailed && s1.ops[key].receipt == Some(DeniedBy(pos));
    FinishedClaimReplays(s1, p, g, c, w);
    LineageSnoc(s.journal.log, OwnersOf(s.turns), s.turns[c.turn].key, s1.journal.log[|s.journal.log|]);
    ClaimTells(s1, p, g, c, w);
    var s2 := Claim(s1, p, g, c, w).0;
    assert FailedByDenial(s1, s2, key);
  }

  lemma CallIsPlanned(s: State, p: Persona, g: nat, c: ClaimRequest, call: Call)
    requires InPlan(s, p, g, c, call)
    ensures Effects.CallAt(s.plans, KeyOf(s, c).pos) == Some(call)
  {
  }

  // ---------------------------------------------------------------- closed turns

  /** A commit closes its turn with its outcome: the output and usage of a complete
      one, the error of a failed one without its NULs; no other turn changes. */
  lemma CommitCloses(s: State, p: Persona, t: TurnId, g: nat, req: CommitRequest)
    requires Commits(s, p, t, g, req)
    ensures var s' := Commit(s, p, t, g, req);
            && s'.turns.Keys == s.turns.Keys && (forall u :: u in s.turns && u != t ==> s'.turns[u] == s.turns[u])
            && var turn, turn' := s.turns[t], s'.turns[t];
               match req.outcome
               case ToComplete => turn' == turn.(status := Complete, output := req.output, usage := req.usage)
               case ToAwait => turn' == turn.(status := Awaiting)
               case ToFail =>
                 && turn'.status == Failed && turn' == turn.(status := Failed, error := turn'.error)
                 && (req.error.Text? ==> turn'.error == Some(req.error.message))
                 && (req.error.NulText? ==> turn'.error == Some(req.error.stripped))
  {
    hide CommitJournal, CommitWaits, DisposedInput, Reconcile, CommitRefused;
  }

  // -------------------------------------------------------------- committed records

  /** `a` is what is left of `b` when some of it is left out. */
  ghost predicate Subsequence(a: seq<EventInput>, b: seq<EventInput>)
    decreases |b|
  {
    if a == [] then true
    else if b == [] then false
    else (a[0] == b[0] && Subsequence(a[1..], b[1..])) || Subsequence(a, b[1..])
  }

  function Bodies(log: seq<Event>): (r: seq<EventInput>)
    ensures |r| == |log| && forall k :: 0 <= k < |log| ==> r[k] == log[k].body
  {
    seq(|log|, k requires 0 <= k < |log| => log[k].body)
  }

  function Times(events: seq<EventInput>, e: EventInput): nat {
    if events == [] then 0 else (if events[0] == e then 1 else 0) + Times(events[1..], e)
  }

  /** The commit's records are new, the turn's, and in the order given; none without
      an experience key is dropped or repeated. */
  ghost predicate Appended(j: Journal, j': Journal, p: Persona, t: TurnId, events: seq<EventInput>) {
    && j.log <= j'.log
    && (forall k :: |j.log| <= k < |j'.log| ==> j'.log[k].persona == p && j'.log[k].turn == t)
    && Subsequence(Bodies(j'.log[|j.log|..]), events)
    && (forall e :: e in events && ExperienceKey(e).None? && !e.InputReceived? ==>
          Times(Bodies(j'.log[|j.log|..]), e) == Times(events, e))
  }

  lemma PushedFirst(j: Journal, j1: Journal, j': Journal, e: Event)
    requires j1.log == j.log + [e] && j1.log <= j'.log
    ensures Bodies(j'.log[|j.log|..]) == [e.body] + Bodies(j'.log[|j1.log|..])
  {
    assert j'.log[|j.log|] == j1.log[|j.log|];
  }

  lemma TimesFirst(a: seq<EventInput>, x: EventInput, e: EventInput)
    ensures Times([x] + a, e) == (if x == e then 1 else 0) + Times(a, e)
  {
    assert ([x] + a)[1..] == a;
  }

  /** The first event was pushed. */
  lemma AppendedOne(j: Journal, j1: Journal, j': Journal, p: Persona, t: TurnId, events: seq<EventInput>)
    requires events != [] && Appended(j1, j', p, t, events[1..])
    requires j1.log == j.log + [Event(p, Last(j, p) + 1, t, events[0])]
    ensures Appended(j, j', p, t, events)
  {
    PushedFirst(j, j1, j', Event(p, Last(j, p) + 1, t, events[0]));
    var rest := Bodies(j'.log[|j1.log|..]);
    var all := Bodies(j'.log[|j.log|..]);
    assert all[0] == events[0] && all[1..] == rest;
    assert Subsequence(all, events);
    forall e | e in events && ExperienceKey(e).None? && !e.InputReceived? ensures Times(all, e) == Times(events, e) {
      TimesFirst(rest, events[0], e);
      if e !in events[1..] { AbsentTimes(events[1..], e); SubsequenceHolds(rest, events[1..], e); AbsentTimes(rest, e); }
    }
  }

  lemma {:induction false} AbsentTimes(events: seq<EventInput>, e: EventInput)
    requires e !in events
    ensures Times(events, e) == 0
  {
    if events != [] { AbsentTimes(events[1..], e); }
  }

  lemma {:induction false} SubsequenceHolds(a: seq<EventInput>, b: seq<EventInput>, e: EventInput)
    requires Subsequence(a, b) && e !in b
    ensures e !in a
    decreases |b|
  {
    if a == [] || b == [] { return; }
    if Subsequence(a, b[1..]) {
      SubsequenceHolds(a, b[1..], e);
    } else {
      SubsequenceHolds(a[1..], b[1..], e);
      assert a == [a[0]] + a[1..];
    }
  }

  /** The first event was left out. */
  lemma AppendedNone(j: Journal, j': Journal, p: Persona, t: TurnId, events: seq<EventInput>)
    requires events != [] && Appended(j, j', p, t, events[1..])
    requires ExperienceKey(events[0]).Some? || events[0].InputReceived?
    ensures Appended(j, j', p, t, events)
  {
    var all := Bodies(j'.log[|j.log|..]);
    assert Subsequence(all, events);
    forall e | e in events && ExperienceKey(e).None? && !e.InputReceived? ensures Times(all, e) == Times(events, e) {
      assert e != events[0] && e in events[1..];
    }
  }

  lemma {:induction false} CommittedAppends(j: Journal, p: Persona, t: TurnId, events: seq<EventInput>, seen: set<Experience>)
    requires forall e :: e in events && e.InputReceived? ==> e.input.Some?
    ensures Appended(j, AppendCommitted(j, p, t, events, seen), p, t, events)
    decreases |events|
  {
    var j' := AppendCommitted(j, p, t, events, seen);
    if events == [] {
      assert j'.log[|j.log|..] == [];
      return;
    }
    assert events[0] in events;
    hide Appended;
    if events[0].InputReceived? {
      var j1 := EnsureReceived(j, p, t, events[0].input.value);
      CommittedAppends(j1, p, t, events[1..], seen);
      if InputKey(p, events[0].input.value) in j.received { AppendedNone(j, j', p, t, events); } else { AppendedOne(j, j1, j', p, t, events); }
      return;
    }
    var key := ExperienceKey(events[0]);
    if key.Some? && key.value in seen {
      CommittedAppends(j, p, t, events[1..], seen);
      AppendedNone(j, j', p, t, events);
      return;
    }
    var j1 := Push(j, p, t, events[0]);
    CommittedAppends(j1, p, t, events[1..], if key.Some? then seen + {key.value} else seen);
    AppendedOne(j, j1, j', p, t, events);
  }

  /** Every experience among the events is known afterwards, every receipt there. */
  lemma {:induction false} CommittedKnown(
      j: Journal, owners: Owners, p: Persona, t: TurnId, events: seq<EventInput>, seen: set<Experience>, e: EventInput)
    requires t in owners && owners[t].persona == p
    requires forall x :: x in events && x.InputReceived? ==> x.input.Some?
    requires forall y :: y in seen ==> y in Lineage(j.log, owners, owners[t])
    ensures var j' := AppendCommitted(j, p, t, events, seen);
            && (forall y :: y in Lineage(j.log, owners, owners[t]) ==> y in Lineage(j'.log, owners, owners[t]))
            && (forall y :: y in j.received ==> y in j'.received)
            && (e in events && ExperienceKey(e).Some? ==> ExperienceKey(e).value in Lineage(j'.log, owners, owners[t]))
            && (e in events && e.InputReceived? ==> InputKey(p, e.input.value) in j'.received)
    decreases |events|
  {
    if events == [] { return; }
    hide Lineage;
    assert events[0] in events;
    if events[0].InputReceived? {
      var i := events[0].input.value;
      LineageSnoc(j.log, owners, owners[t], Event(p, Last(j, p) + 1, t, InputReceived(Some(i))));
      CommittedKnown(EnsureReceived(j, p, t, i), owners, p, t, events[1..], seen, e);
      return;
    }
    var key := ExperienceKey(events[0]);
    if key.Some? && key.value in seen {
      CommittedKnown(j, owners, p, t, events[1..], seen, e);
      return;
    }
    LineageSnoc(j.log, owners, owners[t], Event(p, Last(j, p) + 1, t, events[0]));
    CommittedKnown(Push(j, p, t, events[0]), owners, p, t, events[1..], if key.Some? then seen + {key.value} else seen, e);
  }

  /** A commit appends its turn's records in order, all that have no experience key,
      and leaves every experience and every input it names known and received. */
  lemma CommitRecords(s: State, p: Persona, t: TurnId, g: nat, req: CommitRequest, e: EventInput)
    requires Commits(s, p, t, g, req)
    ensures var s' := Commit(s, p, t, g, req);
            && Appended(s.journal, s'.journal, p, t, req.events)
            && (e in req.events && ExperienceKey(e).Some? ==>
                  ExperienceKey(e).value in Lineage(s'.journal.log, OwnersOf(s.turns), s.turns[t].key))
            && (e in req.events && e.InputReceived? ==> e.input.Some? && InputKey(p, e.input.value) in s'.journal.received)
  {
    hide Appended, AppendCommitted, Lineage, Reconcile, DisposedInput, CommitWaits;
    var owners := OwnersOf(s.turns);
    var seen := Lineage(s.journal.log, owners, s.turns[t].key);
    assert forall x :: x in req.events && x.InputReceived? ==> !BadReceipt(s, p, x);
    CommittedAppends(s.journal, p, t, req.events, seen);
    CommittedKnown(s.journal, owners, p, t, req.events, seen, e);
  }

  // ------------------------------------------------------------------ crash marks

  /** The turn journaled something since its input was received. */
  ghost predicate Spoke(s: State, p: Persona, t: TurnId)
    requires t in s.turns
  {
    var key := InputKey(p, s.turns[t].key.input);
    key in s.journal.received
    && exists k :: 0 <= k < |s.journal.log| && s.journal.log[k].persona == p && s.journal.log[k].turn == t
                   && s.journal.log[k].num >= s.journal.received[key]
  }

  /** Recovering a persona whose one running turn had spoken journals, as that
      turn's, that it stopped there; otherwise it journals nothing. */
  lemma RecoveryMarks(s: State, p: Persona, g: nat, t: TurnId)
    requires Holds(s, p, g) && Lifecycle.OneRunning(s.turns)
    requires t in s.turns && s.turns[t].key.persona == p && s.turns[t].status == Running
    ensures Recover(s, p, g).journal.log
            == s.journal.log + if Spoke(s, p, t) then [Event(p, Last(s.journal, p) + 1, t, TurnPaused(ByCrash))] else []
  {
    hide Reconcile;
    var ts := RunningTurns(s.turns, p);
    forall u | u in ts ensures u == t { assert s.turns[u].status == Running && s.turns[u].key.persona == p; }
    assert t in ts;
    assert ts == {t};
    assert Pick(ts) == t && ts - {t} == {};
    assert MarkAll(s.journal, p, s.turns, ts) == MarkInterrupted(s.journal, p, t, s.turns[t].key.input);
    var key := InputKey(p, s.turns[t].key.input);
    if Spoke(s, p, t) {
      assert exists k :: 0 <= k < |s.journal.log| && s.journal.log[k].persona == p && s.journal.log[k].num >= s.journal.received[key]
                         && s.journal.log[k].turn == t;
    }
  }

  // ----------------------------------------------------------------- priced waits

  predicate PricedNow(budgets: map<Funding, Budget>, w: WaitRow) {
    && w.funding in budgets
    && w.needed == PriceEstimate(w.estimate, budgets[w.funding].card) && w.currency == budgets[w.funding].card.currency
  }

  ghost predicate WaitsPriced(s: State) { forall k :: k in s.waits ==> PricedNow(s.ledger.budgets, s.waits[k]) }

  lemma ResumePrices(s: State, fund: Funding)
    requires forall k :: k in s.waits && s.waits[k].funding != fund ==> PricedNow(s.ledger.budgets, s.waits[k])
    ensures WaitsPriced(ResumeWaits(s, fund)) && ResumeWaits(s, fund).ledger == s.ledger
  {
    hide PriceEstimate, Used;
    var s' := ResumeWaits(s, fund);
    forall k | k in s'.waits ensures PricedNow(s'.ledger.budgets, s'.waits[k]) {
      if s.waits[k].funding == fund { assert !Fits(s.ledger, fund, s.waits[k].estimate); }
    }
  }

  lemma RecordBudgets(l: Ledger, p: Persona, req: RecordRequest)
    ensures Record(l, p, req).ledger.budgets == l.budgets
  {
  }

  lemma {:induction false} ReconcileBudgets(l: Ledger, sel: Selector, k: nat)
    requires k <= |l.reservations|
    ensures Reconcile(l, sel, k).budgets == l.budgets
    decreases |l.reservations| - k
  {
    if k == |l.reservations| { return; }
    if Selects(sel, l.reservations[k]) { ReconcileBudgets(ReconcileHold(l, k), sel, k + 1); } else { ReconcileBudgets(l, sel, k + 1); }
  }

  lemma BudgetPrices(s: State, fund: Funding, b: Option<Budget>)
    requires WaitsPriced(s)
    ensures WaitsPriced(SetBudget(s, fund, b))
  {
    hide ResumeWaits;
    var budgets := match b case Some(v) => s.ledger.budgets[fund := v] case None => s.ledger.budgets - {fund};
    var s1 := s.(ledger := s.ledger.(budgets := budgets));
    assert forall k :: k in s1.waits && s1.waits[k].funding != fund ==> PricedNow(s1.ledger.budgets, s1.waits[k]);
    ResumePrices(s1, fund);
  }

  lemma RecordPrices(s: State, p: Persona, req: RecordRequest)
    requires WaitsPriced(s)
    ensures WaitsPriced(RecordUsage(s, p, req))
  {
    hide ResumeWaits, Record;
    RecordBudgets(s.ledger, p, req);
    var r := Record(s.ledger, p, req);
    if r.resume { ResumePrices(s.(ledger := r.ledger), req.funding); }
  }

  lemma CommitPrices(s: State, p: Persona, t: TurnId, g: nat, req: CommitRequest)
    requires Lifecycle.Inv(s) && WaitsPriced(s)
    ensures WaitsPriced(Commit(s, p, t, g, req))
  {
    if !Commits(s, p, t, g, req) || MalformedWait(req) { return; }
    CommitSettles(s, p, t, g, req);
    ReconcileBudgets(s.ledger, OfTurn(p, t), 0);
    hide Commits, CommitJournal, CommitWaits, DisposedInput, Reconcile, Blocked, Disposed;
  }

  lemma SamePrices(s: State, s': State)
    requires WaitsPriced(s) && s'.waits == s.waits && s'.ledger.budgets == s.ledger.budgets
    ensures WaitsPriced(s')
  {
  }

  lemma OtherMoney(s: State, step: Step)
    requires !step.BudgetStep? && !step.RecordStep? && !step.HumanStep? && !step.CommitStep?
    ensures Apply(s, step).waits == s.waits && Apply(s, step).ledger.budgets == s.ledger.budgets
  {
    hide Commit, Recover, Load, Resolve, SetBudget, RecordUsage, ResumeForHuman, Claim, CompleteOperation, Enqueue, Personas,
         Acquire, Renew, Release, SavePlan, AdmitUsage;
    match step {
      case ClaimStep(p, g, c, w) => ClaimAside(s, p, g, c, w);
      case CompleteStep(p, key, id, g, answer, failed) => CompleteAside(s, p, key, id, g, answer, failed);
      case LoadStep(p, g, t) => LoadMoney(s, p, g, t);
      case RecoverStep(p, g) => RecoverMoney(s, p, g);
      case ResolveStep(p, pos, d, valid) => ResolveMoney(s, p, pos, d, valid);
      case AddInput(key) => InputMoney(s, key);
      case SavePlanStep(p, g, t, round, decision, nul) => PlanMoney(s, p, g, t, round, decision, nul);
      case AdmitStep(p, g, req) => AdmitMoney(s, p, g, req);
      case AcquireStep(p, h, ttl) => AcquireMoney(s, p, h, ttl);
      case RenewStep(p, h, g, ttl) => LeaseMoney(s, p, h, g, ttl);
      case ReleaseStep(p, h, g) => ReleaseMoney(s, p, h, g);
      case _ => QuietMoney(s, step);
    }
  }

  lemma QuietMoney(s: State, step: Step)
    requires step.Tick? || step.AddPersona? || step.BindHuman? || step.SetAuthority? || step.Register?
    ensures Apply(s, step).waits == s.waits && Apply(s, step).ledger == s.ledger
  {
    hide Commit, Recover, Load, Resolve, SetBudget, RecordUsage, ResumeForHuman, Claim, CompleteOperation, Enqueue, Personas,
         Acquire, Renew, Release, SavePlan, AdmitUsage;
  }

  lemma LoadMoney(s: State, p: Persona, g: nat, t: TurnId)
    ensures Load(s, p, g, t).waits == s.waits && Load(s, p, g, t).ledger == s.ledger
  {
    hide LoadIndex, Attempts;
  }

  lemma RecoverMoney(s: State, p: Persona, g: nat)
    ensures Recover(s, p, g).waits == s.waits && Recover(s, p, g).ledger.budgets == s.ledger.budgets
  {
    hide MarkAll, Reconcile;
    ReconcileBudgets(s.ledger, BeforeGeneration(p, g), 0);
  }

  lemma ResolveMoney(s: State, p: Persona, pos: Position, d: Decision, valid: bool)
    ensures Resolve(s, p, pos, d, valid).waits == s.waits && Resolve(s, p, pos, d, valid).ledger == s.ledger
  {
    hide DecidedInputs;
  }

  lemma InputMoney(s: State, key: InputKey)
    ensures Enqueue(s, key).waits == s.waits && Enqueue(s, key).ledger == s.ledger
  {
  }

  lemma PlanMoney(s: State, p: Persona, g: nat, t: TurnId, round: int, decision: Round, nul: bool)
    ensures var s' := SavePlan(s, p, g, t, round, decision, nul); s'.waits == s.waits && s'.ledger == s.ledger
  {
  }

  lemma AdmitMoney(s: State, p: Persona, g: nat, req: AdmitRequest)
    ensures AdmitUsage(s, p, g, req).waits == s.waits && AdmitUsage(s, p, g, req).ledger.budgets == s.ledger.budgets
  {
  }

  lemma AcquireMoney(s: State, p: Persona, holder: int, ttl: int)
    ensures Acquire(s, p, holder, ttl).waits == s.waits && Acquire(s, p, holder, ttl).ledger == s.ledger
  {
  }

  lemma LeaseMoney(s: State, p: Persona, holder: int, g: nat, ttl: int)
    ensures Renew(s, p, holder, g, ttl).waits == s.waits && Renew(s, p, holder, g, ttl).ledger == s.ledger
  {
  }

  lemma ReleaseMoney(s: State, p: Persona, holder: int, g: nat)
    ensures Release(s, p, holder, g).waits == s.waits && Release(s, p, holder, g).ledger == s.ledger
  {
  }

  lemma HumanMoney(s: State, h: Human)
    requires WaitsPriced(s)
    ensures WaitsPriced(ResumeForHuman(s, h))
  {
  }

  lemma StepPrices(s: State, step: Step)
    requires Lifecycle.Inv(s) && WaitsPriced(s)
    ensures WaitsPriced(Apply(s, step))
  {
    if !step.BudgetStep? && !step.RecordStep? && !step.HumanStep? && !step.CommitStep? {
      hide Apply, WaitsPriced;
      OtherMoney(s, step);
      SamePrices(s, Apply(s, step));
      return;
    }
    hide Commit, SetBudget, RecordUsage, ResumeForHuman, Recover, Load, Resolve, Claim, CompleteOperation, WaitsPriced, Lifecycle.Inv;
    match step {
      case BudgetStep(fund, b) => BudgetPrices(s, fund, b);
      case RecordStep(p, req) => RecordPrices(s, p, req);
      case HumanStep(h) => HumanMoney(s, h);
      case CommitStep(p, t, g, req) => CommitPrices(s, p, t, g, req);
    }
  }

  /** On any run every parked wait is priced under the card in force for its funding. */
  lemma {:induction false} RunPrices(steps: seq<Step>)
    ensures WaitsPriced(Exec(Initial(), steps))
  {
    if steps == [] { return; }
    hide WaitsPriced, Apply, Sturdy, Lifecycle.Inv;
    var n := |steps| - 1;
    RunPrices(steps[..n]);
    RunSturdy(steps[..n]);
    SturdyLives(Exec(Initial(), steps[..n]));
    StepPrices(Exec(Initial(), steps[..n]), steps[n]);
  }

  // --------------------------------------------------------- what a first claim does

  /** A first claim of the recorded call at its live turn. */
  ghost predicate FirstClaim(s: State, p: Persona, g: nat, c: ClaimRequest, call: Call) {
    InPlan(s, p, g, c, call) && KeyOf(s, c) !in s.ops
  }

  /** The claim is accepted, runs nothing, asks for nothing, and fails its operation
      with this receipt. */
  ghost predicate FailsWith(s: State, s': State, reply: Reply, key: OpKey, receipt: Receipt) {
    && reply == Ok && s'.trail == s.trail && s'.approvals == s.approvals
    && key in s'.ops && s'.ops[key].status == OpFailed && s'.ops[key].receipt == Some(receipt)
    && forall o :: o in s.ops ==> o in s'.ops && s'.ops[o] == s.ops[o]
  }

  /** A call with the same tool and request was denied for this input, at `at`. */
  predicate DeniedAt(s: State, pos: Position, call: Call, at: Position) {
    && at in s.approvals && at.persona == pos.persona && at.input == pos.input
    && s.approvals[at].status == DeniedApproval && s.approvals[at].call.tool == call.tool && s.approvals[at].call.request == call.request
  }

  ghost predicate DeniedBefore(s: State, pos: Position, call: Call) { exists at :: DeniedAt(s, pos, call, at) }

  lemma DeniedBeforeIs(s: State, pos: Position, call: Call)
    ensures WasDenied(s.approvals, pos, call) <==> DeniedBefore(s, pos, call)
  {
    if WasDenied(s.approvals, pos, call) {
      var at :| at in s.approvals && DeniedTwin(s.approvals[at], pos, at, call);
      assert DeniedAt(s, pos, call, at);
    }
    if DeniedBefore(s, pos, call) {
      var at :| DeniedAt(s, pos, call, at);
      assert DeniedTwin(s.approvals[at], pos, at, call);
    }
  }

  /** A malformed elevated call fails with its fault: it neither runs nor is asked
      for. */
  lemma MalformedFails(s: State, p: Persona, g: nat, c: ClaimRequest, w: World, call: Call)
    requires FirstClaim(s, p, g, c, call) && call.route == Elevated && w.malformed.Some?
    ensures var (s', reply) := Claim(s, p, g, c, w); FailsWith(s, s', reply, KeyOf(s, c), Error(w.malformed.value))
  {
    hide Claim, Flat;
    ClaimRows(s, p, g, c, w);
    AcceptedIsOk(s, p, g, c, w);
  }

  /** A call identical to one denied for this input fails by a denial of such a one. */
  lemma DeniedTwinFails(s: State, p: Persona, g: nat, c: ClaimRequest, w: World, call: Call) returns (at: Position)
    requires FirstClaim(s, p, g, c, call) && call.route == Normal && DeniedBefore(s, KeyOf(s, c).pos, call)
    ensures var (s', reply) := Claim(s, p, g, c, w);
            DeniedAt(s, KeyOf(s, c).pos, call, at) && FailsWith(s, s', reply, KeyOf(s, c), DeniedBy(at))
  {
    hide Claim, Flat, Experienced, NoteJournal, DecidedEvents, PlaceOf;
    DeniedBeforeIs(s, KeyOf(s, c).pos, call);
    ClaimRows(s, p, g, c, w);
    AcceptedIsOk(s, p, g, c, w);
    at := SomeDenial(s.approvals, KeyOf(s, c).pos, call, w.cited);
  }

  /** A message on the normal route fails for want of the elevated one. */
  lemma MessageFails(s: State, p: Persona, g: nat, c: ClaimRequest, w: World, call: Call)
    requires FirstClaim(s, p, g, c, call) && call.route == Normal && call.tool == MessageSend && !DeniedBefore(s, KeyOf(s, c).pos, call)
    ensures var (s', reply) := Claim(s, p, g, c, w); FailsWith(s, s', reply, KeyOf(s, c), ElevatedRouteRequired)
  {
    DeniedBeforeIs(s, KeyOf(s, c).pos, call);
    hide Claim, Flat, Experienced, NoteJournal, DecidedEvents, PlaceOf, WasDenied;
    ClaimRows(s, p, g, c, w);
    AcceptedIsOk(s, p, g, c, w);
  }

  lemma AcceptedIsOk(s: State, p: Persona, g: nat, c: ClaimRequest, w: World)
    requires ClaimBody(s, p, g, c, w).Got?
    ensures Claim(s, p, g, c, w).1 == Ok
  {
    hide ClaimBody, JournalClaim, ClaimEvents, PlaceOf;
  }

  /** An effect that breaks in passing leaves the whole store as it was, the grant
      unspent; a granted one that refuses fails its operation and spends the grant. */
  lemma EffectFails(s: State, p: Persona, g: nat, c: ClaimRequest, w: World, call: Call)
    requires Effects.Inv(s) && InPlan(s, p, g, c, call)
    ensures var (s', reply) := Claim(s, p, g, c, w); var key := KeyOf(s, c);
            && ((w.effect.Breaks? && key !in s.ops && call.route == Normal && call.tool != MessageSend && !DeniedBefore(s, key.pos, call)) ==>
                  s' == s && reply == Refused(500))
            && ((key in s.ops && s.ops[key].status == AwaitingApproval && key.pos in s.approvals
                 && s.approvals[key.pos].status == Approved && !s.approvals[key.pos].consumed) ==>
                  && (w.effect.Breaks? ==> s' == s && reply == Refused(500))
                  && (w.effect.Refuses? ==>
                        && reply == Ok && s'.trail == s.trail && key.pos in s'.approvals && s'.approvals[key.pos].consumed
                        && key in s'.ops && s'.ops[key].status == OpFailed && s'.ops[key].receipt == Some(Error(w.effect.message))))
  {
    hide Claim, Flat, Experienced, NoteJournal, DecidedEvents, PlaceOf, WasDenied, Effects.Inv;
    var key := KeyOf(s, c);
    DeniedBeforeIs(s, key.pos, call);
    if key in s.ops { OpRequest(s, key, call); }
    ThrownClaim(s, p, g, c, w);
    if ClaimBody(s, p, g, c, w).Got? {
      ClaimRows(s, p, g, c, w);
      AcceptedIsOk(s, p, g, c, w);
    }
  }

  lemma ThrownClaim(s: State, p: Persona, g: nat, c: ClaimRequest, w: World)
    ensures ClaimBody(s, p, g, c, w) == Threw(Refused(500)) ==> Claim(s, p, g, c, w) == (s, Refused(500))
  {
    hide ClaimBody;
  }

  /** An operation another generation left running is taken over: it becomes this
      turn's, runs nothing again, and is handed out to be carried on. */
  lemma RunningIsTakenOver(s: State, p: Persona, g: nat, c: ClaimRequest, w: World, call: Call)
    requires InPlan(s, p, g, c, call) && KeyOf(s, c) in s.ops && s.ops[KeyOf(s, c)].request == c.request
    requires s.ops[KeyOf(s, c)].status == OpRunning && s.ops[KeyOf(s, c)].generation != g
    ensures var s', key := Claim(s, p, g, c, w).0, KeyOf(s, c);
            && ClaimBody(s, p, g, c, w).Got? && ClaimBody(s, p, g, c, w).created
            && s'.trail == s.trail && s'.approvals == s.approvals
            && s'.ops == s.ops[key := s.ops[key].(generation := g, turn := c.turn)]
  {
    hide Claim, Flat;
    ClaimRows(s, p, g, c, w);
  }

  /** A note that runs is in the journal, by its turn. */
  lemma NoteIsJournaled(s: State, key: OpKey, call: Call, op: Operation, response: Payload)
    requires call.tool == JournalNote
    ensures Journaled(ApplyTool(s, key, call, op, response).journal.log, |s.journal.log|, key.pos.persona, op.turn, Note(call.request))
  {
    var log := ApplyTool(s, key, call, op, response).journal.log;
    assert log[|log| - 1].body == Note(call.request);
  }

  // ------------------------------------------------------------ what else is answered

  /** A round is appended exactly when the live turn sends the next one, storable; a
      round already there is accepted again exactly as it is. */
  lemma SaveAnswers(s: State, p: Persona, g: nat, t: TurnId, round: int, decision: Round, nul: bool)
    requires LiveTurn(s, p, g, t) && !nul
    ensures var s', reply := SavePlan(s, p, g, t, round, decision, nul), SavePlanReply(s, p, g, t, round, decision, nul);
            var key := s.turns[t].key; var plan := PlanOf(s, key);
            && (round == |plan| ==> reply == Ok && s' == s.(plans := s.plans[key := plan + [decision]]))
            && (round != |plan| ==> s' == s && (reply == Ok <==> 0 <= round < |plan| && plan[round] == decision))
  {
  }

  /** A decision is accepted from the active persona's own human for an approval it
      has: the first time, or again as it was; refused it changes nothing. */
  lemma ResolveAnswers(s: State, p: Persona, pos: Position, d: Decision)
    ensures ResolveReply(s, p, pos, d, true) == Ok <==>
            && p in s.personas && s.personas[p].authority == Active && s.personas[p].human == Some(d.decider)
            && pos in s.approvals && pos.persona == p && (s.approvals[pos].status == Pending || s.approvals[pos].decision == Some(d))
    ensures ResolveReply(s, p, pos, d, true) == Ok && s.approvals[pos].status != Pending ==> Resolve(s, p, pos, d, true) == s
    ensures ResolveReply(s, p, pos, d, true) != Ok ==> Resolve(s, p, pos, d, true) == s
  {
  }

  /** A commit gets through exactly under the lease, for a running turn of the persona
      and its input, with storable records whose receipts name known inputs, and with
      a wait that is one; a turn already closed is answered from its stored commit. */
  lemma CommitAnswers(s: State, p: Persona, t: TurnId, g: nat, req: CommitRequest)
    requires t in s.turns && s.turns[t].status == Running
    ensures CommitReply(s, p, t, g, req) == Ok <==>
            && p in s.leases && s.leases[p].generation == g && s.turns[t].key.persona == p
            && !req.unstorable
            && (forall e :: e in req.events && e.InputReceived? ==>
                  e.input.Some? && exists k :: 0 <= k < |s.inputs| && s.inputs[k].key == InputKey(p, e.input.value))
            && (exists k :: 0 <= k < |s.inputs| && s.inputs[k].key == s.turns[t].key)
            && (req.outcome == ToAwait && req.wait.Some? ==>
                  var w := req.wait.value;
                  w.budgetKind && w.named && w.estimate.Some? && w.estimate.value.inputTokens >= 0
                  && (w.estimate.value.outputBound.Some? ==> w.estimate.value.outputBound.value >= 0))
    ensures CommitReply(s, p, t, g, req) == Ok ==> Commits(s, p, t, g, req) && !MalformedWait(req)
  {
    forall e | e in req.events && e.InputReceived?
      ensures !BadReceipt(s, p, e) <==> e.input.Some? && exists k :: 0 <= k < |s.inputs| && s.inputs[k].key == InputKey(p, e.input.value)
    {
    }
  }

  /** A budget is set or removed for its own funding only. */
  lemma BudgetIsSet(s: State, fund: Funding, b: Option<Budget>)
    ensures var budgets := SetBudget(s, fund, b).ledger.budgets;
            && (if b.Some? then fund in budgets && budgets[fund] == b.value else fund !in budgets)
            && forall f :: f != fund ==> (f in budgets <==> f in s.ledger.budgets) && (f in budgets ==> budgets[f] == s.ledger.budgets[f])
  {
    hide Fitting, Restated;
  }

  /** Re-evaluating a funding deletes exactly its waits that no longer overdraw it, and
      requeues exactly those of their inputs that wait and that no approval holds. */
  lemma ResumeAnswers(s: State, fund: Funding)
    ensures var s' := ResumeWaits(s, fund);
            && (forall k :: k in s'.waits <==>
                  k in s.waits && (s.waits[k].funding != fund || Overdrawn(s.ledger, fund, s.waits[k].estimate)))
            && |s'.inputs| == |s.inputs|
            && (forall n :: 0 <= n < |s.inputs| ==>
                  var i, i' := s.inputs[n], s'.inputs[n];
                  if i.status == Waiting && i.key in s.waits && i.key !in s'.waits && !Undecided(s.approvals, i.key)
                  then i'.status == Queued && i'.key == i.key && i'.waitingSince.None?
                  else i' == i)
  {
    hide Spent, HeldSum, PriceEstimate;
    var s' := ResumeWaits(s, fund);
    forall n | 0 <= n < |s.inputs| ensures PendingFor(s.approvals, s.inputs[n].key) <==> Undecided(s.approvals, s.inputs[n].key) {
      ParksIffBlocked(s, s.inputs[n].key, None);
    }
    hide PendingFor, Undecided;
    forall k | k in s.waits ensures Fits(s.ledger, fund, s.waits[k].estimate) <==> !Overdrawn(s.ledger, fund, s.waits[k].estimate) {}
    hide Fits, Overdrawn;
  }
}
