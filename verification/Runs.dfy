/** Whole runs of the store, from the empty store through any interleaving of
    writers, crashes, tools and human decisions: what no later step undoes, and
    what holds in every reachable state. */
module Runs {
  import opened Common
  import opened Plan
  import opened Journal
  import opened Ledger
  import opened Store
  import Effects
  import Lifecycle
  import Records

  // ------------------------------------------------------------ nothing is undone

  ghost predicate GenerationsForward(g: map<Persona, nat>, g': map<Persona, nat>) {
    forall p :: p in g ==> p in g' && g[p] <= g'[p]
  }

  /** No input disappears or changes place, and done is absorbing. */
  ghost predicate InputsForward(a: seq<Input>, b: seq<Input>) {
    && |a| <= |b|
    && forall k :: 0 <= k < |a| ==> b[k].key == a[k].key && (a[k].status == Done ==> b[k] == a[k])
  }

  /** A turn keeps its input, its generation and its attempt; once it is not
      running it never changes again. */
  ghost predicate TurnsForward(a: map<TurnId, Turn>, b: map<TurnId, Turn>) {
    forall t :: t in a ==>
      && t in b && b[t].key == a[t].key && b[t].generation == a[t].generation && b[t].attempt == a[t].attempt
      && (a[t].status != Running ==> b[t] == a[t])
  }

  /** A stored commit stays as it is, and a new one closed its turn. */
  ghost predicate CommitsForward(a: map<TurnId, CommitRequest>, b: map<TurnId, CommitRequest>, turns: map<TurnId, Turn>) {
    && (forall t :: t in a ==> t in b && b[t] == a[t])
    && (forall t :: t in b && t !in a ==> t in turns && turns[t].status != Running)
  }

  /** Recorded rounds are never replaced. */
  ghost predicate PlansForward(a: map<InputKey, seq<Round>>, b: map<InputKey, seq<Round>>) {
    forall k :: k in a ==> k in b && a[k] <= b[k]
  }

  /** A finished operation keeps its receipt for good. */
  ghost predicate OpsForward(a: map<OpKey, Operation>, b: map<OpKey, Operation>) {
    forall k :: k in a ==>
      && k in b && b[k].id == a[k].id && b[k].request == a[k].request
      && (a[k].status == OpDone || a[k].status == OpFailed ==> b[k] == a[k])
  }

  /** A resolved decision never changes, and a spent grant stays spent. */
  ghost predicate ApprovalsForward(a: map<Position, Approval>, b: map<Position, Approval>) {
    forall pos :: pos in a ==>
      && pos in b && b[pos].call == a[pos].call && b[pos].operation == a[pos].operation
      && (a[pos].decision.Some? ==> b[pos].decision == a[pos].decision && b[pos].status == a[pos].status)
      && (a[pos].consumed ==> b[pos].consumed)
  }

  /** A bound human is never replaced. */
  ghost predicate PersonasForward(a: map<Persona, PersonaRow>, b: map<Persona, PersonaRow>) {
    forall p :: p in a ==> p in b && (a[p].human.Some? ==> b[p].human == a[p].human)
  }

  /** The decision was taken by the human bound to its persona. */
  predicate ByBoundHuman(h: Happening, personas: map<Persona, PersonaRow>) {
    h.Decided? ==> h.pos.persona in personas && personas[h.pos.persona].human == Some(h.decision.decider)
  }

  ghost predicate TrailForward(a: seq<Happening>, b: seq<Happening>, personas: map<Persona, PersonaRow>) {
    a <= b && forall j :: |a| <= j < |b| ==> ByBoundHuman(b[j], personas)
  }

  /** What no step undoes, whatever its caller does. */
  ghost predicate Steady(s: State, s': State) {
    && PersonasForward(s.personas, s'.personas)
    && GenerationsForward(s.generations, s'.generations)
    && InputsForward(s.inputs, s'.inputs)
    && PlansForward(s.plans, s'.plans)
    && OpsForward(s.ops, s'.ops)
    && ApprovalsForward(s.approvals, s'.approvals)
    && Extends(s.journal, s'.journal)
    && FactsGrow(s.ledger.facts, s'.ledger.facts)
    && TrailForward(s.trail, s'.trail, s'.personas)
    && s.clock <= s'.clock
  }

  /** What no step undoes while turn ids are fresh: finished turns and commits. */
  ghost predicate Turned(s: State, s': State) {
    TurnsForward(s.turns, s'.turns) && CommitsForward(s.commits, s'.commits, s'.turns)
  }

  ghost predicate Forward(s: State, s': State) { Steady(s, s') && Turned(s, s') }

  lemma FactsForwardTransitive(a: seq<Fact>, b: seq<Fact>, c: seq<Fact>)
    requires FactsGrow(a, b) && FactsGrow(b, c)
    ensures FactsGrow(a, c)
  {
    forall k | 0 <= k < |a| ensures Up(a[k], c[k]) { UpTransitive(a[k], b[k], c[k]); }
  }

  lemma PlansForwardTransitive(a: map<InputKey, seq<Round>>, b: map<InputKey, seq<Round>>, c: map<InputKey, seq<Round>>)
    requires PlansForward(a, b) && PlansForward(b, c)
    ensures PlansForward(a, c)
  {
    forall k | k in a ensures k in c && a[k] <= c[k] { assert a[k] <= b[k] <= c[k]; }
  }

  lemma ForwardTransitive(a: State, b: State, c: State)
    requires Forward(a, b) && Forward(b, c)
    ensures Forward(a, c)
  {
    hide Steady;
    SteadyTransitive(a, b, c);
    TurnedTransitive(a, b, c);
  }

  lemma TurnedTransitive(a: State, b: State, c: State)
    requires Turned(a, b) && Turned(b, c)
    ensures Turned(a, c)
  {
  }

  lemma SteadyTransitive(a: State, b: State, c: State)
    requires Steady(a, b) && Steady(b, c)
    ensures Steady(a, c)
  {
    hide Extends;
    FactsForwardTransitive(a.ledger.facts, b.ledger.facts, c.ledger.facts);
    PlansForwardTransitive(a.plans, b.plans, c.plans);
    ExtendsTransitive(a.journal, b.journal, c.journal);
    TrailForwardTransitive(a.trail, b.trail, c.trail, b.personas, c.personas);
  }

  lemma TrailForwardTransitive(a: seq<Happening>, b: seq<Happening>, c: seq<Happening>, pb: map<Persona, PersonaRow>, pc: map<Persona, PersonaRow>)
    requires TrailForward(a, b, pb) && TrailForward(b, c, pc) && PersonasForward(pb, pc)
    ensures TrailForward(a, c, pc)
  {
    forall j | |a| <= j < |c| ensures ByBoundHuman(c[j], pc) {
      if j < |b| { assert c[j] == b[j]; }
    }
  }

  lemma Still(s: State)
    ensures Forward(s, s)
  {
  }

  // ------------------------------------------------------------ the journal grows

  /** Records are only added, and numbers and receipts stay in order. */
  ghost predicate Extends(j: Journal, j': Journal) { j.log <= j'.log && (Kept(j) ==> Kept(j')) }

  lemma ExtendsTransitive(a: Journal, b: Journal, c: Journal)
    requires Extends(a, b) && Extends(b, c)
    ensures Extends(a, c)
  {
    assert a.log <= b.log <= c.log;
  }

  lemma PushExtends(j: Journal, p: Persona, t: TurnId, e: EventInput)
    requires !e.InputReceived?
    ensures Extends(j, Push(j, p, t, e))
  {
    if Kept(j) { PushCounted(j, p, t, e); }
  }

  lemma EnsureExtends(j: Journal, p: Persona, t: TurnId, i: InputId)
    ensures Extends(j, EnsureReceived(j, p, t, i))
  {
    if InputKey(p, i) in j.received { return; }
    if Kept(j) { PushCounted(j, p, t, InputReceived(Some(i))); }
  }

  lemma {:induction false} AppendFreshExtends(j: Journal, p: Persona, t: TurnId, events: seq<EventInput>, seen: set<Experience>)
    requires forall e :: e in events ==> !e.InputReceived?
    ensures Extends(j, AppendFresh(j, p, t, events, seen))
    decreases |events|
  {
    hide Extends, Push;
    if events == [] { Unchanged(j); return; }
    assert events[0] in events;
    var key := ExperienceKey(events[0]);
    if key.Some? && key.value in seen {
      AppendFreshExtends(j, p, t, events[1..], seen);
      return;
    }
    PushExtends(j, p, t, events[0]);
    var j1, seen' := Push(j, p, t, events[0]), if key.Some? then seen + {key.value} else seen;
    AppendFreshExtends(j1, p, t, events[1..], seen');
    ExtendsTransitive(j, j1, AppendFresh(j1, p, t, events[1..], seen'));
  }

  lemma Unchanged(j: Journal)
    ensures Extends(j, j)
  {
  }

  lemma ExperiencedExtends(j: Journal, owners: Owners, t: TurnId, key: InputKey, events: seq<EventInput>)
    requires forall e :: e in events ==> !e.InputReceived?
    ensures Extends(j, Experienced(j, owners, t, key, events))
  {
    hide Extends;
    var j1 := EnsureReceived(j, key.persona, t, key.input);
    EnsureExtends(j, key.persona, t, key.input);
    AppendFreshExtends(j1, key.persona, t, events, Lineage(j1.log, owners, key));
    ExtendsTransitive(j, j1, Experienced(j, owners, t, key, events));
  }

  lemma {:induction false} AppendCommittedExtends(j: Journal, p: Persona, t: TurnId, events: seq<EventInput>, seen: set<Experience>)
    requires forall e :: e in events && e.InputReceived? ==> e.input.Some?
    ensures Extends(j, AppendCommitted(j, p, t, events, seen))
    decreases |events|
  {
    hide Extends, Push, EnsureReceived;
    if events == [] { Unchanged(j); return; }
    assert events[0] in events;
    if events[0].InputReceived? {
      var j1 := EnsureReceived(j, p, t, events[0].input.value);
      EnsureExtends(j, p, t, events[0].input.value);
      AppendCommittedExtends(j1, p, t, events[1..], seen);
      ExtendsTransitive(j, j1, AppendCommitted(j1, p, t, events[1..], seen));
      return;
    }
    var key := ExperienceKey(events[0]);
    if key.Some? && key.value in seen {
      AppendCommittedExtends(j, p, t, events[1..], seen);
      return;
    }
    PushExtends(j, p, t, events[0]);
    var j1, seen' := Push(j, p, t, events[0]), if key.Some? then seen + {key.value} else seen;
    AppendCommittedExtends(j1, p, t, events[1..], seen');
    ExtendsTransitive(j, j1, AppendCommitted(j1, p, t, events[1..], seen'));
  }

  lemma {:induction false} MarkAllExtends(j: Journal, p: Persona, turns: map<TurnId, Turn>, ts: set<TurnId>)
    requires forall t :: t in ts ==> t in turns
    ensures Extends(j, MarkAll(j, p, turns, ts))
    decreases |ts|
  {
    hide Extends, Push;
    Unchanged(j);
    if !exists t :: t in ts { return; }
    var t := Pick(ts);
    var j1 := MarkInterrupted(j, p, t, turns[t].key.input);
    PushExtends(j, p, t, TurnPaused(ByCrash));
    assert Extends(j, j1);
    MarkAllExtends(j1, p, turns, ts - {t});
    ExtendsTransitive(j, j1, MarkAll(j1, p, turns, ts - {t}));
  }

  lemma NoteExtends(j: Journal, turns: map<TurnId, Turn>, p: Persona, t: TurnId, text: Payload)
    ensures Extends(j, NoteJournal(j, turns, p, t, text))
  {
    hide Extends, Push, EnsureReceived;
    Unchanged(j);
    var j1 := if t in turns then EnsureReceived(j, p, t, turns[t].key.input) else j;
    if t in turns { EnsureExtends(j, p, t, turns[t].key.input); }
    PushExtends(j1, p, t, Note(text));
    ExtendsTransitive(j, j1, NoteJournal(j, turns, p, t, text));
  }

  // ------------------------------------------------------------------ each step

  /** What a claim can change: operations, approvals, the journal, the trail. */
  ghost predicate ClaimForward(s: State, s': State) {
    && OpsForward(s.ops, s'.ops) && ApprovalsForward(s.approvals, s'.approvals)
    && Extends(s.journal, s'.journal) && s.trail <= s'.trail
    && (forall j :: |s.trail| <= j < |s'.trail| ==> s'.trail[j].Applied?)
    && s'.personas == s.personas && s'.generations == s.generations && s'.inputs == s.inputs && s'.turns == s.turns
    && s'.commits == s.commits && s'.plans == s.plans && s'.ledger == s.ledger && s'.clock == s.clock
  }

  lemma ClaimForwardIsForward(s: State, s': State)
    requires ClaimForward(s, s')
    ensures Forward(s, s')
  {
  }

  lemma WithExperienceForward(s: State, t: TurnId, events: seq<EventInput>)
    requires t in s.turns && forall e :: e in events ==> !e.InputReceived?
    ensures ClaimForward(s, WithExperience(s, t, events))
  {
    hide Experienced, Extends;
    Unchanged(s.journal);
    ExperiencedExtends(s.journal, OwnersOf(s.turns), t, s.turns[t].key, events);
  }

  lemma ApplyToolForward(s: State, key: OpKey, call: Call, op: Operation, response: Payload)
    requires key in s.ops ==> s.ops[key].status == AwaitingApproval && op.id == s.ops[key].id && op.request == s.ops[key].request
    ensures ClaimForward(s, ApplyTool(s, key, call, op, response))
  {
    hide NoteJournal, Extends;
    Unchanged(s.journal);
    NoteExtends(s.journal, s.turns, key.pos.persona, op.turn, call.request);
    if call.tool == JournalNote { return; }
  }

  lemma FailForward(s: State, key: OpKey, op: Operation, receipt: Receipt)
    requires key in s.ops ==> s.ops[key].status == AwaitingApproval && op.id == s.ops[key].id && op.request == s.ops[key].request
    ensures ClaimForward(s, Fail(s, key, op, receipt))
  {
  }

  lemma SpendForward(s: State, c: ClaimRequest, key: OpKey)
    requires c.turn in s.turns && key.pos in s.approvals
    ensures ClaimForward(s, Spend(s, c, key)) && Spend(s, c, key).ops == s.ops
  {
    hide Experienced, Extends;
    var place := PlaceOf(PlanOf(s, s.turns[c.turn].key), c.index);
    Records.NoReceipts(place, key.pos, Failure(0, false));
    ExperiencedExtends(s.journal, OwnersOf(s.turns), c.turn, s.turns[c.turn].key, DecidedEvents(place));
  }

  lemma ClaimForwardTransitive(a: State, b: State, c: State)
    requires ClaimForward(a, b) && ClaimForward(b, c)
    ensures ClaimForward(a, c)
  {
    ExtendsTransitive(a.journal, b.journal, c.journal);
    assert a.trail <= b.trail <= c.trail;
  }

  lemma GatedForward(s: State, c: ClaimRequest, w: World, key: OpKey, call: Call)
    requires c.turn in s.turns && key in s.ops && s.ops[key].status == AwaitingApproval
    ensures var r := ClaimGated(s, c, w, key, call, s.ops[key]); r.Got? ==> ClaimForward(s, r.state)
  {
    hide Spend, ApplyTool, Fail, ClaimForward;
    var op := s.ops[key];
    if key.pos !in s.approvals { return; }
    var a := s.approvals[key.pos];
    if a.status != Approved || a.consumed { StillClaim(s); return; }
    if w.effect.Breaks? { return; }
    var s1 := Spend(s, c, key);
    SpendForward(s, c, key);
    if w.effect.Works? {
      ApplyToolForward(s1, key, call, op, w.effect.response);
      ClaimForwardTransitive(s, s1, ApplyTool(s1, key, call, op, w.effect.response));
      return;
    }
    FailForward(s1, key, op, Error(w.effect.message));
    ClaimForwardTransitive(s, s1, Fail(s1, key, op, Error(w.effect.message)));
  }

  lemma StillClaim(s: State)
    ensures ClaimForward(s, s)
  {
  }

  lemma ExistingForward(s: State, g: nat, c: ClaimRequest, w: World, key: OpKey, call: Call)
    requires c.turn in s.turns && key in s.ops
    ensures var r := ClaimExisting(s, g, c, w, key, call); r.Got? ==> ClaimForward(s, r.state)
  {
    hide ClaimGated;
    var op := s.ops[key];
    if op.request != c.request { return; }
    if op.status == OpRunning && op.generation != g { return; }
    if op.status != AwaitingApproval { return; }
    GatedForward(s, c, w, key, call);
  }

  lemma ElevatedForward(s: State, g: nat, c: ClaimRequest, w: World, key: OpKey, call: Call)
    requires key !in s.ops
    ensures ClaimForward(s, ClaimElevated(s, g, c, w, key, call).state)
  {
    if w.malformed.Some? { return; }
    if key.pos in s.approvals { return; }
  }

  lemma NormalForward(s: State, g: nat, c: ClaimRequest, w: World, key: OpKey, call: Call)
    requires c.turn in s.turns && key !in s.ops
    ensures var r := ClaimNormal(s, g, c, w, key, call); r.Got? ==> ClaimForward(s, r.state)
  {
    hide ApplyTool, Fail, WithExperience;
    var op := Operation(c.operation, c.turn, c.request, OpRunning, None, g);
    if WasDenied(s.approvals, key.pos, call) {
      FailForward(s, key, op, DeniedBy(SomeDenial(s.approvals, key.pos, call, w.cited)));
      return;
    }
    if call.tool == MessageSend {
      FailForward(s, key, op, ElevatedRouteRequired);
      return;
    }
    if !w.effect.Works? { return; }
    var place := PlaceOf(PlanOf(s, s.turns[c.turn].key), c.index);
    var events := DecidedEvents(place);
    var s1 := WithExperience(s, c.turn, events);
    Records.NoReceipts(place, key.pos, Failure(0, false));
    WithExperienceForward(s, c.turn, events);
    OnlyJournal(s, c.turn, events);
    ApplyToolForward(s1, key, call, op, w.effect.response);
    ClaimForwardTransitive(s, s1, ApplyTool(s1, key, call, op, w.effect.response));
  }

  lemma OnlyJournal(s: State, t: TurnId, events: seq<EventInput>)
    requires t in s.turns
    ensures WithExperience(s, t, events).ops == s.ops
  {
  }

  lemma ClaimBodyForward(s: State, p: Persona, g: nat, c: ClaimRequest, w: World)
    ensures var r := ClaimBody(s, p, g, c, w); r.Got? ==> ClaimForward(s, r.state)
  {
    hide ClaimForward, ClaimExisting, ClaimElevated, ClaimNormal;
    var r := ClaimBody(s, p, g, c, w);
    if !r.Got? { return; }
    var call := Flat(PlanOf(s, s.turns[c.turn].key))[c.index];
    var key := OpKey(Position(p, s.turns[c.turn].key.input, c.index), c.tool);
    if key in s.ops { ExistingForward(s, g, c, w, key, call); return; }
    if call.route == Elevated { ElevatedForward(s, g, c, w, key, call); return; }
    NormalForward(s, g, c, w, key, call);
  }

  lemma RejectedForward(s: State, p: Persona, g: nat, c: ClaimRequest, cause: Payload)
    ensures ClaimForward(s, JournalRejected(s, p, g, c, cause))
  {
    hide PlaceOf, ResultEvents, WithExperience, ClaimForward;
    StillClaim(s);
    if !LiveTurn(s, p, g, c.turn) { return; }
    var place := PlaceOf(PlanOf(s, s.turns[c.turn].key), c.index);
    if place.None? || place.value.call.tool != c.tool || place.value.call.request != c.request { return; }
    Records.NoReceipts(place, Position(0, 0, 0), Failure(cause, false));
    WithExperienceForward(s, c.turn, ResultEvents(place, Failure(cause, false)));
  }

  lemma JournalClaimForward(s: State, t: TurnId, events: seq<EventInput>)
    requires t in s.turns && forall e :: e in events ==> !e.InputReceived?
    ensures ClaimForward(s, JournalClaim(s, t, events))
  {
    hide WithExperience, ClaimForward;
    StillClaim(s);
    if events == [] { return; }
    WithExperienceForward(s, t, events);
  }

  lemma ClaimStepForward(s: State, p: Persona, g: nat, c: ClaimRequest, w: World)
    ensures Forward(s, Claim(s, p, g, c, w).0)
  {
    hide ClaimBody, JournalRejected, JournalClaim, ClaimEvents, PlaceOf, ClaimForward, Forward;
    Still(s);
    var r := ClaimBody(s, p, g, c, w);
    ClaimBodyForward(s, p, g, c, w);
    if r.Threw? {
      RejectedForward(s, p, g, c, w.cause);
      ClaimForwardIsForward(s, JournalRejected(s, p, g, c, w.cause));
      if r.reply == Refused(400) { return; }
      return;
    }
    ClaimForwardIsForward(s, r.state);
    if c.turn !in r.state.turns { return; }
    var place := PlaceOf(PlanOf(r.state, r.state.turns[c.turn].key), c.index);
    var events := ClaimEvents(place, r.key, r.op, r.approval);
    Records.ClaimEventsNoReceipts(place, r.key, r.op, r.approval);
    JournalClaimForward(r.state, c.turn, events);
    ClaimForwardTransitive(s, r.state, JournalClaim(r.state, c.turn, events));
    ClaimForwardIsForward(s, JournalClaim(r.state, c.turn, events));
  }

  lemma WakesForward(a: seq<Input>, b: seq<Input>, now: int)
    requires Lifecycle.OnlyWakes(a, b, now)
    ensures InputsForward(a, b)
  {
  }

  lemma PendingUndecided(s: State, pos: Position)
    requires Effects.Inv(s) && pos in s.approvals && s.approvals[pos].status == Pending
    ensures s.approvals[pos].decision.None?
  {
  }

  lemma ResolveForward(s: State, p: Persona, pos: Position, d: Decision, valid: bool)
    requires Effects.Inv(s)
    ensures Forward(s, Resolve(s, p, pos, d, valid))
  {
    hide Effects.Inv, DecidedInputs, InputsForward, Extends, Push;
    Still(s);
    if !Decides(s, p, pos, d, valid) { return; }
    PendingUndecided(s, pos);
    PushExtends(s.journal, p, s.approvals[pos].turn, ApprovalDecided(pos, d.approve, d.decider));
    Lifecycle.DecisionWakes(s.inputs, InputKey(p, pos.input), s.clock);
    WakesForward(s.inputs, DecidedInputs(s.inputs, InputKey(p, pos.input), s.clock), s.clock);
    if d.approve { return; }
  }

  /** What changes when waits are re-evaluated: inputs that wake, and the rows. */
  lemma WakeForward(s: State, freed: set<InputKey>)
    ensures Forward(s, Wake(s, freed))
  {
    hide Woken;
    Lifecycle.WakeWakes(s, freed);
    WakesForward(s.inputs, Wake(s, freed).inputs, s.clock);
  }

  lemma HumanForward(s: State, h: Human)
    ensures Forward(s, ResumeForHuman(s, h))
  {
    WakeForward(s, set k | k in s.waits && k.persona in s.personas && s.personas[k.persona].human == Some(h));
  }

  lemma ResumeForward(s: State, l: Ledger, fund: Funding)
    requires FactsGrow(s.ledger.facts, l.facts)
    ensures Forward(s, ResumeWaits(s.(ledger := l), fund))
  {
    hide Wake, Fitting, Restated, Forward;
    var s1 := s.(ledger := l);
    var s2 := s1.(waits := map k | k in s.waits :: Restated(l, s.waits[k], fund));
    MoneyForward(s, l, s2.waits);
    WakeForward(s2, Fitting(s1, fund));
    ForwardTransitive(s, s2, Wake(s2, Fitting(s1, fund)));
  }

  lemma MoneyForward(s: State, l: Ledger, waits: map<InputKey, WaitRow>)
    requires FactsGrow(s.ledger.facts, l.facts)
    ensures Forward(s, s.(ledger := l).(waits := waits))
  {
  }

  lemma BudgetForward(s: State, fund: Funding, b: Option<Budget>)
    ensures Forward(s, SetBudget(s, fund, b))
  {
    hide ResumeWaits;
    var budgets := match b case Some(v) => s.ledger.budgets[fund := v] case None => s.ledger.budgets - {fund};
    ResumeForward(s, s.ledger.(budgets := budgets), fund);
  }

  lemma RecordForward(s: State, p: Persona, req: RecordRequest)
    ensures Forward(s, RecordUsage(s, p, req))
  {
    hide ResumeWaits, Record;
    RecordMovesUp(s.ledger, p, req);
    var r := Record(s.ledger, p, req);
    if r.resume { ResumeForward(s, r.ledger, req.funding); return; }
  }

  lemma AdmitForward(s: State, p: Persona, g: nat, req: AdmitRequest)
    ensures Forward(s, AdmitUsage(s, p, g, req))
  {
    Still(s);
    if !Holds(s, p, g) { return; }
  }

  lemma RecoverForward(s: State, p: Persona, g: nat)
    ensures Forward(s, Recover(s, p, g))
  {
    hide MarkAll, Reconcile;
    Still(s);
    if !Holds(s, p, g) { return; }
    MarkAllExtends(s.journal, p, s.turns, RunningTurns(s.turns, p));
    ReconcileMovesUp(s.ledger, BeforeGeneration(p, g), 0);
  }

  lemma LoadForward(s: State, p: Persona, g: nat, t: TurnId)
    ensures Steady(s, Load(s, p, g, t))
    ensures t !in s.turns ==> Turned(s, Load(s, p, g, t))
  {
    hide Attempts;
    Still(s);
    if LoadIndex(s, p, g).None? { return; }
  }

  lemma PlanForward(s: State, p: Persona, g: nat, t: TurnId, round: int, decision: Round, nul: bool)
    ensures Forward(s, SavePlan(s, p, g, t, round, decision, nul))
  {
    Still(s);
    if !LiveTurn(s, p, g, t) || nul || round != |PlanOf(s, s.turns[t].key)| { return; }
  }

  /** A stored commit belongs to a turn that is closed. */
  ghost predicate CommitsClosed(s: State) {
    forall t :: t in s.commits ==> t in s.turns && s.turns[t].status != Running
  }

  lemma CommitForward(s: State, p: Persona, t: TurnId, g: nat, req: CommitRequest)
    requires Lifecycle.Inv(s)
    ensures Steady(s, Commit(s, p, t, g, req))
    ensures CommitsClosed(s) ==> Turned(s, Commit(s, p, t, g, req))
  {
    hide Reconcile, Fits, CommitRefused, PendingFor, Committed, Extends;
    Still(s);
    if !Commits(s, p, t, g, req) { return; }
    CommitJournalExtends(s, p, t, req);
    ReconcileMovesUp(s.ledger, OfTurn(p, t), 0);
    var k := FindInput(s.inputs, s.turns[t].key).value;
    RunningIsClaimed(s, t, k);
    CommitRows(s, p, t, g, req, k);
  }

  lemma RunningIsClaimed(s: State, t: TurnId, k: nat)
    requires Lifecycle.Lives(s.inputs, s.turns) && t in s.turns && s.turns[t].status == Running
    requires k < |s.inputs| && s.inputs[k].key == s.turns[t].key
    ensures s.inputs[k].status == Claimed
  {
    assert Lifecycle.HasClaim(s.inputs, t, s.turns[t]);
    var m :| 0 <= m < |s.inputs| && Lifecycle.ClaimedBy(s.inputs[m], t, s.turns[t]);
    assert m == k;
  }

  lemma CommitRows(s: State, p: Persona, t: TurnId, g: nat, req: CommitRequest, k: nat)
    requires Commits(s, p, t, g, req) && FindInput(s.inputs, s.turns[t].key) == Some(k)
    requires s.inputs[k].status == Claimed
    requires Extends(s.journal, CommitJournal(s, p, t, req))
    requires FactsGrow(s.ledger.facts, Reconcile(s.ledger, OfTurn(p, t), 0).facts)
    ensures Steady(s, Committed(s, p, t, g, req))
    ensures CommitsClosed(s) ==> Turned(s, Committed(s, p, t, g, req))
  {
    hide Reconcile, CommitJournal, DisposedInput, CommitWaits, CommitRefused, Extends;
    var s' := Committed(s, p, t, g, req);
    ClosedKeepsIdentity(s.turns[t], req);
    assert TurnsForward(s.turns, s'.turns);
    if MalformedWait(req) { return; }
    DisposedKey(s, s.inputs[k], s.turns[t].attempt, req);
  }

  lemma ClosedKeepsIdentity(t: Turn, req: CommitRequest)
    ensures var t' := ClosedTurn(t, req); t'.key == t.key && t'.generation == t.generation && t'.attempt == t.attempt
  {
  }

  lemma DisposedKey(s: State, i: Input, attempt: nat, req: CommitRequest)
    requires !MalformedWait(req)
    ensures DisposedInput(s, i, attempt, req).key == i.key
  {
    if req.outcome == ToComplete { return; }
    if req.outcome == ToFail { return; }
    if Parks(s, i.key, req.wait) { return; }
  }

  lemma CommitJournalExtends(s: State, p: Persona, t: TurnId, req: CommitRequest)
    requires t in s.turns && !CommitRefused(s, p, req)
    ensures Extends(s.journal, CommitJournal(s, p, t, req))
  {
    assert forall e :: e in req.events && e.InputReceived? ==> !BadReceipt(s, p, e);
    AppendCommittedExtends(s.journal, p, t, req.events, Lineage(s.journal.log, OwnersOf(s.turns), s.turns[t].key));
  }

  lemma LeaseForward(s: State, p: Persona, holder: int, g: nat, ttl: int)
    ensures Forward(s, Acquire(s, p, holder, ttl))
    ensures Forward(s, Renew(s, p, holder, g, ttl))
    ensures Forward(s, Release(s, p, holder, g))
  {
    Still(s);
    AcquireForward(s, p, holder, ttl);
    if !Holds(s, p, g) || s.leases[p].holder != holder { return; }
  }

  lemma AcquireForward(s: State, p: Persona, holder: int, ttl: int)
    ensures Forward(s, Acquire(s, p, holder, ttl))
  {
    Still(s);
    if !Grants(s, p, holder) { return; }
  }

  lemma InputForward(s: State, key: InputKey)
    ensures Forward(s, Enqueue(s, key))
  {
    Still(s);
    if FindInput(s.inputs, key).Some? { return; }
  }

  lemma QuietForward(s: State, step: Step)
    requires step.Tick? || step.AddPersona? || step.BindHuman? || step.SetAuthority? || step.Register?
    ensures Forward(s, Apply(s, step))
  {
    hide Forward, Personas, Claim, Resolve, Commit, CompleteOperation, Load, Recover, RecordUsage, SetBudget,
         ResumeForHuman, Acquire, Renew, Release, AdmitUsage, Enqueue, SavePlan;
    PersonasStep(s, step);
    match step {
      case Tick(ms) => ClockForward(s, ms);
      case Register(tool) => RegisteredForward(s, s.registered + {tool});
      case AddPersona(_, _) => RowsForward(s, Personas(s, step));
      case BindHuman(_, _) => RowsForward(s, Personas(s, step));
      case SetAuthority(_, _) => RowsForward(s, Personas(s, step));
    }
  }

  lemma ClockForward(s: State, ms: nat)
    ensures Forward(s, s.(clock := s.clock + ms))
  {
    Still(s);
  }

  lemma RegisteredForward(s: State, registered: set<Tool>)
    ensures Forward(s, s.(registered := registered))
  {
    Still(s);
  }

  lemma RowsForward(s: State, personas: map<Persona, PersonaRow>)
    requires PersonasForward(s.personas, personas)
    ensures Forward(s, s.(personas := personas))
  {
    Still(s);
  }

  lemma PersonasStep(s: State, step: Step)
    ensures PersonasForward(s.personas, Personas(s, step))
  {
  }

  /** No step undoes anything recorded; finished turns and stored commits too, as
      long as turn ids are fresh. */
  lemma StepForward(s: State, step: Step)
    requires Effects.Inv(s) && Lifecycle.Inv(s)
    ensures Steady(s, Apply(s, step))
    ensures CommitsClosed(s) && FreshTurn(s, step) ==> Turned(s, Apply(s, step))
  {
    hide Steady, Turned, Effects.Inv, Lifecycle.Inv, CommitsClosed, Claim, Resolve, Commit, CompleteOperation, Load, Recover,
         RecordUsage, SetBudget, ResumeForHuman, Acquire, Renew, Release, AdmitUsage, Enqueue, SavePlan, Personas;
    match step {
      case ClaimStep(p, g, c, w) => ClaimStepForward(s, p, g, c, w);
      case ResolveStep(p, pos, d, valid) => ResolveForward(s, p, pos, d, valid);
      case CommitStep(p, t, g, req) => CommitForward(s, p, t, g, req);
      case CompleteStep(p, key, id, g, answer, failed) => CompleteForward(s, p, key, id, g, answer, failed);
      case LoadStep(p, g, t) => LoadForward(s, p, g, t);
      case RecoverStep(p, g) => RecoverForward(s, p, g);
      case RecordStep(p, req) => RecordForward(s, p, req);
      case BudgetStep(fund, b) => BudgetForward(s, fund, b);
      case HumanStep(h) => HumanForward(s, h);
      case AcquireStep(p, holder, ttl) => AcquireForward(s, p, holder, ttl);
      case RenewStep(p, holder, g, ttl) => LeaseForward(s, p, holder, g, ttl);
      case ReleaseStep(p, holder, g) => LeaseForward(s, p, holder, g, 0);
      case AdmitStep(p, g, req) => AdmitForward(s, p, g, req);
      case AddInput(key) => InputForward(s, key);
      case SavePlanStep(p, g, t, round, decision, nul) => PlanForward(s, p, g, t, round, decision, nul);
      case Tick(_) => QuietForward(s, step);
      case AddPersona(_, _) => QuietForward(s, step);
      case BindHuman(_, _) => QuietForward(s, step);
      case SetAuthority(_, _) => QuietForward(s, step);
      case Register(_) => QuietForward(s, step);
    }
  }

  lemma CompleteForward(s: State, p: Persona, key: OpKey, id: int, g: nat, answer: Payload, failed: bool)
    requires Effects.Inv(s)
    ensures Forward(s, CompleteOperation(s, p, key, id, g, answer, failed))
  {
    Effects.CompleteFrame(s, p, key, id, g, answer, failed);
    Still(s);
  }

  // ------------------------------------------------------------------- every run

  /** What holds between two steps of any run at all. */
  ghost predicate Sturdy(s: State) {
    Effects.Inv(s) && Lifecycle.Inv(s) && Kept(s.journal) && TrailForward([], s.trail, s.personas)
  }

  /** What holds besides while turn ids are fresh. */
  ghost predicate Lined(s: State) { Records.Inv(s) && CommitsClosed(s) }

  /** What a run's callers may take care of. */
  datatype Care = FreshIds | AdmitFirst | SoundWaits

  ghost predicate Takes(care: set<Care>, s: State, step: Step) {
    && (FreshIds in care ==> FreshTurn(s, step))
    && (AdmitFirst in care ==> AdmitsFirst(s, step))
    && (SoundWaits in care ==> SoundWait(step))
  }

  /** A run whose callers take that care at every step; {} is any run. */
  ghost predicate Careful(care: set<Care>, s: State, steps: seq<Step>) {
    steps == [] || (var n := |steps| - 1;
                    Careful(care, s, steps[..n]) && Takes(care, Exec(s, steps[..n]), steps[n]))
  }

  lemma ClosedStays(s: State, s': State)
    requires CommitsClosed(s) && Turned(s, s')
    ensures CommitsClosed(s')
  {
  }

  lemma OwnersStay(s: State, s': State)
    requires TrailForward([], s.trail, s.personas) && Kept(s.journal) && Steady(s, s')
    ensures TrailForward([], s'.trail, s'.personas) && Kept(s'.journal)
  {
    TrailForwardTransitive([], s.trail, s'.trail, s.personas, s'.personas);
  }

  lemma SturdyStep(s: State, step: Step)
    requires Sturdy(s)
    ensures Sturdy(Apply(s, step)) && Steady(s, Apply(s, step))
  {
    hide Effects.Inv, Lifecycle.Inv, Apply, Steady, Kept, TrailForward;
    Effects.StepKeeps(s, step);
    Lifecycle.StepKeeps(s, step);
    StepForward(s, step);
    OwnersStay(s, Apply(s, step));
  }

  /** From a sturdy state every run whatsoever stays sturdy and undoes nothing. */
  lemma {:induction false} SturdyRun(s: State, steps: seq<Step>)
    requires Sturdy(s)
    ensures Sturdy(Exec(s, steps)) && Steady(s, Exec(s, steps))
  {
    hide Sturdy, Apply, Steady;
    Still(s);
    if steps == [] { return; }
    var n := |steps| - 1;
    SturdyRun(s, steps[..n]);
    SturdyStep(Exec(s, steps[..n]), steps[n]);
    SteadyTransitive(s, Exec(s, steps[..n]), Exec(s, steps));
  }

  lemma InitialSturdy()
    ensures Sturdy(Initial()) && Lined(Initial()) && Lifecycle.Books(Initial()) && Lifecycle.Matched(Initial())
  {
  }

  /** Every state of every run from the empty store is sturdy. */
  lemma RunSturdy(steps: seq<Step>)
    ensures Sturdy(Exec(Initial(), steps))
  {
    hide Sturdy, Exec, Initial, Steady;
    InitialSturdy();
    SturdyRun(Initial(), steps);
  }

  lemma LinedStep(s: State, step: Step)
    requires Sturdy(s) && Lined(s) && FreshTurn(s, step)
    ensures Lined(Apply(s, step)) && Turned(s, Apply(s, step))
  {
    hide Effects.Inv, Lifecycle.Inv, Records.Inv, CommitsClosed, Apply, Turned, Steady;
    Records.StepKeeps(s, step);
    StepForward(s, step);
    ClosedStays(s, Apply(s, step));
  }

  /** With fresh turn ids a run keeps every lineage in order and finished turns
      and stored commits as they are. */
  lemma {:induction false} LinedRun(care: set<Care>, s: State, steps: seq<Step>)
    requires Sturdy(s) && Lined(s) && FreshIds in care && Careful(care, s, steps)
    ensures Lined(Exec(s, steps)) && Turned(s, Exec(s, steps))
  {
    hide Sturdy, Lined, Apply, Turned, Steady, FreshTurn;
    Still(s);
    if steps == [] { return; }
    var n := |steps| - 1;
    LinedRun(care, s, steps[..n]);
    SturdyRun(s, steps[..n]);
    LinedStep(Exec(s, steps[..n]), steps[n]);
    TurnedTransitive(s, Exec(s, steps[..n]), Exec(s, steps));
  }

  /** With calls admitted first a run keeps its books. */
  lemma {:induction false} BooksRun(care: set<Care>, s: State, steps: seq<Step>)
    requires Sturdy(s) && Lifecycle.Books(s) && AdmitFirst in care && Careful(care, s, steps)
    ensures Lifecycle.Books(Exec(s, steps))
  {
    hide Lifecycle.Books, Apply, Steady, AdmitsFirst, Effects.Inv, Lifecycle.Inv, Kept, TrailForward;
    if steps == [] { return; }
    var n := |steps| - 1;
    BooksRun(care, s, steps[..n]);
    SturdyRun(s, steps[..n]);
    Lifecycle.StepKeeps(Exec(s, steps[..n]), steps[n]);
  }

  /** With fresh ids and well-formed waits a run keeps claims matched. */
  lemma {:induction false} MatchedRun(care: set<Care>, s: State, steps: seq<Step>)
    requires Sturdy(s) && Lifecycle.Matched(s) && {FreshIds, SoundWaits} <= care && Careful(care, s, steps)
    ensures Lifecycle.Matched(Exec(s, steps))
  {
    hide Lifecycle.Matched, Apply, Steady, FreshTurn, SoundWait, Effects.Inv, Lifecycle.Inv, Kept, TrailForward;
    if steps == [] { return; }
    var n := |steps| - 1;
    MatchedRun(care, s, steps[..n]);
    SturdyRun(s, steps[..n]);
    Lifecycle.StepKeeps(Exec(s, steps[..n]), steps[n]);
  }

  lemma {:induction false} ExecConcat(s: State, a: seq<Step>, b: seq<Step>)
    ensures Exec(s, a + b) == Exec(Exec(s, a), b)
  {
    if b == [] {
      assert a + b == a;
      return;
    }
    hide Apply;
    assert (a + b)[..|a + b| - 1] == a + b[..|b| - 1];
    ExecConcat(s, a, b[..|b| - 1]);
  }
}
