/** Concrete runs of the store that reach its rough edges. */
module Cases {
  import opened Common
  import opened Plan
  import opened Journal
  import opened Ledger
  import opened Store
  import opened Runs
  import opened Guarantees
  import Lifecycle

  const KEY := InputKey(1, 5)
  const ROW := Input(KEY, Claimed, Some(1), Some(9), None, None, 0, [])
  const LIVE := Turn(KEY, 1, 1, Running, None, None, None)

  /** A persona with a bound human, one input, a writer, and the input's turn. */
  function Start(): seq<Step> {
    [AddPersona(1, Some(7)), AddInput(KEY), AcquireStep(1, 3, 1000), LoadStep(1, 1, 9)]
  }

  function Started(): State {
    Initial().(personas := map[1 := PersonaRow(Some(7), Active)], inputs := [ROW],
               generations := map[1 := 1], leases := map[1 := Lease(1, 3, 1000)], turns := map[9 := LIVE])
  }

  const ADDED := Initial().(personas := map[1 := PersonaRow(Some(7), Active)])
  const ASKED := ADDED.(inputs := [Input(KEY, Queued, None, None, None, None, 0, [])])
  const LEASED := ASKED.(generations := map[1 := 1], leases := map[1 := Lease(1, 3, 1000)])

  lemma FirstSteps()
    ensures Apply(Initial(), AddPersona(1, Some(7))) == ADDED
    ensures Apply(ADDED, AddInput(KEY)) == ASKED
    ensures Apply(ASKED, AcquireStep(1, 3, 1000)) == LEASED
  {
    hide Exec;
  }

  lemma LoadsInput()
    ensures Apply(LEASED, LoadStep(1, 1, 9)) == Started()
  {
    assert LoadIndex(LEASED, 1, 1) == Some(0);
    assert Attempts(LEASED.turns, KEY) == 0;
  }

  lemma StartRuns()
    ensures Exec(Initial(), Start()) == Started()
  {
    hide Apply, Initial, Started;
    FirstSteps();
    LoadsInput();
    var a, b, c, d := AddPersona(1, Some(7)), AddInput(KEY), AcquireStep(1, 3, 1000), LoadStep(1, 1, 9);
    Snoc([], a);
    Snoc([a], b);
    Snoc([a, b], c);
    Snoc([a, b, c], d);
    assert [] + [a] == [a] && [a] + [b] == [a, b] && [a, b] + [c] == [a, b, c] && [a, b, c] + [d] == Start();
  }

  lemma Snoc(steps: seq<Step>, step: Step)
    ensures Exec(Initial(), steps + [step]) == Apply(Exec(Initial(), steps), step)
  {
    hide Apply;
    assert (steps + [step])[..|steps|] == steps;
  }

  function Ending(outcome: CommitOutcome, error: ErrorField, wait: Option<WaitRequest>): CommitRequest {
    CommitRequest(outcome, [], None, None, error, false, 0, wait, false)
  }

  /** A commit with a malformed wait ends with an input claimed by a closed turn. */
  lemma MalformedWaitStrandsClaim()
    ensures var wait := WaitRequest(false, true, FUND, None);
            var s := Exec(Initial(), Start() + [CommitStep(1, 9, 1, Ending(ToAwait, Undefined, Some(wait)))]);
            && |s.inputs| == 1 && s.inputs[0].status == Claimed && s.inputs[0].turn == Some(9)
            && 9 in s.turns && s.turns[9].status == Awaiting
            && !Lifecycle.Matched(s)
  {
    hide Exec, Initial;
    var req := Ending(ToAwait, Undefined, Some(WaitRequest(false, true, FUND, None)));
    StartRuns();
    Snoc(Start(), CommitStep(1, 9, 1, req));
    CommitsOnce(req);
    var s := Commit(Started(), 1, 9, 1, req);
    assert s.inputs == [ROW] && s.turns[9].status == Awaiting;
  }

  /** The started turn can be committed with any storable request. */
  lemma CommitsOnce(req: CommitRequest)
    requires req.events == [] && !req.unstorable
    ensures Commits(Started(), 1, 9, 1, req)
  {
  }

  /** An identical replay of a commit sent without an `error` key conflicts. */
  lemma ReplayWithoutErrorConflicts()
    ensures var req := Ending(ToComplete, Absent, None);
            var s := Exec(Initial(), Start() + [CommitStep(1, 9, 1, req)]);
            9 in s.turns && s.turns[9].status == Complete && CommitReply(s, 1, 9, 1, req) == Refused(409)
  {
    hide Exec, Initial, CommitReply;
    var req := Ending(ToComplete, Absent, None);
    StartRuns();
    Snoc(Start(), CommitStep(1, 9, 1, req));
    CommitsOnce(req);
    CommitReplay(Started(), 1, 9, 1, req);
  }

  /** So does one whose error text has a NUL, although its key is present. */
  lemma ReplayWithNulConflicts()
    ensures var req := Ending(ToFail, NulText(1, 2), None);
            var s := Exec(Initial(), Start() + [CommitStep(1, 9, 1, req)]);
            9 in s.turns && s.turns[9].status == Failed && s.turns[9].error == Some(2) && CommitReply(s, 1, 9, 1, req) == Refused(409)
  {
    hide Exec, Initial, CommitReply;
    var req := Ending(ToFail, NulText(1, 2), None);
    StartRuns();
    Snoc(Start(), CommitStep(1, 9, 1, req));
    CommitsOnce(req);
    CommitReplay(Started(), 1, 9, 1, req);
  }

  // -------------------------------------------------------------- two approvals

  const FIRST := Call(MessageSend, Elevated, 11, 21)
  const SECOND := Call(MessageSend, Elevated, 12, 22)
  const PLAN := Round(None, [FIRST, SECOND], 0)
  const QUIET := World(None, Breaks, 0, Position(0, 0, 0))

  function Asking(index: int, request: Payload): ClaimRequest { ClaimRequest(index, 9, MessageSend, index, request, false) }

  /** Two calls are planned and claimed, and the turn awaits their approvals. */
  function Parking(): seq<Step> { Claiming() + [CommitStep(1, 9, 1, Ending(ToAwait, Undefined, None))] }

  function At(index: int): Position { Position(1, 5, index) }

  /** What matters of the states on the way. */
  ghost predicate Working(s: State) {
    && s.personas == Started().personas && s.leases == Started().leases && s.inputs == [ROW] && s.turns == map[9 := LIVE]
    && s.plans == map[KEY := [PLAN]] && s.waits == map[]
  }

  lemma Planned()
    ensures var s := SavePlan(Started(), 1, 1, 9, 0, PLAN, false);
            Working(s) && s.ops == map[] && s.approvals == map[]
  {
    assert PlanOf(Started(), KEY) + [PLAN] == [PLAN];
  }

  lemma PlanFlat()
    ensures Flat([PLAN]) == [FIRST, SECOND]
  {
    assert [PLAN][1..] == [];
    assert Flat([]) == [];
    assert [FIRST, SECOND] + [] == [FIRST, SECOND];
  }

  /** Claiming call `index` parks it behind an approval of its own. */
  lemma ParksCall(s: State, index: int, call: Call)
    requires Working(s) && ((index == 0 && call == FIRST) || (index == 1 && call == SECOND))
    requires OpKey(At(index), MessageSend) !in s.ops && At(index) !in s.approvals
    ensures var s' := Claim(s, 1, 1, Asking(index, call.request), QUIET).0;
            && Working(s')
            && s'.approvals == s.approvals[At(index) := Approval(index, 9, call, Pending, None, false)]
            && s'.ops.Keys == s.ops.Keys + {OpKey(At(index), MessageSend)}
  {
    PlanFlat();
    var c := Asking(index, call.request);
    assert InPlan(s, 1, 1, c, call);
    ElevatedCallParks(s, 1, 1, c, QUIET, call);
    ParkRows(s, c, call);
  }

  lemma ParkRows(s: State, c: ClaimRequest, call: Call)
    requires InPlan(s, 1, 1, c, call) && KeyOf(s, c) !in s.ops && call.route == Elevated
    ensures var s' := Claim(s, 1, 1, c, QUIET).0;
            && s'.personas == s.personas && s'.leases == s.leases && s'.inputs == s.inputs && s'.turns == s.turns
            && s'.plans == s.plans && s'.waits == s.waits && s'.ops.Keys == s.ops.Keys + {KeyOf(s, c)}
  {
    hide Claim, Working, WithExperience, ClaimEvents, PlaceOf;
    ClaimRows(s, 1, 1, c, QUIET);
    ClaimLeaves(s, c);
  }

  lemma ClaimLeaves(s: State, c: ClaimRequest)
    requires ClaimBody(s, 1, 1, c, QUIET).Got?
    ensures var s', r := Claim(s, 1, 1, c, QUIET).0, ClaimBody(s, 1, 1, c, QUIET);
            && s'.personas == r.state.personas && s'.leases == r.state.leases && s'.inputs == r.state.inputs
            && s'.turns == r.state.turns && s'.plans == r.state.plans && s'.waits == r.state.waits
  {
    hide ClaimBody, ClaimEvents, PlaceOf, Experienced;
    if c.turn !in ClaimBody(s, 1, 1, c, QUIET).state.turns { return; }
  }

  function Planning(): seq<Step> { Start() + [SavePlanStep(1, 1, 9, 0, PLAN, false)] }

  function Claiming(): seq<Step> {
    Planning() + [ClaimStep(1, 1, Asking(0, 11), QUIET)] + [ClaimStep(1, 1, Asking(1, 12), QUIET)]
  }

  lemma PlanningRuns()
    ensures var s := Exec(Initial(), Planning()); Working(s) && s.ops == map[] && s.approvals == map[]
  {
    hide Exec, Initial, SavePlan, Started, Working, Start;
    StartRuns();
    Snoc(Start(), SavePlanStep(1, 1, 9, 0, PLAN, false));
    Planned();
  }

  lemma ClaimingRuns()
    ensures var s := Exec(Initial(), Claiming());
            Working(s) && s.approvals == map[At(0) := Approval(0, 9, FIRST, Pending, None, false),
                                             At(1) := Approval(1, 9, SECOND, Pending, None, false)]
  {
    hide Exec, Initial, Claim, Working, Planning;
    var p1 := Planning() + [ClaimStep(1, 1, Asking(0, 11), QUIET)];
    PlanningRuns();
    Snoc(Planning(), ClaimStep(1, 1, Asking(0, 11), QUIET));
    ParksCall(Exec(Initial(), Planning()), 0, FIRST);
    Snoc(p1, ClaimStep(1, 1, Asking(1, 12), QUIET));
    ParksCall(Exec(Initial(), p1), 1, SECOND);
  }

  lemma Parked()
    ensures var s := Exec(Initial(), Parking());
            && s.personas == Started().personas && s.waits == map[] && 9 in s.turns && s.turns[9].status == Awaiting
            && s.inputs == [ROW.(status := Waiting, waitingSince := Some(s.clock))]
            && s.approvals == map[At(0) := Approval(0, 9, FIRST, Pending, None, false),
                                  At(1) := Approval(1, 9, SECOND, Pending, None, false)]
  {
    hide Exec, Initial, Commit, Started, Start;
    ClaimingRuns();
    Snoc(Claiming(), CommitStep(1, 9, 1, Ending(ToAwait, Undefined, None)));
    hide Claiming;
    Waits(Exec(Initial(), Claiming()));
  }

  lemma Waits(s: State)
    requires Working(s) && At(0) in s.approvals && s.approvals[At(0)].status == Pending
    ensures var s' := Commit(s, 1, 9, 1, Ending(ToAwait, Undefined, None));
            && s'.personas == s.personas && s'.approvals == s.approvals && s'.waits == s.waits && s'.clock == s.clock
            && 9 in s'.turns && s'.turns[9].status == Awaiting
            && s'.inputs == [ROW.(status := Waiting, waitingSince := Some(s.clock))]
  {
    hide CommitJournal, Reconcile;
    var req := Ending(ToAwait, Undefined, None);
    assert HeldBy(s.approvals, At(0), KEY);
    assert Commits(s, 1, 9, 1, req);
  }

  /** One decision of two requeues the input while the other approval is pending. */
  lemma DecisionRequeuesEarly()
    ensures var d := Decision(true, 1, 7);
            var s := Exec(Initial(), Parking() + [ResolveStep(1, At(0), d, true)]);
            && |s.inputs| == 1 && s.inputs[0].key == KEY && s.inputs[0].status == Queued
            && PendingFor(s.approvals, KEY) && HeldUp(s, KEY)
  {
    hide Exec, Initial, Started, Parking;
    var d := Decision(true, 1, 7);
    Parked();
    var s := Exec(Initial(), Parking());
    Snoc(Parking(), ResolveStep(1, At(0), d, true));
    StartedPersonas();
    assert Decides(s, 1, At(0), d, true);
    assert HeldBy(s.approvals, At(1), KEY);
    DecisionFreesIff(s, 1, At(0), d, 0);
    var s' := Resolve(s, 1, At(0), d, true);
    assert HeldBy(s'.approvals, At(1), KEY);
  }

  lemma StartedPersonas()
    ensures Started().personas == map[1 := PersonaRow(Some(7), Active)]
  {
  }
}
