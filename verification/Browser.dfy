/** Shared-browser control: a person and a secretary use the same tabs.  The
    protocol is the sequence of its atomic segments: between two `await`s nothing
    else runs, and at every `await` anything may. */
module Browser {
  import opened Common

  datatype Mode = Agent | Human

  datatype Control = Control(mode: Mode, epoch: int)

  /** What the world sees, in order.  An observation is identified by the
      position of its start. */
  datatype Happening =
    | HumanInput
    | Started(tab: int)
    | Dispatched(tab: int, observation: nat)

  /** An observation: where it started, the epoch it was made under, and until
      when it may be used. */
  datatype Observed = Observed(id: nat, epoch: int, expires: int)

  /** The awaits of an action before its input is handed to the page. */
  datatype Phase = CheckingUrl | Activating | CheckingPage | RecordingIntent

  datatype Operation =
    | Observing(slot: int, tab: int, seen: Observed)
    | Acting(slot: int, tab: int, seen: Observed, phase: Phase)
    | Finishing(slot: int, tab: int)

  /** `observed` is the port's map from tab to observation; `ops` are the
      operations in flight; `busy` the slots marked busy. */
  datatype State = State(
    control: Control, clock: int, observed: map<int, Observed>, ops: map<nat, Operation>, busy: set<int>,
    next: nat, trail: seq<Happening>)

  const OBSERVATION_MS := 30_000

  function Initial(control: Control): State { State(control, 0, map[], map[], {}, 0, []) }

  // ---------------------------------------------------------------- the person

  /** takeControl, called for every input of the person: control moves to the
      person at once, before the input is dispatched. */
  function TakeControl(s: State): State {
    var s1 := s.(trail := s.trail + [HumanInput]);
    if s.control.mode == Human then s1 else s1.(control := Control(Human, s.control.epoch + 1))
  }

  function Release(s: State): State {
    if s.control.mode == Agent then s else s.(control := Control(Agent, s.control.epoch + 1))
  }

  /** The profile was reset: control returns to the secretary. */
  function Retire(s: State): State { s.(control := Control(Agent, s.control.epoch + 1)) }

  /** The browser was closed: who has control does not change. */
  function Sleep(s: State): State { s.(control := Control(s.control.mode, s.control.epoch + 1)) }

  /** A new instance takes over whatever control was saved, however old; no
      observation or operation of the old instance survives. */
  function Restart(s: State, saved: Control): State {
    s.(control := saved, observed := map[], ops := map[], busy := {})
  }

  // ------------------------------------------------------------- the secretary

  /** admitted(): the secretary holds control and nothing changed hands since
      the observation started. */
  predicate Admitted(s: State, seen: Observed) {
    s.control.mode == Agent && s.control.epoch == seen.epoch
  }

  /** exclusive(): one operation per slot. */
  function Begin(s: State, slot: int, op: Operation): State {
    s.(busy := s.busy + {slot}, ops := s.ops[s.next := op], next := s.next + 1)
  }

  function Drop(ops: map<nat, Operation>, op: nat): map<nat, Operation> { map k | k in ops && k != op :: ops[k] }

  function End(s: State, op: nat): State
    requires op in s.ops
  {
    s.(busy := s.busy - {s.ops[op].slot}, ops := Drop(s.ops, op))
  }

  function StartObserve(s: State, slot: int, tab: int, loading: bool): State {
    if slot in s.busy || loading then s
    else Begin(s.(trail := s.trail + [Started(tab)]), slot,
               Observing(slot, tab, Observed(|s.trail|, s.control.epoch, 0)))
  }

  function Put(s: State, tab: int, seen: Observed): State { s.(observed := s.observed[tab := seen]) }

  /** The page answered and the tab did not navigate meanwhile. */
  function FinishObserve(s: State, op: nat): State {
    if op !in s.ops || !s.ops[op].Observing? then s
    else
      var o := s.ops[op];
      Put(End(s, op), o.tab, o.seen.(expires := s.clock + OBSERVATION_MS))
  }

  function Without(observed: map<int, Observed>, tab: int): map<int, Observed> {
    map t | t in observed && t != tab :: observed[t]
  }

  /** The observation is taken out of the map before the first await: a refused
      or dispatched action consumes it. */
  function StartAct(s: State, slot: int, tab: int, id: nat, loading: bool): State {
    if slot in s.busy || loading then s
    else if tab !in s.observed || s.observed[tab].id != id || s.observed[tab].expires < s.clock then s
    else Begin(s.(observed := Without(s.observed, tab)), slot, Acting(slot, tab, s.observed[tab], CheckingUrl))
  }

  /** The next segment of an action: after each await the admission is checked
      again, and after the last check nothing awaits before the dispatch. */
  function ContinueAct(s: State, op: nat, active: bool, guarded: bool): State {
    if op !in s.ops || !s.ops[op].Acting? then s
    else
      var o := s.ops[op];
      if o.phase == CheckingPage then s.(ops := s.ops[op := o.(phase := RecordingIntent)])
      else if !Admitted(s, o.seen) then End(s, op)
      else match o.phase
        case CheckingUrl =>
          s.(ops := s.ops[op := o.(phase := if !active then Activating else if guarded then CheckingPage else RecordingIntent)])
        case Activating => s.(ops := s.ops[op := o.(phase := if guarded then CheckingPage else RecordingIntent)])
        case CheckingPage => s
        case RecordingIntent =>
          s.(ops := s.ops[op := Finishing(o.slot, o.tab)], trail := s.trail + [Dispatched(o.tab, o.seen.id)])
  }

  /** An operation fails, is refused for another reason, or is over. */
  function Finish(s: State, op: nat): State { if op in s.ops then End(s, op) else s }

  datatype Step =
    | Tick(ms: nat)
    | HumanStep
    | ReleaseStep
    | RetireStep
    | SleepStep
    | InvalidateStep
    | RestartStep(saved: Control)
    | ObserveStep(slot: int, tab: int, loading: bool)
    | ObservedStep(op: nat)
    | ActStep(slot: int, tab: int, id: nat, loading: bool)
    | ContinueStep(op: nat, active: bool, guarded: bool)
    | FinishStep(op: nat)

  function Apply(s: State, step: Step): State {
    match step
    case Tick(ms) => s.(clock := s.clock + ms)
    case HumanStep => TakeControl(s)
    case ReleaseStep => Release(s)
    case RetireStep => Retire(s)
    case SleepStep => Sleep(s)
    case InvalidateStep => s.(observed := map[])
    case RestartStep(saved) => Restart(s, saved)
    case ObserveStep(slot, tab, loading) => StartObserve(s, slot, tab, loading)
    case ObservedStep(op) => FinishObserve(s, op)
    case ActStep(slot, tab, id, loading) => StartAct(s, slot, tab, id, loading)
    case ContinueStep(op, active, guarded) => ContinueAct(s, op, active, guarded)
    case FinishStep(op) => Finish(s, op)
  }

  function Exec(control: Control, steps: seq<Step>): State {
    if steps == [] then Initial(control) else Apply(Exec(control, steps[..|steps| - 1]), steps[|steps| - 1])
  }

  // ---------------------------------------------------------------- invariants

  /** No input of the person stands after position `i`. */
  ghost predicate Untouched(trail: seq<Happening>, i: nat, n: nat) {
    forall k :: i < k < n && k < |trail| ==> trail[k] != HumanInput
  }

  /** What an observation's epoch is worth: while the epoch is still the same and
      the secretary holds control, nobody has touched the browser since. */
  ghost predicate Trusted(s: State, tab: int, seen: Observed) {
    && seen.id < |s.trail| && s.trail[seen.id] == Started(tab)
    && seen.epoch <= s.control.epoch
    && (seen.epoch == s.control.epoch && s.control.mode == Agent ==> Untouched(s.trail, seen.id, |s.trail|))
  }

  predicate Holds(op: Operation) { op.Observing? || op.Acting? }

  ghost predicate AllTrusted(s: State) {
    && (forall t :: t in s.observed ==> Trusted(s, t, s.observed[t]))
    && (forall k :: k in s.ops && Holds(s.ops[k]) ==> Trusted(s, s.ops[k].tab, s.ops[k].seen))
  }

  /** Each observation is in one place only: still being made, in the map, in one
      action, or spent. */
  ghost predicate Single(s: State) {
    && (forall t, u :: t in s.observed && u in s.observed && t != u ==> s.observed[t].id != s.observed[u].id)
    && (forall t, k :: t in s.observed && k in s.ops && Holds(s.ops[k]) ==> s.observed[t].id != s.ops[k].seen.id)
    && (forall j, k :: j in s.ops && k in s.ops && j != k && Holds(s.ops[j]) && Holds(s.ops[k]) ==> s.ops[j].seen.id != s.ops[k].seen.id)
  }

  ghost predicate Spent(trail: seq<Happening>, id: nat) {
    exists j :: 0 <= j < |trail| && trail[j].Dispatched? && trail[j].observation == id
  }

  ghost predicate Unspent(s: State) {
    && (forall t :: t in s.observed ==> !Spent(s.trail, s.observed[t].id))
    && (forall k :: k in s.ops && Holds(s.ops[k]) ==> !Spent(s.trail, s.ops[k].seen.id))
  }

  /** Every dispatch follows its observation, with no input of the person in
      between. */
  ghost predicate DispatchesSafe(trail: seq<Happening>) {
    forall j :: 0 <= j < |trail| && trail[j].Dispatched? ==>
      && trail[j].observation < j
      && trail[trail[j].observation] == Started(trail[j].tab)
      && Untouched(trail, trail[j].observation, j)
  }

  ghost predicate DispatchedOnce(trail: seq<Happening>) {
    forall i, j :: 0 <= i < j < |trail| && trail[i].Dispatched? && trail[j].Dispatched? ==>
      trail[i].observation != trail[j].observation
  }

  /** The busy slots are exactly those of the operations in flight, one each. */
  ghost predicate Exclusive(s: State) {
    && (forall k :: k in s.ops ==> s.ops[k].slot in s.busy && k < s.next)
    && (forall j, k :: j in s.ops && k in s.ops && j != k ==> s.ops[j].slot != s.ops[k].slot)
    && (forall slot :: slot in s.busy ==> exists k :: k in s.ops && s.ops[k].slot == slot)
  }

  ghost predicate Inv(s: State) {
    AllTrusted(s) && Single(s) && Unspent(s) && DispatchesSafe(s.trail) && DispatchedOnce(s.trail) && Exclusive(s)
  }

  // ---------------------------------------------------------- the person's steps

  lemma SpentSnoc(trail: seq<Happening>, h: Happening, id: nat)
    ensures Spent(trail + [h], id) <==> Spent(trail, id) || (h.Dispatched? && h.observation == id)
  {
    var more := trail + [h];
    assert more[|trail|] == h;
    if Spent(trail, id) {
      var j :| 0 <= j < |trail| && trail[j].Dispatched? && trail[j].observation == id;
      assert more[j] == trail[j];
    }
  }

  lemma QuietTrail(trail: seq<Happening>, h: Happening)
    requires DispatchesSafe(trail) && DispatchedOnce(trail) && !h.Dispatched?
    ensures DispatchesSafe(trail + [h]) && DispatchedOnce(trail + [h])
  {
    var more := trail + [h];
    forall j | 0 <= j < |more| && more[j].Dispatched?
      ensures more[j].observation < j && more[more[j].observation] == Started(more[j].tab) && Untouched(more, more[j].observation, j)
    {
      assert more[j] == trail[j];
    }
  }

  lemma UnspentQuiet(s: State, h: Happening)
    requires Unspent(s) && !h.Dispatched?
    ensures Unspent(s.(trail := s.trail + [h]))
  {
    forall id: nat ensures Spent(s.trail + [h], id) <==> Spent(s.trail, id) { SpentSnoc(s.trail, h, id); }
  }

  lemma HumanKeeps(s: State)
    requires Inv(s)
    ensures Inv(TakeControl(s))
  {
    hide Single, Exclusive, Spent;
    QuietTrail(s.trail, HumanInput);
    UnspentQuiet(s, HumanInput);
    assert Single(TakeControl(s)) && Exclusive(TakeControl(s)) by { SameRows(s, TakeControl(s)); }
    if s.control.mode == Human { return; }
  }

  lemma SameRows(s: State, s': State)
    requires s'.observed == s.observed && s'.ops == s.ops && s'.busy == s.busy && s'.next == s.next
    ensures Single(s) == Single(s') && Exclusive(s) == Exclusive(s')
  {
  }

  /** A change of control voids every observation made before it. */
  lemma BumpKeeps(s: State, mode: Mode)
    requires Inv(s)
    ensures Inv(s.(control := Control(mode, s.control.epoch + 1)))
  {
    hide Spent;
    SameRows(s, s.(control := Control(mode, s.control.epoch + 1)));
  }

  lemma RestartKeeps(s: State, saved: Control)
    requires Inv(s)
    ensures Inv(Restart(s, saved))
  {
  }

  // -------------------------------------------------------- the secretary's steps

  lemma EndKeeps(s: State, op: nat)
    requires Inv(s) && op in s.ops
    ensures Inv(End(s, op))
  {
    hide Spent, Untouched, DispatchesSafe, DispatchedOnce;
    var s' := End(s, op);
    forall slot | slot in s'.busy ensures exists k :: k in s'.ops && s'.ops[k].slot == slot {
      var k :| k in s.ops && s.ops[k].slot == slot;
      assert k in s'.ops && s'.ops[k].slot == slot;
    }
  }

  lemma StartObserveKeeps(s: State, slot: int, tab: int, loading: bool)
    requires Inv(s)
    ensures Inv(StartObserve(s, slot, tab, loading))
  {
    if slot in s.busy || loading { return; }
    hide Spent, Exclusive, DispatchesSafe, DispatchedOnce, Untouched, AllTrusted;
    var s' := StartObserve(s, slot, tab, loading);
    QuietTrail(s.trail, Started(tab));
    UnspentQuiet(s, Started(tab));
    FreshUnspent(s, tab);
    assert AllTrusted(s') by { StartTrusted(s, slot, tab, loading); }
    BeginExclusive(s, slot, s'.ops[s.next]);
    assert Single(s') && Unspent(s');
  }

  lemma FreshUnspent(s: State, tab: int)
    requires DispatchesSafe(s.trail)
    ensures !Spent(s.trail + [Started(tab)], |s.trail|)
  {
    SpentSnoc(s.trail, Started(tab), |s.trail|);
  }

  lemma StartTrusted(s: State, slot: int, tab: int, loading: bool)
    requires AllTrusted(s) && slot !in s.busy && !loading
    ensures AllTrusted(StartObserve(s, slot, tab, loading))
  {
    var s' := StartObserve(s, slot, tab, loading);
    assert s'.trail[|s.trail|] == Started(tab);
    forall t | t in s'.observed ensures Trusted(s', t, s'.observed[t]) { assert Trusted(s, t, s.observed[t]); }
    forall k | k in s'.ops && Holds(s'.ops[k]) ensures Trusted(s', s'.ops[k].tab, s'.ops[k].seen) {
      if k != s.next { assert Trusted(s, s.ops[k].tab, s.ops[k].seen); }
    }
  }

  lemma BeginExclusive(s: State, slot: int, op: Operation)
    requires Exclusive(s) && slot !in s.busy && op.slot == slot
    ensures Exclusive(s.(busy := s.busy + {slot}, ops := s.ops[s.next := op], next := s.next + 1))
  {
    var s' := s.(busy := s.busy + {slot}, ops := s.ops[s.next := op], next := s.next + 1);
    forall x | x in s'.busy ensures exists k :: k in s'.ops && s'.ops[k].slot == x {
      if x == slot {
        assert s'.ops[s.next].slot == x;
      } else {
        var k :| k in s.ops && s.ops[k].slot == x;
        assert k in s'.ops && s'.ops[k].slot == x;
      }
    }
  }

  lemma FinishObserveKeeps(s: State, op: nat)
    requires Inv(s)
    ensures Inv(FinishObserve(s, op))
  {
    hide Inv, Trusted, Put, End, Spent;
    if op !in s.ops || !s.ops[op].Observing? { return; }
    var o := s.ops[op];
    EndKeeps(s, op);
    HeldApart(s, op);
    PutKeeps(End(s, op), o.tab, o.seen.(expires := s.clock + OBSERVATION_MS));
  }

  /** A held observation is trusted, unspent and held nowhere else. */
  lemma HeldApart(s: State, op: nat)
    requires Inv(s) && op in s.ops && Holds(s.ops[op])
    ensures var seen, s1 := s.ops[op].seen, End(s, op);
            && (forall e :: Trusted(s1, s.ops[op].tab, seen.(expires := e))) && !Spent(s1.trail, seen.id)
            && (forall t :: t in s1.observed ==> s1.observed[t].id != seen.id)
            && (forall k :: k in s1.ops && Holds(s1.ops[k]) ==> s1.ops[k].seen.id != seen.id)
  {
    hide Spent, Untouched, DispatchesSafe, DispatchedOnce, Exclusive;
    assert Trusted(s, s.ops[op].tab, s.ops[op].seen);
  }

  /** An observation held nowhere else may be put in the map. */
  lemma PutKeeps(s: State, tab: int, seen: Observed)
    requires Inv(s) && Trusted(s, tab, seen) && !Spent(s.trail, seen.id)
    requires forall t :: t in s.observed ==> s.observed[t].id != seen.id
    requires forall k :: k in s.ops && Holds(s.ops[k]) ==> s.ops[k].seen.id != seen.id
    ensures Inv(Put(s, tab, seen))
  {
    hide Spent, Untouched, DispatchesSafe, DispatchedOnce;
  }

  lemma StartActKeeps(s: State, slot: int, tab: int, id: nat, loading: bool)
    requires Inv(s)
    ensures Inv(StartAct(s, slot, tab, id, loading))
  {
    if StartAct(s, slot, tab, id, loading) == s { return; }
    hide Spent, Untouched, DispatchesSafe, DispatchedOnce;
    var op := Acting(slot, tab, s.observed[tab], CheckingUrl);
    BeginExclusive(s, slot, op);
    MoveKeeps(s, slot, tab, op);
  }

  /** The observation moves from the map into the action. */
  lemma MoveKeeps(s: State, slot: int, tab: int, op: Operation)
    requires Inv(s) && tab in s.observed && slot !in s.busy && op == Acting(slot, tab, s.observed[tab], CheckingUrl)
    requires Exclusive(s.(busy := s.busy + {slot}, ops := s.ops[s.next := op], next := s.next + 1))
    ensures Inv(Begin(s.(observed := Without(s.observed, tab)), slot, op))
  {
    hide Spent, Untouched, DispatchesSafe, DispatchedOnce, Exclusive;
    var s0, s1 := s.(observed := Without(s.observed, tab)), s.(busy := s.busy + {slot}, ops := s.ops[s.next := op], next := s.next + 1);
    var s' := Begin(s0, slot, op);
    assert Exclusive(s') by { SameExclusive(s1, s'); }
    assert AllTrusted(s') by { MoveTrusted(s, slot, tab, op); }
    assert Single(s') by { MoveSingle(s, slot, tab, op); }
    assert !Spent(s.trail, s.observed[tab].id);
  }

  lemma SameExclusive(s: State, s': State)
    requires s'.ops == s.ops && s'.busy == s.busy && s'.next == s.next && Exclusive(s)
    ensures Exclusive(s')
  {
  }

  lemma MoveTrusted(s: State, slot: int, tab: int, op: Operation)
    requires AllTrusted(s) && tab in s.observed && op == Acting(slot, tab, s.observed[tab], CheckingUrl)
    ensures AllTrusted(Begin(s.(observed := Without(s.observed, tab)), slot, op))
  {
    hide Untouched;
    assert Trusted(s, tab, s.observed[tab]);
  }

  lemma MoveSingle(s: State, slot: int, tab: int, op: Operation)
    requires Single(s) && tab in s.observed && op == Acting(slot, tab, s.observed[tab], CheckingUrl)
    ensures Single(Begin(s.(observed := Without(s.observed, tab)), slot, op))
  {
  }

  lemma PhaseKeeps(s: State, op: nat, phase: Phase)
    requires Inv(s) && op in s.ops && s.ops[op].Acting?
    ensures Inv(s.(ops := s.ops[op := s.ops[op].(phase := phase)]))
  {
    hide Spent, Untouched, DispatchesSafe, DispatchedOnce, Exclusive;
    SwapExclusive(s, op, s.ops[op].(phase := phase));
  }

  /** The dispatch itself: admitted, so nobody touched the browser since the
      observation started; and the observation is spent. */
  lemma DispatchKeeps(s: State, op: nat)
    requires Inv(s) && op in s.ops && s.ops[op].Acting? && Admitted(s, s.ops[op].seen)
    ensures var o := s.ops[op];
            Inv(s.(ops := s.ops[op := Finishing(o.slot, o.tab)], trail := s.trail + [Dispatched(o.tab, o.seen.id)]))
  {
    var o := s.ops[op];
    var h := Dispatched(o.tab, o.seen.id);
    assert Trusted(s, o.tab, o.seen) && !Spent(s.trail, o.seen.id);
    DispatchTrail(s.trail, o.tab, o.seen.id);
    var s1 := s.(ops := s.ops[op := Finishing(o.slot, o.tab)]);
    RetireOp(s, op);
    hide Spent;
    forall id: nat | id != o.seen.id ensures Spent(s.trail + [h], id) <==> Spent(s.trail, id) { SpentSnoc(s.trail, h, id); }
    SameRows(s1, s1.(trail := s.trail + [h]));
    TrailTrusted(s1, h);
  }

  lemma DispatchTrail(trail: seq<Happening>, tab: int, id: nat)
    requires DispatchesSafe(trail) && DispatchedOnce(trail) && !Spent(trail, id)
    requires id < |trail| && trail[id] == Started(tab) && Untouched(trail, id, |trail|)
    ensures DispatchesSafe(trail + [Dispatched(tab, id)]) && DispatchedOnce(trail + [Dispatched(tab, id)])
  {
    var more := trail + [Dispatched(tab, id)];
    forall j | 0 <= j < |more| && more[j].Dispatched?
      ensures more[j].observation < j && more[more[j].observation] == Started(more[j].tab) && Untouched(more, more[j].observation, j)
    {
      if j < |trail| { assert more[j] == trail[j]; }
    }
  }

  lemma RetireOp(s: State, op: nat)
    requires Inv(s) && op in s.ops && s.ops[op].Acting?
    ensures var o := s.ops[op];
            var s1 := s.(ops := s.ops[op := Finishing(o.slot, o.tab)]);
            && AllTrusted(s1) && Single(s1) && Unspent(s1) && Exclusive(s1)
            && (forall t :: t in s1.observed ==> s1.observed[t].id != o.seen.id)
            && (forall k :: k in s1.ops && Holds(s1.ops[k]) ==> s1.ops[k].seen.id != o.seen.id)
  {
    hide Spent, Untouched, DispatchesSafe, DispatchedOnce, Exclusive;
    SwapExclusive(s, op, Finishing(s.ops[op].slot, s.ops[op].tab));
  }

  lemma SwapExclusive(s: State, op: nat, o: Operation)
    requires Exclusive(s) && op in s.ops && o.slot == s.ops[op].slot
    ensures Exclusive(s.(ops := s.ops[op := o]))
  {
    var s1 := s.(ops := s.ops[op := o]);
    forall slot | slot in s1.busy ensures exists k :: k in s1.ops && s1.ops[k].slot == slot {
      var k :| k in s.ops && s.ops[k].slot == slot;
      assert k in s1.ops && s1.ops[k].slot == slot;
    }
  }

  lemma TrailTrusted(s: State, h: Happening)
    requires AllTrusted(s) && h != HumanInput
    ensures AllTrusted(s.(trail := s.trail + [h]))
  {
    var s' := s.(trail := s.trail + [h]);
    forall t | t in s'.observed ensures Trusted(s', t, s'.observed[t]) { assert Trusted(s, t, s.observed[t]); }
    forall k | k in s'.ops && Holds(s'.ops[k]) ensures Trusted(s', s'.ops[k].tab, s'.ops[k].seen) {
      assert Trusted(s, s.ops[k].tab, s.ops[k].seen);
    }
  }

  lemma ContinueKeeps(s: State, op: nat, active: bool, guarded: bool)
    requires Inv(s)
    ensures Inv(ContinueAct(s, op, active, guarded))
  {
    hide Inv;
    if op !in s.ops || !s.ops[op].Acting? { return; }
    var o := s.ops[op];
    if o.phase == CheckingPage { PhaseKeeps(s, op, RecordingIntent); return; }
    if !Admitted(s, o.seen) { EndKeeps(s, op); return; }
    if o.phase == RecordingIntent { DispatchKeeps(s, op); return; }
    PhaseKeeps(s, op, CheckingPage);
    PhaseKeeps(s, op, RecordingIntent);
    PhaseKeeps(s, op, Activating);
  }

  lemma StepKeeps(s: State, step: Step)
    requires Inv(s)
    ensures Inv(Apply(s, step))
  {
    hide Inv, TakeControl, StartObserve, FinishObserve, StartAct, ContinueAct, Restart;
    match step {
      case HumanStep => HumanKeeps(s);
      case ReleaseStep => BumpKeeps(s, Agent);
      case RetireStep => BumpKeeps(s, Agent);
      case SleepStep => BumpKeeps(s, s.control.mode);
      case RestartStep(saved) => RestartKeeps(s, saved);
      case ObserveStep(slot, tab, loading) => StartObserveKeeps(s, slot, tab, loading);
      case ObservedStep(op) => FinishObserveKeeps(s, op);
      case ActStep(slot, tab, id, loading) => StartActKeeps(s, slot, tab, id, loading);
      case ContinueStep(op, active, guarded) => ContinueKeeps(s, op, active, guarded);
      case FinishStep(op) => if op in s.ops { EndKeeps(s, op); }
      case Tick(ms) => QuietKeeps(s, ms);
      case InvalidateStep => QuietKeeps(s, 0);
    }
  }

  lemma QuietKeeps(s: State, ms: nat)
    requires Inv(s)
    ensures Inv(s.(clock := s.clock + ms)) && Inv(s.(observed := map[]))
  {
    hide Spent, Untouched, DispatchesSafe, DispatchedOnce;
    SameRows(s, s.(clock := s.clock + ms));
    SameExclusive(s, s.(observed := map[]));
  }

  lemma {:induction false} RunKeeps(control: Control, steps: seq<Step>)
    ensures Inv(Exec(control, steps))
  {
    if steps != [] {
      RunKeeps(control, steps[..|steps| - 1]);
      StepKeeps(Exec(control, steps[..|steps| - 1]), steps[|steps| - 1]);
    }
  }

  /** Over every interleaving: when an action is dispatched, the person made no
      input between the start of its observation and the dispatch, not even one
      already handed back; and an observation authorises at most one dispatch. */
  lemma ControlSafety(control: Control, steps: seq<Step>, j: nat)
    requires var trail := Exec(control, steps).trail; j < |trail| && trail[j].Dispatched?
    ensures var trail := Exec(control, steps).trail;
            && trail[j].observation < j
            && trail[trail[j].observation] == Started(trail[j].tab)
            && (forall k :: trail[j].observation < k < j ==> trail[k] != HumanInput)
            && (forall i :: 0 <= i < |trail| && trail[i].Dispatched? && trail[i].observation == trail[j].observation ==> i == j)
  {
    RunKeeps(control, steps);
    var trail := Exec(control, steps).trail;
    assert Untouched(trail, trail[j].observation, j);
  }

  /** An undisturbed observation and action do dispatch: the checks refuse nothing
      they need not refuse. */
  lemma UndisturbedActionDispatches(s: State, slot: int, tab: int)
    requires Exclusive(s) && slot !in s.busy && s.control.mode == Agent
    ensures var s1 := StartObserve(s, slot, tab, false);
            var s2 := FinishObserve(s1, s.next);
            var s3 := StartAct(s2, slot, tab, |s.trail|, false);
            var s4 := ContinueAct(s3, s2.next, true, false);
            var s5 := ContinueAct(s4, s2.next, true, false);
            s5.trail == s.trail + [Started(tab)] + [Dispatched(tab, |s.trail|)]
  {
    var s1 := StartObserve(s, slot, tab, false);
    var s2 := FinishObserve(s1, s.next);
    assert slot !in s2.busy;
  }

  // --------------------------------------------------------- while someone holds it

  function ExecFrom(s: State, steps: seq<Step>): State {
    if steps == [] then s else Apply(ExecFrom(s, steps[..|steps| - 1]), steps[|steps| - 1])
  }

  /** Nothing hands control back to the secretary. */
  predicate Withheld(step: Step) { !step.ReleaseStep? && !step.RetireStep? && !step.RestartStep? }

  ghost predicate NoDispatch(trail: seq<Happening>, from: nat) {
    forall k :: from <= k < |trail| ==> !trail[k].Dispatched?
  }

  lemma HeldStep(s: State, step: Step)
    requires s.control.mode == Human && Withheld(step)
    ensures var s' := Apply(s, step); s'.control.mode == Human && s.trail <= s'.trail && NoDispatch(s'.trail, |s.trail|)
  {
  }

  /** From the person's first input until control is handed back, reset or taken over
      by a new instance, the secretary's actions reach no page. */
  lemma {:induction false} PersonKeepsControl(s: State, steps: seq<Step>)
    requires forall k :: 0 <= k < |steps| ==> Withheld(steps[k])
    ensures var s' := ExecFrom(TakeControl(s), steps);
            s'.control.mode == Human && s.trail <= s'.trail && NoDispatch(s'.trail, |s.trail|)
  {
    hide Apply;
    if steps == [] { return; }
    var n := |steps| - 1;
    PersonKeepsControl(s, steps[..n]);
    HeldStep(ExecFrom(TakeControl(s), steps[..n]), steps[n]);
  }

  /** Handing back, and a reset, give the secretary control under a new epoch; a
      closed browser changes the epoch and not who holds it. */
  lemma ControlMoves(s: State)
    ensures TakeControl(s).control.mode == Human && TakeControl(s).trail == s.trail + [HumanInput]
    ensures Release(s).control.mode == Agent && (s.control.mode == Human ==> Release(s).control.epoch > s.control.epoch)
    ensures Retire(s).control.mode == Agent && Retire(s).control.epoch > s.control.epoch
    ensures Sleep(s).control.mode == s.control.mode && Sleep(s).control.epoch > s.control.epoch
  {
  }

  /** An action starts exactly on a free slot of a loaded tab with the observation it
      names, at most 30 seconds after that was made; and takes it out of the map. */
  lemma ActStarts(s: State, op: nat, slot: int, tab: int, id: nat, ms: nat, loading: bool)
    requires op in s.ops && s.ops[op].Observing? && s.ops[op].tab == tab && s.ops[op].slot == slot
    ensures var s1 := Apply(FinishObserve(s, op), Tick(ms));
            var s2 := StartAct(s1, slot, tab, id, loading);
            && slot !in s1.busy && tab in s1.observed && s1.observed[tab].id == s.ops[op].seen.id
            && (if !loading && id == s.ops[op].seen.id && ms <= 30_000
                then tab !in s2.observed && s1.next in s2.ops && s2.ops[s1.next].Acting? && slot in s2.busy
                     && s2.ops[s1.next].seen.id == id && s2.ops[s1.next].tab == tab
                else s2 == s1)
  {
  }
}
