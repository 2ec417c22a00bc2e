/** The in-memory state service as it runs: one object whose maps and arrays are
    changed in place.  Each method is proved against the store's step function on
    the value `Model()`, and the step functions carry the theorems. */
module FakeStates {
  import opened Common
  import opened Plan
  import opened Journal
  import opened Ledger
  import opened Store
  import Lifecycle
  import Runs

  /** What claimOperation remembers before it runs a claim. */
  datatype Mark = Mark(events: nat, last: Option<nat>, received: map<InputKey, nat>)

  /** How a claim ends: with an error, or with the operation's row. */
  datatype ClaimResult =
    | Thrown(reply: Reply)
    | Returned(key: OpKey, op: Operation, approval: Option<Approval>, created: bool)

  /** Only records of the persona were added. */
  ghost predicate OnlyFor(p: Persona, j: Journal, j': Journal) {
    && j.log <= j'.log
    && forall q :: q != p ==> (q in j'.last <==> q in j.last) && (q in j.last ==> j'.last[q] == j.last[q])
  }

  class FakeState {
    var personas: map<Persona, PersonaRow>
    var registered: set<Tool>
    var leases: map<Persona, Lease>
    var generations: map<Persona, nat>
    var inputs: seq<Input>
    var turns: map<TurnId, Turn>
    var commits: map<TurnId, CommitRequest>
    var plans: map<InputKey, seq<Round>>
    var ops: map<OpKey, Operation>
    var approvals: map<Position, Approval>
    var eventLog: seq<Event>
    var last: map<Persona, nat>
    var received: map<InputKey, nat>
    var budgets: map<Funding, Budget>
    var reservations: seq<Reservation>
    var facts: seq<Fact>
    var waits: map<InputKey, WaitRow>
    var clock: int
    ghost var trail: seq<Happening>

    ghost function JournalNow(): Journal
      reads this`eventLog, this`last, this`received
    {
      Journal(eventLog, last, received)
    }

    ghost function LedgerNow(): Ledger
      reads this`budgets, this`reservations, this`facts
    {
      Ledger(budgets, reservations, facts)
    }

    ghost function Model(): State
      reads this
    {
      State(personas, registered, leases, generations, inputs, turns, commits, plans, ops, approvals,
            JournalNow(), LedgerNow(), waits, clock, trail)
    }

    constructor ()
      ensures Model() == Initial()
    {
      personas, registered, leases, generations := map[], {}, map[], map[];
      inputs, turns, commits, plans, ops, approvals := [], map[], map[], map[], map[], map[];
      eventLog, last, received := [], map[], map[];
      budgets, reservations, facts, waits, clock := map[], [], [], map[], 0;
      trail := [];
    }

    // ------------------------------------------------------------- the journal

    method PushEvent(p: Persona, t: TurnId, e: EventInput)
      modifies this`eventLog, this`last
      ensures JournalNow() == Push(old(JournalNow()), p, t, e)
    {
      var n := (if p in last then last[p] else 0) + 1;
      last := last[p := n];
      eventLog := eventLog + [Event(p, n, t, e)];
    }

    method EnsureInputReceived(p: Persona, t: TurnId, i: InputId)
      modifies this`eventLog, this`last, this`received
      ensures JournalNow() == EnsureReceived(old(JournalNow()), p, t, i)
    {
      if InputKey(p, i) in received { return; }
      PushEvent(p, t, InputReceived(Some(i)));
      received := received[InputKey(p, i) := last[p]];
    }

    /** Keys of the experience every turn serving the input journaled. */
    method LineageExperience(key: InputKey) returns (seen: set<Experience>)
      ensures seen == Lineage(eventLog, OwnersOf(turns), key)
    {
      seen := {};
      var i := 0;
      while i < |eventLog|
        invariant 0 <= i <= |eventLog|
        invariant seen == Lineage(eventLog[..i], OwnersOf(turns), key)
      {
        var e := eventLog[i];
        LineageSnoc(eventLog[..i], OwnersOf(turns), key, e);
        assert eventLog[..i + 1] == eventLog[..i] + [e];
        var x := ExperienceKey(e.body);
        if e.persona == key.persona && e.turn in turns && turns[e.turn].key == key && x.Some? {
          seen := seen + {x.value};
        }
        i := i + 1;
      }
      assert eventLog[..i] == eventLog;
    }

    /** journalExperience: the input once, then each record the input's lineage
        has not journaled yet. */
    method JournalExperience(t: TurnId, events: seq<EventInput>)
      requires t in turns
      modifies this`eventLog, this`last, this`received
      ensures JournalNow() == Experienced(old(JournalNow()), OwnersOf(turns), t, turns[t].key, events)
    {
      var key := turns[t].key;
      EnsureInputReceived(key.persona, t, key.input);
      var seen := LineageExperience(key);
      ghost var goal := AppendFresh(JournalNow(), key.persona, t, events, seen);
      var i := 0;
      while i < |events|
        invariant 0 <= i <= |events|
        invariant AppendFresh(JournalNow(), key.persona, t, events[i..], seen) == goal
      {
        assert events[i..][1..] == events[i + 1..];
        var x := ExperienceKey(events[i]);
        if x.Some? && x.value in seen {
          i := i + 1;
          continue;
        }
        if x.Some? { seen := seen + {x.value}; }
        PushEvent(key.persona, t, events[i]);
        i := i + 1;
      }
    }

    /** commitTurn's append: it also drops a receipt already journaled. */
    method AppendEvents(p: Persona, t: TurnId, events: seq<EventInput>)
      requires t in turns && turns[t].key.persona == p
      requires forall e :: e in events && e.InputReceived? ==> e.input.Some?
      modifies this`eventLog, this`last, this`received
      ensures JournalNow() == AppendCommitted(old(JournalNow()), p, t, events,
                                              Lineage(old(eventLog), OwnersOf(turns), turns[t].key))
    {
      var seen := LineageExperience(turns[t].key);
      ghost var goal := AppendCommitted(JournalNow(), p, t, events, seen);
      var i := 0;
      while i < |events|
        invariant 0 <= i <= |events|
        invariant forall e :: e in events[i..] ==> e in events
        invariant AppendCommitted(JournalNow(), p, t, events[i..], seen) == goal
      {
        var e := events[i];
        assert events[i..][0] == e && events[i..][1..] == events[i + 1..] && e in events;
        if e.InputReceived? {
          EnsureInputReceived(p, t, e.input.value);
        } else {
          var x := ExperienceKey(e);
          if !(x.Some? && x.value in seen) {
            if x.Some? { seen := seen + {x.value}; }
            PushEvent(p, t, e);
          }
        }
        i := i + 1;
      }
    }

    method TakeMark(p: Persona) returns (m: Mark)
      ensures m == Mark(|eventLog|, if p in last then Some(last[p]) else None, received)
    {
      m := Mark(|eventLog|, if p in last then Some(last[p]) else None, received);
    }

    /** A failed claim cuts the journal back to the mark: nothing it pushed for
        its persona is left, not even a used number. */
    method RollBack(p: Persona, m: Mark, ghost marked: Journal)
      requires m == Mark(|marked.log|, if p in marked.last then Some(marked.last[p]) else None, marked.received)
      requires OnlyFor(p, marked, JournalNow())
      modifies this`eventLog, this`last, this`received
      ensures JournalNow() == marked
    {
      eventLog := eventLog[..m.events];
      last := match m.last case Some(n) => last[p := n] case None => map q | q in last && q != p :: last[q];
      received := m.received;
      assert forall q :: q in last <==> q in marked.last;
      assert forall q :: q in last ==> last[q] == marked.last[q];
      assert last == marked.last;
    }

    // ----------------------------------------------------------------- claims

    /** What a claim left behind: what the step leaves, or, when it threw, rows and
        effects as they were and records of its own persona in the journal. */
    ghost predicate Ended(b: Claiming, r: ClaimResult, s: State, p: Persona)
      reads this
    {
      match b
      case Threw(reply) =>
        && r == Thrown(reply) && ops == s.ops && approvals == s.approvals && trail == s.trail
        && OnlyFor(p, s.journal, JournalNow())
      case Got(s', key, op, approval, created) =>
        && r == Returned(key, op, approval, created) && ops == s'.ops && approvals == s'.approvals && trail == s'.trail
        && JournalNow() == s'.journal
    }

    /** The call is journaled before its effect runs, so anything the effect records
        follows its cause; an effect that takes place finishes the operation. */
    method JournalAndRun(c: ClaimRequest, w: World, key: OpKey, call: Call, op: Operation)
      requires c.turn in turns && turns[c.turn].key.persona == key.pos.persona
      modifies this`ops, this`trail, this`eventLog, this`last, this`received
      ensures var j := WithCall(old(Model()), c);
              && OnlyFor(key.pos.persona, old(JournalNow()), j)
              && (!w.effect.Works? ==> JournalNow() == j && ops == old(ops) && trail == old(trail))
              && (w.effect.Works? ==>
                    && JournalNow() == Effected(j, turns, key, call, op) && trail == old(trail) + [Applied(key.pos, call)]
                    && ops == old(ops)[key := op.(status := OpDone, receipt := Some(Receipt.Response(w.effect.response)))])
    {
      hide Experienced, NoteJournal, DecidedEvents, PlaceOf, OnlyFor;
      var place := PlanPosition(if turns[c.turn].key in plans then plans[turns[c.turn].key] else [], c.index);
      ExperiencedFor(JournalNow(), OwnersOf(turns), c.turn, turns[c.turn].key, DecidedEvents(place));
      JournalExperience(c.turn, DecidedEvents(place));
      if !w.effect.Works? { return; }
      if call.tool == JournalNote { JournalNoteText(key.pos.persona, op.turn, call.request); }
      ops := ops[key := op.(status := OpDone, receipt := Some(Receipt.Response(w.effect.response)))];
      trail := trail + [Applied(key.pos, call)];
    }

    method JournalNoteText(p: Persona, t: TurnId, text: Payload)
      modifies this`eventLog, this`last, this`received
      ensures JournalNow() == NoteJournal(old(JournalNow()), turns, p, t, text)
    {
      if t in turns { EnsureInputReceived(p, t, turns[t].key.input); }
      PushEvent(p, t, Note(text));
    }

    /** claimGated: the grant is consumed and the call journaled before its effect
        runs; a passing failure restores the grant. */
    method ClaimParked(c: ClaimRequest, w: World, key: OpKey, call: Call, op: Operation) returns (r: ClaimResult)
      requires c.turn in turns && key in ops && ops[key] == op && turns[c.turn].key.persona == key.pos.persona
      modifies this`ops, this`approvals, this`trail, this`eventLog, this`last, this`received
      ensures Ended(ClaimGated(old(Model()), c, w, key, call, op), r, old(Model()), key.pos.persona)
    {
      hide ClaimGated, OnlyFor, Effected, WithCall;
      ghost var s := Model();
      NothingFor(key.pos.persona, JournalNow());
      GatedIs(s, c, w, key, call, op);
      if key.pos !in approvals { return Thrown(Refused(500)); }
      var a := approvals[key.pos];
      if a.status != Approved || a.consumed { return Returned(key, op, Some(a), false); }
      approvals := approvals[key.pos := a.(consumed := true)];
      WithCallSame(s, Model(), c);
      JournalAndRun(c, w, key, call, op);
      if w.effect.Breaks? {
        approvals := approvals[key.pos := a];
        return Thrown(Refused(500));
      }
      if w.effect.Refuses? { ops := ops[key := op.(status := OpFailed, receipt := Some(Error(w.effect.message)))]; }
      return Returned(key, ops[key], Some(a.(consumed := true)), true);
    }

    /** A first claim of an elevated call: its row, then its pending approval. */
    method ParkNew(generation: nat, c: ClaimRequest, w: World, key: OpKey, call: Call) returns (r: ClaimResult)
      modifies this`ops, this`approvals
      ensures Ended(ClaimElevated(old(Model()), generation, c, w, key, call), r, old(Model()), key.pos.persona)
    {
      hide OnlyFor;
      var op := Operation(c.operation, c.turn, c.request, AwaitingApproval, None, generation);
      if w.malformed.Some? {
        var failed := op.(status := OpFailed, receipt := Some(Error(w.malformed.value)));
        ops := ops[key := failed];
        return Returned(key, failed, None, true);
      }
      ops := ops[key := op];
      var a := if key.pos in approvals then approvals[key.pos] else Approval(c.operation, c.turn, call, Pending, None, false);
      approvals := approvals[key.pos := a];
      return Returned(key, op, Some(a), true);
    }

    /** Some denial of an identical call of this input. */
    method FindDenial(pos: Position, call: Call) returns (at: Option<Position>)
      ensures at.None? ==> !WasDenied(approvals, pos, call)
      ensures at.Some? ==> at.value in approvals && DeniedTwin(approvals[at.value], pos, at.value, call)
    {
      var todo := approvals.Keys;
      while exists q :: q in todo
        invariant todo <= approvals.Keys
        invariant forall q :: q in approvals && q !in todo ==> !DeniedTwin(approvals[q], pos, q, call)
        decreases |todo|
      {
        var q :| q in todo;
        if DeniedTwin(approvals[q], pos, q, call) { return Some(q); }
        todo := todo - {q};
      }
      return None;
    }

    /** A first claim of a normal call: its row is set, and deleted again if the
        effect throws. */
    method RunNew(generation: nat, c: ClaimRequest, w: World, key: OpKey, call: Call) returns (r: ClaimResult, ghost cited: Position)
      requires c.turn in turns && key !in ops && turns[c.turn].key.persona == key.pos.persona
      modifies this`ops, this`trail, this`eventLog, this`last, this`received
      ensures Ended(ClaimNormal(old(Model()), generation, c, w.(cited := cited), key, call), r, old(Model()), key.pos.persona)
    {
      hide ClaimNormal, OnlyFor, WasDenied, DeniedTwin;
      ghost var s := Model();
      cited := w.cited;
      var op := Operation(c.operation, c.turn, c.request, OpRunning, None, generation);
      ops := ops[key := op];
      var at := FindDenial(key.pos, call);
      if at.Some? {
        cited := at.value;
        DeniedIs(s, generation, c, w, key, call, at.value);
        r := FailNew(key, op, DeniedBy(at.value), Some(approvals[at.value]), s);
        return;
      }
      if call.tool == MessageSend {
        BlockedIs(s, generation, c, w, key, call);
        r := FailNew(key, op, ElevatedRouteRequired, None, s);
        assert w == w.(cited := cited);
        return;
      }
      r := RunUndenied(c, w, key, call, op, s);
      assert w == w.(cited := cited);
    }

    /** A new row that fails at once; `s` is the store before it was set. */
    method FailNew(key: OpKey, op: Operation, receipt: Receipt, approval: Option<Approval>, ghost s: State) returns (r: ClaimResult)
      requires ops == s.ops[key := op] && approvals == s.approvals && trail == s.trail && JournalNow() == s.journal
      modifies this`ops
      ensures var op' := op.(status := OpFailed, receipt := Some(receipt));
              Ended(Got(s.(ops := s.ops[key := op']), key, op', approval, true), r, s, key.pos.persona)
    {
      var op' := op.(status := OpFailed, receipt := Some(receipt));
      ops := ops[key := op'];
      return Returned(key, op', approval, true);
    }

    /** The row is already set to `op`; `s` is the store before it was. */
    method RunUndenied(c: ClaimRequest, w: World, key: OpKey, call: Call, op: Operation, ghost s: State) returns (r: ClaimResult)
      requires key !in s.ops && ops == s.ops[key := op] && approvals == s.approvals && trail == s.trail
      requires JournalNow() == s.journal && turns == s.turns && plans == s.plans
      requires c.turn in turns && turns[c.turn].key.persona == key.pos.persona
      requires call.tool != MessageSend && !WasDenied(s.approvals, key.pos, call)
      requires op == Operation(c.operation, c.turn, c.request, OpRunning, None, op.generation)
      modifies this`ops, this`trail, this`eventLog, this`last, this`received
      ensures Ended(ClaimNormal(s, op.generation, c, w, key, call), r, s, key.pos.persona)
    {
      hide ClaimNormal, OnlyFor, Effected, WithCall, WasDenied;
      NormalIs(s, op.generation, c, w, key, call);
      WithCallSame(s, Model(), c);
      JournalAndRun(c, w, key, call, op);
      if w.effect.Works? { return Returned(key, ops[key], None, true); }
      ops := map k | k in ops && k != key :: ops[k];
      assert ops == s.ops;
      return Thrown(if w.effect.Refuses? then Refused(400) else Refused(500));
    }

    /** claim: the checks in order, then the row. */
    method ClaimRow(p: Persona, generation: nat, c: ClaimRequest, w: World) returns (r: ClaimResult, ghost cited: Position)
      modifies this`ops, this`approvals, this`trail, this`eventLog, this`last, this`received
      ensures Ended(ClaimBody(old(Model()), p, generation, c, w.(cited := cited)), r, old(Model()), p)
    {
      hide ClaimGated, ClaimElevated, ClaimNormal, OnlyFor;
      NothingFor(p, JournalNow());
      cited := w.cited;
      if (c.tool.Delegated? && c.tool !in registered) || c.nul { return Thrown(Refused(400)), cited; }
      if p !in leases || leases[p].generation != generation { return Thrown(Fenced), cited; }
      if c.turn !in turns || turns[c.turn].key.persona != p { return Thrown(Refused(404)), cited; }
      if turns[c.turn].generation != generation || turns[c.turn].status != Running { return Thrown(Refused(409)), cited; }
      var key := turns[c.turn].key;
      var planned := Flat(if key in plans then plans[key] else []);
      if c.index < 0 || c.index >= |planned| { return Thrown(Refused(409)), cited; }
      var call := planned[c.index];
      if call.tool != c.tool || call.request != c.request { return Thrown(Refused(409)), cited; }
      var k := OpKey(Position(p, key.input, c.index), c.tool);
      if k in ops {
        r := ClaimAgain(generation, c, w, k, call);
      } else if call.route == Elevated {
        r := ParkNew(generation, c, w, k, call);
      } else {
        r, cited := RunNew(generation, c, w, k, call);
      }
    }

    /** A claim whose operation has a row. */
    method ClaimAgain(generation: nat, c: ClaimRequest, w: World, key: OpKey, call: Call) returns (r: ClaimResult)
      requires c.turn in turns && key in ops && turns[c.turn].key.persona == key.pos.persona
      modifies this`ops, this`approvals, this`trail, this`eventLog, this`last, this`received
      ensures forall at :: Ended(ClaimExisting(old(Model()), generation, c, w.(cited := at), key, call), r, old(Model()), key.pos.persona)
    {
      hide ClaimGated, OnlyFor;
      NothingFor(key.pos.persona, JournalNow());
      var op := ops[key];
      if op.request != c.request { return Thrown(Refused(409)); }
      if op.status == OpRunning && op.generation != generation {
        op := op.(generation := generation, turn := c.turn);
        ops := ops[key := op];
        return Returned(key, op, None, true);
      }
      if op.status == AwaitingApproval {
        GatedCitesNothing(Model(), c, w, key, call, op);
        r := ClaimParked(c, w, key, call, op);
        return;
      }
      return Returned(key, op, if key.pos in approvals then Some(approvals[key.pos]) else None, false);
    }

    /** journalRejectedClaim: only at the live turn's recorded position. */
    method JournalRejection(p: Persona, generation: nat, c: ClaimRequest, cause: Payload)
      modifies this`eventLog, this`last, this`received
      ensures JournalNow() == JournalRejected(old(Model()), p, generation, c, cause).journal
    {
      hide Experienced, ResultEvents;
      if p !in leases || leases[p].generation != generation { return; }
      if c.turn !in turns || turns[c.turn].key.persona != p { return; }
      if turns[c.turn].generation != generation || turns[c.turn].status != Running { return; }
      var place := PlanPosition(if turns[c.turn].key in plans then plans[turns[c.turn].key] else [], c.index);
      if place.None? || place.value.call.tool != c.tool || place.value.call.request != c.request { return; }
      JournalExperience(c.turn, ResultEvents(place, Failure(cause, false)));
    }

    /** claimOperation: one transaction.  An error cuts the journal back to the mark
        and, when it is deterministic, is journaled as the call's result. */
    method ClaimOperation(p: Persona, generation: nat, c: ClaimRequest, w: World) returns (reply: Reply, ghost cited: Position)
      modifies this`ops, this`approvals, this`trail, this`eventLog, this`last, this`received
      ensures var (s, answer) := Claim(old(Model()), p, generation, c, w.(cited := cited));
              && ops == s.ops && approvals == s.approvals && trail == s.trail && JournalNow() == s.journal
              && reply == answer
    {
      hide ClaimBody, OnlyFor, ClaimEvents, JournalRejected, Experienced;
      ghost var s0 := Model();
      var mark := TakeMark(p);
      var r;
      r, cited := ClaimRow(p, generation, c, w);
      ClaimIs(s0, p, generation, c, w.(cited := cited));
      if r.Thrown? {
        RollBack(p, mark, s0.journal);
        RejectionReads(s0, Model(), p, generation, c, w.cause);
        if r.reply == Refused(400) { JournalRejection(p, generation, c, w.cause); }
        return r.reply, cited;
      }
      if c.turn !in turns { return Ok, cited; }
      var place := PlanPosition(if turns[c.turn].key in plans then plans[turns[c.turn].key] else [], c.index);
      var events := ClaimEvents(place, r.key, r.op, r.approval);
      if events != [] { JournalExperience(c.turn, events); }
      return Ok, cited;
    }

    // ---------------------------------------------------------- writer leases

    method AcquireWriter(p: Persona, holder: int, ttl: int) returns (lease: Option<Lease>)
      modifies this`leases, this`generations
      ensures var s := Acquire(old(Model()), p, holder, ttl); leases == s.leases && generations == s.generations
      ensures lease.Some? <==> Grants(old(Model()), p, holder)
      ensures lease.Some? ==> p in leases && lease.value == leases[p]
    {
      if p !in personas || personas[p].authority != Active { return None; }
      if p in leases && leases[p].expires > clock && leases[p].holder != holder { return None; }
      var generation := (if p in generations then generations[p] else 0) + 1;
      generations := generations[p := generation];
      leases := leases[p := Lease(generation, holder, clock + ttl)];
      return Some(leases[p]);
    }

    method RenewWriter(p: Persona, holder: int, generation: nat, ttl: int) returns (reply: Reply)
      modifies this`leases
      ensures Model() == Renew(old(Model()), p, holder, generation, ttl)
      ensures reply == if Holds(old(Model()), p, generation) && old(leases)[p].holder == holder then Ok else Fenced
    {
      if p !in leases || leases[p].generation != generation || leases[p].holder != holder { return Fenced; }
      leases := leases[p := leases[p].(expires := clock + ttl)];
      return Ok;
    }

    method ReleaseWriter(p: Persona, holder: int, generation: nat) returns (reply: Reply)
      modifies this`leases
      ensures Model() == Release(old(Model()), p, holder, generation)
      ensures reply == if Holds(old(Model()), p, generation) && old(leases)[p].holder == holder then Ok else Fenced
    {
      if p !in leases || leases[p].generation != generation || leases[p].holder != holder { return Fenced; }
      leases := leases[p := leases[p].(expires := clock - 1)];
      return Ok;
    }

    // ----------------------------------------------------------------- loading

    /** The first queued input whose backoff has expired. */
    method FindClaimable(p: Persona) returns (k: Option<nat>)
      ensures k == FirstClaimable(inputs, p, clock, 0)
    {
      var i := 0;
      while i < |inputs|
        invariant 0 <= i <= |inputs|
        invariant FirstClaimable(inputs, p, clock, 0) == FirstClaimable(inputs, p, clock, i)
      {
        if Claimable(inputs[i], p, clock) { return Some(i); }
        i := i + 1;
      }
      return None;
    }

    method LoadTurn(p: Persona, generation: nat, t: TurnId) returns (reply: Reply)
      modifies this`inputs, this`turns
      ensures var s := Load(old(Model()), p, generation, t); inputs == s.inputs && turns == s.turns
      ensures reply == LoadReply(old(Model()), p, generation)
    {
      if p !in leases || leases[p].generation != generation { return Fenced; }
      if HasRunning(turns, p) {
        if exists r :: r in turns && RunningFor(turns, r, p) && turns[r].generation == generation { return Ok; }
        return Refused(409);
      }
      var k := FindClaimable(p);
      if k.None? { return Ok; }
      var i := inputs[k.value];
      var attempt := Attempts(turns, i.key) + 1;
      turns := turns[t := Turn(i.key, generation, attempt, Running, None, None, None)];
      inputs := inputs[k.value := ClaimInput(i, generation, t)];
      return Ok;
    }

    // --------------------------------------------------------------- savePlan

    method SaveRound(p: Persona, generation: nat, t: TurnId, round: int, decision: Round, nul: bool) returns (reply: Reply)
      modifies this`plans
      ensures Model() == SavePlan(old(Model()), p, generation, t, round, decision, nul)
      ensures reply == SavePlanReply(old(Model()), p, generation, t, round, decision, nul)
    {
      if p !in leases || leases[p].generation != generation { return Fenced; }
      if t !in turns || turns[t].key.persona != p { return Refused(404); }
      if turns[t].generation != generation || turns[t].status != Running { return Refused(409); }
      if nul { return Refused(400); }
      var key := turns[t].key;
      var plan := if key in plans then plans[key] else [];
      if 0 <= round < |plan| {
        if plan[round] == decision { return Ok; }
        return Refused(409);
      }
      if round != |plan| { return Refused(409); }
      plans := plans[key := plan + [decision]];
      return Ok;
    }

    // ----------------------------------------------------------------- usage

    /** fundingSpend: what the funding has spent and holds in a currency. */
    method FundingSpend(fund: Funding, c: Currency) returns (spent: int, held: int)
      ensures spent == Spent(facts, fund, c) && held == HeldSum(reservations, fund, c)
    {
      spent, held := 0, 0;
      var i := 0;
      while i < |facts|
        invariant 0 <= i <= |facts| && spent == Spent(facts[..i], fund, c)
      {
        assert facts[..i + 1][..i] == facts[..i];
        if facts[i].funding == fund && facts[i].currency == Some(c) { spent := spent + facts[i].cost.GetOr(0); }
        i := i + 1;
      }
      assert facts[..i] == facts;
      i := 0;
      while i < |reservations|
        invariant 0 <= i <= |reservations| && held == HeldSum(reservations[..i], fund, c)
      {
        assert reservations[..i + 1][..i] == reservations[..i];
        var r := reservations[i];
        if r.funding == fund && r.status == Held && r.card.Some? && r.card.value.currency == c { held := held + r.reserved; }
        i := i + 1;
      }
      assert reservations[..i] == reservations;
    }

    method FitEstimate(fund: Funding, e: Estimate) returns (fits: bool)
      ensures fits == Fits(LedgerNow(), fund, e)
    {
      if fund !in budgets { return true; }
      var b := budgets[fund];
      var needed := PriceEstimate(e, b.card);
      var spent, held := FundingSpend(fund, b.card.currency);
      return needed <= b.limit && spent + held <= b.limit - needed;
    }

    method AdmitCall(p: Persona, generation: nat, req: AdmitRequest) returns (reply: Reply)
      modifies this`reservations
      ensures Model() == AdmitUsage(old(Model()), p, generation, req)
      ensures reply == AdmitReply(old(Model()), p, generation, req)
    {
      if p !in leases || leases[p].generation != generation { return Fenced; }
      if !req.valid { return Refused(400); }
      var key := CallKey(p, req.fact);
      var k := FindHold(reservations, key);
      if k.Some? {
        var r := reservations[k.value];
        return if r.funding != req.funding || r.status != Held then Refused(409) else Ok;
      }
      var fits := FitEstimate(req.funding, req.estimate);
      if !fits { return Denied; }
      var card := if req.funding in budgets then Some(budgets[req.funding].card) else None;
      var needed := match card case Some(c) => PriceEstimate(req.estimate, c) case None => 0;
      reservations := reservations + [Reservation(key, req.identity, req.funding, generation, needed, card, req.estimate, Held)];
      return Ok;
    }

    /** reconcileHeldReservation over the selected holds, in insertion order. */
    method ReconcileHolds(sel: Selector)
      modifies this`reservations, this`facts
      ensures LedgerNow() == Reconcile(old(LedgerNow()), sel, 0)
    {
      var i := 0;
      while i < |reservations|
        invariant 0 <= i <= |reservations|
        invariant Reconcile(LedgerNow(), sel, i) == Reconcile(old(LedgerNow()), sel, 0)
        decreases |reservations| - i
      {
        var r := reservations[i];
        if Selects(sel, r) {
          if FindFact(facts, r.key).None? { facts := facts + [LostRecord(r)]; }
          reservations := reservations[i := r.(status := Settled)];
        }
        i := i + 1;
      }
    }

    // -------------------------------------------------------- waits and recovery

    /** Requeue every input in `freed` that waits for nothing else. */
    method RequeueFreed(freed: set<InputKey>)
      modifies this`inputs
      ensures |inputs| == |old(inputs)|
      ensures forall k :: 0 <= k < |inputs| ==> inputs[k] == Woken(old(inputs)[k], freed, approvals, clock)
    {
      var i := 0;
      while i < |inputs|
        invariant 0 <= i <= |inputs| == |old(inputs)|
        invariant forall k :: 0 <= k < i ==> inputs[k] == Woken(old(inputs)[k], freed, approvals, clock)
        invariant forall k :: i <= k < |inputs| ==> inputs[k] == old(inputs)[k]
      {
        if inputs[i].key in freed && inputs[i].status == Waiting && !PendingFor(approvals, inputs[i].key) {
          inputs := inputs[i := Requeued(inputs[i], clock)];
        }
        i := i + 1;
      }
    }

    /** Price each wait under the card now in force: delete the ones that fit,
        restate the rest. */
    method FreeFitting(fund: Funding) returns (freed: set<InputKey>)
      modifies this`waits
      ensures freed == set k | k in old(waits) && old(waits)[k].funding == fund && Fits(LedgerNow(), fund, old(waits)[k].estimate)
      ensures waits == map k | k in old(waits) && k !in freed :: Restated(LedgerNow(), old(waits)[k], fund)
    {
      ghost var was := waits;
      var todo := waits.Keys;
      freed := {};
      while exists k :: k in todo
        invariant todo <= was.Keys
        invariant freed == set k | k in was && k !in todo && was[k].funding == fund && Fits(LedgerNow(), fund, was[k].estimate)
        invariant waits == map k | k in was && k !in freed :: if k in todo then was[k] else Restated(LedgerNow(), was[k], fund)
        decreases |todo|
      {
        var k :| k in todo;
        var w := waits[k];
        if w.funding == fund {
          var fits := FitEstimate(fund, w.estimate);
          if fits {
            freed := freed + {k};
            waits := map x | x in waits && x != k :: waits[x];
          } else {
            waits := waits[k := w.(needed := PriceEstimate(w.estimate, budgets[fund].card), currency := budgets[fund].card.currency)];
          }
        }
        todo := todo - {k};
      }
    }

    /** resumeBudgetWaits: requeue what fits, unless a pending approval also
        holds it. */
    method ResumeBudgetWaits(fund: Funding)
      modifies this`waits, this`inputs
      ensures var s := ResumeWaits(old(Model()), fund); waits == s.waits && inputs == s.inputs
    {
      hide Woken, Restated, Fits, ResumeWaits;
      ghost var s0 := Model();
      var freed := FreeFitting(fund);
      assert freed == Fitting(s0, fund);
      RequeueFreed(freed);
      ResumeIs(s0, fund, freed, waits, inputs);
    }

    method SetUsageBudget(fund: Funding, b: Option<Budget>)
      modifies this`budgets, this`waits, this`inputs
      ensures var s := SetBudget(old(Model()), fund, b); budgets == s.ledger.budgets && waits == s.waits && inputs == s.inputs
    {
      if b.Some? {
        budgets := budgets[fund := b.value];
      } else {
        budgets := map f | f in budgets && f != fund :: budgets[f];
        assert budgets == old(budgets) - {fund};
      }
      ResumeBudgetWaits(fund);
    }

    /** recordUsage: a new fact, a replay, an upgrade or a conflict; whatever may
        have freed headroom re-evaluates the funding's waits. */
    method RecordCall(p: Persona, req: RecordRequest) returns (reply: Reply)
      modifies this`reservations, this`facts, this`waits, this`inputs
      ensures var s := RecordUsage(old(Model()), p, req); LedgerNow() == s.ledger && waits == s.waits && inputs == s.inputs
      ensures reply == Record(old(LedgerNow()), p, req).reply
    {
      if !req.valid || req.status == Unrecorded || BadTokens(req) { return Refused(400); }
      var key := CallKey(p, req.fact);
      var h := FindHold(reservations, key);
      if h.Some? && reservations[h.value].funding != req.funding { return Refused(409); }
      var hold := match h case Some(k) => Some(reservations[k]) case None => None;
      var fact := Resolved(Ledger(budgets, reservations, facts), key, hold, req);
      var k := FindFact(facts, key);
      var resume: bool;
      if k.None? { reply, resume := Ok, h.Some?; RecordFirst(h, fact, req.status); }
      else { reply, resume := RecordOver(h, k.value, fact, req); }
      if resume { ResumeBudgetWaits(req.funding); }
    }

    /** The call's first fact settles or releases its hold. */
    method RecordFirst(h: Option<nat>, fact: Fact, status: FactStatus)
      requires h.Some? ==> h.value < |reservations|
      modifies this`reservations, this`facts
      ensures facts == old(facts) + [fact]
      ensures reservations ==
                if h.None? || old(reservations)[h.value].status != Held then old(reservations)
                else SetStatus(old(reservations), h.value, if status == NotSent then Released else Settled)
    {
      facts := facts + [fact];
      if h.Some? && reservations[h.value].status == Held {
        reservations := SetStatus(reservations, h.value, if status == NotSent then Released else Settled);
      }
    }

    /** A record for a fact already on file. */
    method RecordOver(h: Option<nat>, k: nat, fact: Fact, req: RecordRequest) returns (reply: Reply, resume: bool)
      requires k < |facts| && (h.Some? ==> h.value < |reservations|)
      modifies this`reservations, this`facts
      ensures Recorded(LedgerNow(), reply, resume) == RecordAgain(old(LedgerNow()), h, k, req, fact)
    {
      var prior := facts[k];
      if prior.identity != req.identity || prior.funding != req.funding { return Refused(409), false; }
      if prior.status == req.status && prior.tokens == req.tokens { return Ok, false; }
      if prior.status == Reported && req.status == Unknown && SuppliedAgree(prior, req.tokens) { return Ok, false; }
      if prior.status != Unrecorded && !(prior.status == Unknown && req.status == Reported) { return Refused(409), false; }
      facts := facts[k := fact];
      if req.status == NotSent && h.Some? { reservations := SetStatus(reservations, h.value, Released); }
      return Ok, true;
    }

    /** Did the turn journal anything from record `from` on? */
    method HasJournaled(p: Persona, t: TurnId, from: nat) returns (found: bool)
      ensures found <==> exists k :: 0 <= k < |eventLog| && eventLog[k].persona == p && eventLog[k].num >= from && eventLog[k].turn == t
    {
      var i := 0;
      while i < |eventLog|
        invariant 0 <= i <= |eventLog|
        invariant forall k :: 0 <= k < i ==> !(eventLog[k].persona == p && eventLog[k].num >= from && eventLog[k].turn == t)
      {
        if eventLog[i].persona == p && eventLog[i].num >= from && eventLog[i].turn == t { return true; }
        i := i + 1;
      }
      return false;
    }

    /** A turn that already journaled experience says its request stopped there. */
    method MarkStopped(p: Persona, t: TurnId, input: InputId)
      modifies this`eventLog, this`last
      ensures JournalNow() == MarkInterrupted(old(JournalNow()), p, t, input)
    {
      if InputKey(p, input) !in received { return; }
      var found := HasJournaled(p, t, received[InputKey(p, input)]);
      if found { PushEvent(p, t, TurnPaused(ByCrash)); }
    }

    /** Interrupt the persona's running turns, one after the other. */
    method InterruptTurns(p: Persona) returns (ghost order: seq<TurnId>)
      modifies this`turns, this`eventLog, this`last
      ensures turns == map t | t in old(turns) :: InterruptTurn(old(turns)[t], p)
      ensures Enumerates(order, RunningTurns(old(turns), p))
      ensures JournalNow() == MarkEach(old(JournalNow()), p, old(turns), order)
    {
      hide MarkInterrupted, MarkEach;
      MarkNone(JournalNow(), p, turns);
      ghost var was, j0 := turns, JournalNow();
      order := [];
      ghost var done: set<TurnId> := {};
      var todo := turns.Keys;
      while exists t :: t in todo
        invariant todo <= was.Keys
        invariant turns == map t | t in was :: if t in todo then was[t] else InterruptTurn(was[t], p)
        invariant done == set t | t in was && t !in todo && was[t].key.persona == p && was[t].status == Running
        invariant Enumerates(order, done)
        invariant JournalNow() == MarkEach(j0, p, was, order)
        decreases |todo|
      {
        var t :| t in todo;
        if turns[t].key.persona == p && turns[t].status == Running {
          turns := turns[t := turns[t].(status := Interrupted)];
          MarkStopped(p, t, turns[t].key.input);
          MarkEachSnoc(j0, p, was, order, t);
          EnumeratesSnoc(order, done, t);
          order, done := order + [t], done + {t};
        }
        todo := todo - {t};
      }
      assert done == RunningTurns(was, p);
    }

    method RequeueClaims(p: Persona)
      modifies this`inputs
      ensures |inputs| == |old(inputs)| && forall k :: 0 <= k < |inputs| ==> inputs[k] == RequeueClaimed(old(inputs)[k], p)
    {
      var i := 0;
      while i < |inputs|
        invariant 0 <= i <= |inputs| == |old(inputs)|
        invariant forall k :: 0 <= k < i ==> inputs[k] == RequeueClaimed(old(inputs)[k], p)
        invariant forall k :: i <= k < |inputs| ==> inputs[k] == old(inputs)[k]
      {
        if inputs[i].key.persona == p && inputs[i].status == Claimed {
          inputs := inputs[i := inputs[i].(status := Queued, claimedGeneration := None, turn := None)];
        }
        i := i + 1;
      }
    }

    /** recover: interrupt, requeue the claimed inputs, reconcile dead holds.  The
        order in which several running turns would be marked is the object's own;
        with at most one, as on every run, the journal is the step's. */
    method Recovery(p: Persona, generation: nat) returns (reply: Reply, ghost order: seq<TurnId>)
      modifies this`turns, this`eventLog, this`last, this`inputs, this`reservations, this`facts
      ensures reply == if Holds(old(Model()), p, generation) then Ok else Fenced
      ensures var s := Recover(old(Model()), p, generation);
              turns == s.turns && inputs == s.inputs && LedgerNow() == s.ledger
      ensures reply == Ok ==> Enumerates(order, RunningTurns(old(turns), p))
                              && JournalNow() == MarkEach(old(JournalNow()), p, old(turns), order)
      ensures reply == Fenced || Lifecycle.OneRunning(old(turns)) ==>
                JournalNow() == Recover(old(Model()), p, generation).journal
    {
      hide Recover, MarkAll, MarkEach, Reconcile, RequeueClaimed, InterruptTurn, RunningTurns, Enumerates;
      ghost var s0 := Model();
      order := [];
      if p !in leases || leases[p].generation != generation { RecoverFenced(s0, p, generation); return Fenced, order; }
      order := InterruptTurns(p);
      RequeueClaims(p);
      ReconcileHolds(BeforeGeneration(p, generation));
      RecoverIs(s0, p, generation, turns, inputs, LedgerNow());
      if Lifecycle.OneRunning(s0.turns) { MarkAllAtMostOne(s0.journal, p, s0.turns, order); }
      return Ok, order;
    }

    // --------------------------------------------------------------- decisions

    /** A denial finalizes its parked operation, wherever it is stored. */
    method DenyParked(p: Persona, pos: Position, operation: int)
      modifies this`ops
      ensures ops == map o | o in old(ops) :: DenyOp(o, old(ops)[o], p, pos, operation)
    {
      ghost var was := ops;
      var todo := ops.Keys;
      while exists o :: o in todo
        invariant todo <= was.Keys
        invariant ops == map o | o in was :: if o in todo then was[o] else DenyOp(o, was[o], p, pos, operation)
        decreases |todo|
      {
        var o :| o in todo;
        if o.pos.persona == p && ops[o].id == operation && ops[o].status == AwaitingApproval {
          ops := ops[o := ops[o].(status := OpFailed, receipt := Some(DeniedBy(pos)))];
        }
        todo := todo - {o};
      }
    }

    method ResolveApproval(p: Persona, pos: Position, d: Decision, valid: bool) returns (reply: Reply)
      modifies this`approvals, this`ops, this`eventLog, this`last, this`inputs, this`trail
      ensures var s := Resolve(old(Model()), p, pos, d, valid);
              approvals == s.approvals && ops == s.ops && JournalNow() == s.journal && inputs == s.inputs && trail == s.trail
      ensures reply == ResolveReply(old(Model()), p, pos, d, valid)
    {
      if !valid { return Refused(400); }
      if p in personas && personas[p].authority != Active { return Refused(409); }
      if p !in personas || personas[p].human != Some(d.decider) { return Refused(403); }
      if pos !in approvals || pos.persona != p { return Refused(404); }
      if approvals[pos].status != Pending { return if approvals[pos].decision == Some(d) then Ok else Refused(409); }
      Decide(p, pos, d);
      return Ok;
    }

    /** Record the decision, finalize a denied operation, journal it and requeue
        the parked input. */
    method Decide(p: Persona, pos: Position, d: Decision)
      requires Decides(Model(), p, pos, d, true)
      modifies this`approvals, this`ops, this`eventLog, this`last, this`inputs, this`trail
      ensures var s := Resolve(old(Model()), p, pos, d, true);
              approvals == s.approvals && ops == s.ops && JournalNow() == s.journal && inputs == s.inputs && trail == s.trail
    {
      hide DecidedInputs, Push, DenyOp, Resolve;
      ghost var s0 := Model();
      var a := approvals[pos];
      approvals := approvals[pos := a.(status := if d.approve then Approved else DeniedApproval, decision := Some(d))];
      if !d.approve { DenyParked(p, pos, a.operation); }
      PushEvent(p, a.turn, ApprovalDecided(pos, d.approve, d.decider));
      trail := trail + [Decided(pos, d, personas[p].human)];
      RequeueDecided(InputKey(p, pos.input));
      ResolveIs(s0, p, pos, d);
    }

    method RequeueDecided(key: InputKey)
      modifies this`inputs
      ensures inputs == DecidedInputs(old(inputs), key, clock)
    {
      var k := FindInput(inputs, key);
      if k.Some? && inputs[k.value].status == Waiting {
        inputs := inputs[k.value := Requeued(inputs[k.value], clock)];
      }
    }

    // ----------------------------------------------------------------- commit

    /** Does every receipt in the batch name an input this persona holds? */
    method ReceiptsValid(p: Persona, events: seq<EventInput>) returns (ok: bool)
      ensures ok <==> !exists e :: e in events && BadReceipt(Model(), p, e)
    {
      var i := 0;
      while i < |events|
        invariant 0 <= i <= |events|
        invariant forall k :: 0 <= k < i ==> !BadReceipt(Model(), p, events[k])
      {
        var e := events[i];
        if e.InputReceived? && (e.input.None? || FindInput(inputs, InputKey(p, e.input.value)).None?) {
          assert e in events && BadReceipt(Model(), p, e);
          return false;
        }
        i := i + 1;
      }
      return true;
    }

    /** What the commit does to its input, and the row a budget wait leaves. */
    method Dispose(t: TurnId, k: nat, attempt: nat, req: CommitRequest)
      requires k < |inputs| && !MalformedWait(req)
      modifies this`inputs, this`waits
      ensures inputs == old(inputs)[k := DisposedInput(old(Model()), old(inputs)[k], attempt, req)]
      ensures waits == CommitWaits(old(Model()), t, old(inputs)[k].key, req)
    {
      var i := inputs[k];
      match req.outcome
      case ToComplete => inputs := inputs[k := i.(status := Done)];
      case ToFail =>
        if req.retryable {
          var at := clock + Max(BackoffMs(attempt), Min(Max(req.retryAfter, 0), 120_000));
          inputs := inputs[k := i.(status := Queued, claimedGeneration := None, turn := None, notBefore := Some(at))];
        } else {
          inputs := inputs[k := i.(status := Done)];
        }
      case ToAwait =>
        var parks: bool;
        if req.wait.Some? {
          var w := req.wait.value;
          var fits := FitEstimate(w.funding, w.estimate.value);
          parks := !fits;
          if parks {
            var card := budgets[w.funding].card;
            waits := waits[i.key := WaitRow(t, w.funding, w.estimate.value, PriceEstimate(w.estimate.value, card), card.currency)];
          }
        } else {
          parks := PendingFor(approvals, i.key);
        }
        inputs := inputs[k := if parks then Parked(i, clock) else BackInQueue(i)];
    }

    method CommitTurn(p: Persona, t: TurnId, generation: nat, req: CommitRequest) returns (reply: Reply)
      modifies this`eventLog, this`last, this`received, this`turns, this`inputs, this`waits, this`commits, this`reservations, this`facts
      ensures var s := Commit(old(Model()), p, t, generation, req);
              && JournalNow() == s.journal && turns == s.turns && inputs == s.inputs && waits == s.waits
              && commits == s.commits && LedgerNow() == s.ledger
      ensures reply == CommitReply(old(Model()), p, t, generation, req)
    {
      hide Committed;
      if p !in leases || leases[p].generation != generation { return Fenced; }
      if t !in turns || turns[t].key.persona != p { return Refused(500); }
      if turns[t].status != Running { return if t in commits && commits[t] != req then Refused(409) else Ok; }
      if req.unstorable { return Refused(400); }
      var valid := ReceiptsValid(p, req.events);
      if !valid { return Refused(400); }
      var turn := turns[t];
      var k := FindInput(inputs, turn.key);
      if k.None? { return Refused(500); }
      Close(p, t, generation, k.value, req);
      return if MalformedWait(req) then Refused(400) else Ok;
    }

    method LandRecords(p: Persona, t: TurnId, req: CommitRequest)
      requires t in turns && turns[t].key.persona == p && !CommitRefused(Model(), p, req)
      modifies this`eventLog, this`last, this`received
      ensures JournalNow() == CommitJournal(old(Model()), p, t, req)
    {
      CommitReceipts(Model(), p, req);
      AppendEvents(p, t, req.events);
    }

    /** The records land, the turn closes, the input is disposed of, the request
        is stored and the turn's holds are reconciled; a malformed wait stops it
        once the turn is closed. */
    method Close(p: Persona, t: TurnId, generation: nat, k: nat, req: CommitRequest)
      requires Commits(Model(), p, t, generation, req) && FindInput(inputs, turns[t].key) == Some(k)
      modifies this`eventLog, this`last, this`received, this`turns, this`inputs, this`waits, this`commits, this`reservations, this`facts
      ensures var s := Committed(old(Model()), p, t, generation, req);
              && JournalNow() == s.journal && turns == s.turns && inputs == s.inputs && waits == s.waits
              && commits == s.commits && LedgerNow() == s.ledger
    {
      hide Reconcile, CommitJournal, DisposedInput, CommitWaits, ClosedTurn, FindInput, Committed, CommitRefused;
      ghost var s0 := Model();
      var turn := turns[t];
      LandRecords(p, t, req);
      turns := turns[t := ClosedTurn(turn, req)];
      CommittedIs(s0, p, t, generation, k, req);
      if MalformedWait(req) { return; }
      DisposeFrame(s0, Model(), s0.inputs[k], turn.attempt, t, req);
      Dispose(t, k, turn.attempt, req);
      commits := commits[t := Stored(req)];
      ReconcileHolds(OfTurn(p, t));
    }
  }

  lemma CommittedIs(s: State, p: Persona, t: TurnId, g: nat, k: nat, req: CommitRequest)
    requires Commits(s, p, t, g, req) && FindInput(s.inputs, s.turns[t].key) == Some(k)
    ensures var s', turn := Committed(s, p, t, g, req), s.turns[t];
            && s'.journal == CommitJournal(s, p, t, req) && s'.turns == s.turns[t := ClosedTurn(turn, req)]
            && (MalformedWait(req) ==> s'.inputs == s.inputs && s'.waits == s.waits && s'.commits == s.commits && s'.ledger == s.ledger)
            && (!MalformedWait(req) ==>
                  && s'.inputs == s.inputs[k := DisposedInput(s, s.inputs[k], turn.attempt, req)]
                  && s'.waits == CommitWaits(s, t, turn.key, req)
                  && s'.commits == s.commits[t := Stored(req)] && s'.ledger == Reconcile(s.ledger, OfTurn(p, t), 0))
  {
    hide Reconcile, CommitJournal, DisposedInput, CommitWaits, ClosedTurn, CommitRefused;
    if MalformedWait(req) { return; }
  }

  lemma CommitReceipts(s: State, p: Persona, req: CommitRequest)
    requires !CommitRefused(s, p, req)
    ensures forall e :: e in req.events && e.InputReceived? ==> e.input.Some?
  {
    assert forall e :: e in req.events && e.InputReceived? ==> !BadReceipt(s, p, e);
  }

  lemma RecoverFenced(s: State, p: Persona, g: nat)
    requires !Holds(s, p, g)
    ensures Recover(s, p, g) == s
  {
  }

  lemma ResolveIs(s: State, p: Persona, pos: Position, d: Decision)
    requires Decides(s, p, pos, d, true)
    ensures var a, s' := s.approvals[pos], Resolve(s, p, pos, d, true);
            && s'.approvals == s.approvals[pos := a.(status := if d.approve then Approved else DeniedApproval, decision := Some(d))]
            && s'.ops == (if d.approve then s.ops else map o | o in s.ops :: DenyOp(o, s.ops[o], p, pos, a.operation))
            && s'.journal == Push(s.journal, p, a.turn, ApprovalDecided(pos, d.approve, d.decider))
            && s'.inputs == DecidedInputs(s.inputs, InputKey(p, pos.input), s.clock)
            && s'.trail == s.trail + [Decided(pos, d, s.personas[p].human)]
  {
    hide DecidedInputs, Push, DenyOp;
    if d.approve { return; }
  }

  /** Closing the turn does not change how its input is disposed of. */
  lemma DisposeFrame(s: State, s': State, i: Input, attempt: nat, t: TurnId, req: CommitRequest)
    requires !MalformedWait(req)
    requires s'.ledger == s.ledger && s'.approvals == s.approvals && s'.clock == s.clock && s'.waits == s.waits
    ensures DisposedInput(s', i, attempt, req) == DisposedInput(s, i, attempt, req)
    ensures CommitWaits(s', t, i.key, req) == CommitWaits(s, t, i.key, req)
  {
    hide Fits, PendingFor;
    if req.outcome == ToComplete { return; }
    if req.outcome == ToFail { return; }
    if Parks(s, i.key, req.wait) { return; }
  }

  lemma NothingFor(p: Persona, j: Journal)
    ensures OnlyFor(p, j, j)
  {
  }

  lemma {:induction false} AppendFreshFor(j: Journal, p: Persona, t: TurnId, events: seq<EventInput>, seen: set<Experience>)
    ensures OnlyFor(p, j, AppendFresh(j, p, t, events, seen))
    decreases |events|
  {
    if events == [] { return; }
    var x := ExperienceKey(events[0]);
    if x.Some? && x.value in seen {
      AppendFreshFor(j, p, t, events[1..], seen);
      return;
    }
    AppendFreshFor(Push(j, p, t, events[0]), p, t, events[1..], if x.Some? then seen + {x.value} else seen);
  }

  /** A turn's experience is journaled for its own persona only. */
  lemma ExperiencedFor(j: Journal, owners: Owners, t: TurnId, key: InputKey, events: seq<EventInput>)
    ensures OnlyFor(key.persona, j, Experienced(j, owners, t, key, events))
  {
    var j1 := EnsureReceived(j, key.persona, t, key.input);
    AppendFreshFor(j1, key.persona, t, events, Lineage(j1.log, owners, key));
  }

  /** The journal once the claim's call is in it. */
  ghost function WithCall(s: State, c: ClaimRequest): Journal
    requires c.turn in s.turns
  {
    Experienced(s.journal, OwnersOf(s.turns), c.turn, s.turns[c.turn].key,
                DecidedEvents(PlaceOf(PlanOf(s, s.turns[c.turn].key), c.index)))
  }

  /** And once its effect, if it is a note, is in it too. */
  ghost function Effected(j: Journal, turns: map<TurnId, Turn>, key: OpKey, call: Call, op: Operation): Journal {
    if call.tool == JournalNote then NoteJournal(j, turns, key.pos.persona, op.turn, call.request) else j
  }

  lemma WithCallSame(s: State, s': State, c: ClaimRequest)
    requires c.turn in s.turns && s'.turns == s.turns && s'.journal == s.journal && s'.plans == s.plans
    ensures WithCall(s', c) == WithCall(s, c)
  {
  }

  /** The rows, effects and records of a claim under a grant. */
  lemma GatedIs(s: State, c: ClaimRequest, w: World, key: OpKey, call: Call, op: Operation)
    requires c.turn in s.turns
    ensures var b := ClaimGated(s, c, w, key, call, op);
            if key.pos !in s.approvals then b == Threw(Refused(500)) else
            var a := s.approvals[key.pos];
            if a.status != Approved || a.consumed then b == Got(s, key, op, Some(a), false)
            else if w.effect.Breaks? then b == Threw(Refused(500))
            else
              var op' := if w.effect.Works? then op.(status := OpDone, receipt := Some(Receipt.Response(w.effect.response)))
                         else op.(status := OpFailed, receipt := Some(Error(w.effect.message)));
              && b.Got? && b.key == key && b.op == op' && b.approval == Some(a.(consumed := true)) && b.created
              && b.state.ops == s.ops[key := op'] && b.state.approvals == s.approvals[key.pos := a.(consumed := true)]
              && b.state.trail == (if w.effect.Works? then s.trail + [Applied(key.pos, call)] else s.trail)
              && b.state.journal == if w.effect.Works? then Effected(WithCall(s, c), s.turns, key, call, op) else WithCall(s, c)
  {
    hide Experienced, NoteJournal, DecidedEvents, PlaceOf;
    if key.pos !in s.approvals { return; }
    var a := s.approvals[key.pos];
    if a.status != Approved || a.consumed { return; }
    if w.effect.Breaks? { return; }
    SpendIs(s, c, key);
    hide Spend, WithCall;
    if w.effect.Works? { return; }
  }

  lemma SpendIs(s: State, c: ClaimRequest, key: OpKey)
    requires c.turn in s.turns && key.pos in s.approvals
    ensures var s1 := Spend(s, c, key);
            && s1.approvals == s.approvals[key.pos := s.approvals[key.pos].(consumed := true)] && s1.journal == WithCall(s, c)
            && s1.ops == s.ops && s1.trail == s.trail && s1.turns == s.turns
  {
    hide Experienced, DecidedEvents, PlaceOf;
  }

  /** The rows, effects and records of a normal call nobody denied. */
  lemma NormalIs(s: State, g: nat, c: ClaimRequest, w: World, key: OpKey, call: Call)
    requires c.turn in s.turns && call.tool != MessageSend && !WasDenied(s.approvals, key.pos, call)
    ensures var b := ClaimNormal(s, g, c, w, key, call);
            var op := Operation(c.operation, c.turn, c.request, OpRunning, None, g);
            match w.effect
            case Refuses(_) => b == Threw(Refused(400))
            case Breaks => b == Threw(Refused(500))
            case Works(response) =>
              var op' := op.(status := OpDone, receipt := Some(Receipt.Response(response)));
              && b.Got? && b.key == key && b.op == op' && b.approval == None && b.created
              && b.state.ops == s.ops[key := op'] && b.state.approvals == s.approvals
              && b.state.trail == s.trail + [Applied(key.pos, call)]
              && b.state.journal == Effected(WithCall(s, c), s.turns, key, call, op)
  {
    hide Experienced, NoteJournal, DecidedEvents, PlaceOf, WasDenied;
    if w.effect.Works? { return; }
  }

  lemma DeniedIs(s: State, g: nat, c: ClaimRequest, w: World, key: OpKey, call: Call, at: Position)
    requires c.turn in s.turns && at in s.approvals && DeniedTwin(s.approvals[at], key.pos, at, call)
    ensures var b := ClaimNormal(s, g, c, w.(cited := at), key, call);
            var op := Operation(c.operation, c.turn, c.request, OpFailed, Some(DeniedBy(at)), g);
            b == Got(s.(ops := s.ops[key := op]), key, op, Some(s.approvals[at]), true)
  {
    assert WasDenied(s.approvals, key.pos, call);
  }

  lemma BlockedIs(s: State, g: nat, c: ClaimRequest, w: World, key: OpKey, call: Call)
    requires c.turn in s.turns && !WasDenied(s.approvals, key.pos, call) && call.tool == MessageSend
    ensures var b := ClaimNormal(s, g, c, w, key, call);
            var op := Operation(c.operation, c.turn, c.request, OpFailed, Some(ElevatedRouteRequired), g);
            b == Got(s.(ops := s.ops[key := op]), key, op, None, true)
  {
  }

  lemma GatedCitesNothing(s: State, c: ClaimRequest, w: World, key: OpKey, call: Call, op: Operation)
    requires c.turn in s.turns
    ensures forall at :: ClaimGated(s, c, w.(cited := at), key, call, op) == ClaimGated(s, c, w, key, call, op)
  {
    hide Spend, ApplyTool, Fail;
  }

  /** What a rejection's record depends on. */
  lemma RejectionReads(s: State, s': State, p: Persona, g: nat, c: ClaimRequest, cause: Payload)
    requires s'.leases == s.leases && s'.turns == s.turns && s'.plans == s.plans && s'.journal == s.journal
    ensures JournalRejected(s', p, g, c, cause).journal == JournalRejected(s, p, g, c, cause).journal
  {
    hide PlaceOf, ResultEvents, Experienced;
    if !LiveTurn(s, p, g, c.turn) { return; }
    var place := PlaceOf(PlanOf(s, s.turns[c.turn].key), c.index);
    if place.None? || place.value.call.tool != c.tool || place.value.call.request != c.request { return; }
  }

  lemma RejectionOnlyJournals(s: State, p: Persona, g: nat, c: ClaimRequest, cause: Payload)
    ensures var s' := JournalRejected(s, p, g, c, cause);
            s'.ops == s.ops && s'.approvals == s.approvals && s'.trail == s.trail
  {
    hide PlaceOf, ResultEvents, Experienced;
    if !LiveTurn(s, p, g, c.turn) { return; }
    var place := PlaceOf(PlanOf(s, s.turns[c.turn].key), c.index);
    if place.None? || place.value.call.tool != c.tool || place.value.call.request != c.request { return; }
  }

  /** What the claim step does with its body's result. */
  lemma ClaimIs(s: State, p: Persona, g: nat, c: ClaimRequest, w: World)
    ensures var b, (s', reply) := ClaimBody(s, p, g, c, w), Claim(s, p, g, c, w);
            && (b.Threw? ==>
                  && reply == b.reply && s'.ops == s.ops && s'.approvals == s.approvals && s'.trail == s.trail
                  && s'.journal == if b.reply == Refused(400) then JournalRejected(s, p, g, c, w.cause).journal else s.journal)
            && (b.Got? ==>
                  && reply == Ok && s'.ops == b.state.ops && s'.approvals == b.state.approvals && s'.trail == b.state.trail
                  && b.state.turns == s.turns && b.state.plans == s.plans
                  && s'.journal == if c.turn !in s.turns then b.state.journal else
                                   var events := ClaimEvents(PlaceOf(PlanOf(s, s.turns[c.turn].key), c.index), b.key, b.op, b.approval);
                                   if events == [] then b.state.journal
                                   else Experienced(b.state.journal, OwnersOf(s.turns), c.turn, s.turns[c.turn].key, events))
  {
    hide ClaimBody, ClaimEvents, JournalRejected, Experienced, PlaceOf;
    var b := ClaimBody(s, p, g, c, w);
    if b.Threw? { RejectionOnlyJournals(s, p, g, c, w.cause); return; }
    Runs.ClaimBodyForward(s, p, g, c, w);
    if c.turn !in s.turns { return; }
  }

  lemma ResumeIs(s: State, fund: Funding, freed: set<InputKey>, waits: map<InputKey, WaitRow>, inputs: seq<Input>)
    requires freed == Fitting(s, fund)
    requires waits == map k | k in s.waits && k !in freed :: Restated(s.ledger, s.waits[k], fund)
    requires |inputs| == |s.inputs|
    requires forall k :: 0 <= k < |inputs| ==> inputs[k] == Woken(s.inputs[k], freed, s.approvals, s.clock)
    ensures ResumeWaits(s, fund) == s.(waits := waits, inputs := inputs)
  {
    hide Woken, Fitting, Restated;
    var s' := ResumeWaits(s, fund);
    assert s'.inputs == inputs;
    assert s'.waits == waits;
  }

  lemma RecoverIs(s: State, p: Persona, g: nat, turns: map<TurnId, Turn>, inputs: seq<Input>, l: Ledger)
    requires Holds(s, p, g)
    requires turns == map t | t in s.turns :: InterruptTurn(s.turns[t], p)
    requires |inputs| == |s.inputs| && forall k :: 0 <= k < |inputs| ==> inputs[k] == RequeueClaimed(s.inputs[k], p)
    requires l == Reconcile(s.ledger, BeforeGeneration(p, g), 0)
    ensures var s' := Recover(s, p, g);
            && s'.turns == turns && s'.inputs == inputs && s'.ledger == l
            && s'.journal == MarkAll(s.journal, p, s.turns, RunningTurns(s.turns, p))
  {
    hide MarkAll, Reconcile, RequeueClaimed, InterruptTurn;
    assert Recover(s, p, g).inputs == inputs;
  }

  /** Each element of the set once. */
  ghost predicate Enumerates(order: seq<TurnId>, ts: set<TurnId>) {
    (forall t :: t in order <==> t in ts) && |order| == |ts|
  }

  lemma EnumeratesSnoc(order: seq<TurnId>, ts: set<TurnId>, t: TurnId)
    requires Enumerates(order, ts) && t !in ts
    ensures Enumerates(order + [t], ts + {t})
  {
  }

  ghost function MarkEach(j: Journal, p: Persona, turns: map<TurnId, Turn>, order: seq<TurnId>): Journal
    requires forall t :: t in order ==> t in turns
  {
    if order == [] then j
    else
      var n := |order| - 1;
      MarkInterrupted(MarkEach(j, p, turns, order[..n]), p, order[n], turns[order[n]].key.input)
  }

  lemma MarkNone(j: Journal, p: Persona, turns: map<TurnId, Turn>)
    ensures MarkEach(j, p, turns, []) == j
  {
  }

  lemma MarkEachSnoc(j: Journal, p: Persona, turns: map<TurnId, Turn>, order: seq<TurnId>, t: TurnId)
    requires t in turns && forall u :: u in order ==> u in turns
    ensures MarkEach(j, p, turns, order + [t]) == MarkInterrupted(MarkEach(j, p, turns, order), p, t, turns[t].key.input)
  {
    assert (order + [t])[..|order|] == order;
  }

  /** With at most one running turn there is only one order. */
  lemma MarkAllAtMostOne(j: Journal, p: Persona, turns: map<TurnId, Turn>, order: seq<TurnId>)
    requires Lifecycle.OneRunning(turns) && Enumerates(order, RunningTurns(turns, p))
    ensures MarkAll(j, p, turns, RunningTurns(turns, p)) == MarkEach(j, p, turns, order)
  {
    var ts := RunningTurns(turns, p);
    if order == [] {
      assert forall t :: t !in ts;
      return;
    }
    var t := order[0];
    assert t in order;
    forall u | u in ts ensures u == t { assert u in order; }
    assert ts == {t};
    assert order == [t] && order[..0] == [];
    MarkOne(j, p, turns, ts, t);
  }

  lemma MarkOne(j: Journal, p: Persona, turns: map<TurnId, Turn>, ts: set<TurnId>, t: TurnId)
    requires t in turns && t in ts && (forall u :: u in ts ==> u == t)
    ensures MarkAll(j, p, turns, ts) == MarkInterrupted(j, p, t, turns[t].key.input)
  {
    hide MarkInterrupted;
    assert Pick(ts) == t;
    assert forall u :: u !in ts - {t};
  }
}
