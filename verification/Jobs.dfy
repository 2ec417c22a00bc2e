/** Delivery of one job's outcome: the backend row, the supervisor's durable
    journal, and the supervisor's procedures as atomic segments between which it
    may crash, replies may be lost, and the backend may move on. */
module Jobs {
  import opened Common

  // ------------------------------------------------------------------ backend

  datatype JobStatus = Queued | Running | CancelRequested | Done | Failed | Cancelled | Lost

  predicate Terminal(s: JobStatus) { s == Done || s == Failed || s == Cancelled || s == Lost }

  /** `inputs` counts the inputs named `job:<id>`; the error text 0 is empty. */
  datatype Job = Job(status: JobStatus, claimedBy: Option<int>, result: Option<Payload>, error: Payload, expires: int, inputs: nat)

  const NO_ERROR: Payload := 0
  const CLAIM_EXPIRED: Payload := -1
  const NO_EVIDENCE: Payload := -2

  /** notifyJobTerminal: queue the notification unless an input has its name. */
  function Notify(j: Job): Job { j.(inputs := if j.inputs == 0 then 1 else j.inputs) }

  function Cancel(j: Job): Job {
    if j.status == Queued then Notify(j.(status := Cancelled))
    else if j.status == Running then j.(status := CancelRequested)
    else j
  }

  function Claim(j: Job, runner: int, until: int): Job {
    if j.status == Queued then j.(status := Running, claimedBy := Some(runner), expires := until) else j
  }

  function Heartbeat(j: Job, runner: int, until: int): Job {
    if j.claimedBy != Some(runner) || Terminal(j.status) then j else j.(expires := until)
  }

  /** An expired claim becomes the immutable verdict `lost`, with its reason. */
  function Sweep(j: Job, now: int): Job {
    if (j.status == Running || j.status == CancelRequested) && j.expires < now
    then Notify(j.(status := Lost, result := Some(CLAIM_EXPIRED), error := CLAIM_EXPIRED)) else j
  }

  /** completeJob: only the claimant finishes a job; a finished one replays only
      an identical report. */
  function Complete(j: Job, runner: int, r: Report): (Job, bool) {
    if r.status != Done && r.status != Failed && r.status != Cancelled then (j, false)
    else if Terminal(j.status) then (j, j.status == r.status && j.result == Some(r.payload) && j.error == r.error)
    else if j.claimedBy != Some(runner) then (j, false)
    else (Notify(j.(status := r.status, result := Some(r.payload), error := r.error)), true)
  }

  // --------------------------------------------------------------- supervisor

  /** What goes on the wire. */
  datatype Report = Report(payload: Payload, status: JobStatus, error: Payload)

  datatype JournalStatus = Spawned | Working | Exited | Reported | Reaped

  /** The journal of the job: `launched` says a process id is recorded, `frozen` is
      the outcome stored before it first goes on the wire, and `attached` whether
      the notes read as if the lost-outcome attachment was settled. */
  datatype Journal = Journal(status: JournalStatus, launched: bool, frozen: Option<Report>, attached: bool)

  datatype AttachReply = Landed | RefusedForGood | RouteMissing | Transient | NoReply

  /** Where finish stands. */
  datatype Finishing =
    | NotFinishing
    | ToFreeze(report: Report)
    | ToComplete(report: Report)
    | Answered(report: Report, ok: bool)
    | ToAttach(report: Report)
    | AttachAnswered(reply: AttachReply)

  /** Where reportAndUsage, or an attachment still owed, stands. */
  datatype Reconciling =
    | NotReconciling
    | Reading(report: Report)
    | ToReport(row: JobStatus, report: Report)
    | ReportAnswered(ok: bool)
    | ReportAttach(report: Report)
    | ReportAttachAnswered(reply: AttachReply)

  /** How the supervisor took up the job it claimed: not at all, with a journal, or
      with an outcome known before there was one. */
  datatype Run = NotRun | WithJournal | WithoutJournal(report: Report)

  /** `active` says the job is one of this supervisor's own executions, which no
      reconciling pass touches.  `sent` are the reports put on the wire from a
      journal, `direct` those sent without one, and `landed` says the backend holds
      the outcome observed for a lost job. */
  datatype State = State(
    job: Job, journal: Option<Journal>, run: Run, fin: Finishing, rec: Reconciling, active: bool, runner: int, clock: int,
    sent: seq<Report>, direct: seq<Report>, landed: bool)

  function Initial(runner: int): State {
    State(Job(Queued, None, None, NO_ERROR, 0, 0), None, NotRun, NotFinishing, NotReconciling, false, runner, 0, [], [], false)
  }

  datatype Step =
    | Tick(ms: nat)
    | CancelStep
    | ClaimStep(runner: int, until: int)
    | HeartbeatStep(runner: int, until: int)
    | SweepStep
    | OtherReport(runner: int, report: Report)
    | OtherInput
    | Crash
    | Spawn
    | Launch
    | Progress(journal: JournalStatus)
    | Finish(report: Report)
    | Abandon(report: Report, active: bool)
    | FinishOn(reaches: bool, delivered: bool, reply: AttachReply)
    | Reconcile(payload: Payload)
    | Attend(payload: Payload)
    | ReconcileOn(reaches: bool, delivered: bool, reply: AttachReply)

  function Mark(j: Journal): Journal { if j.status == Exited || j.status == Reaped then j.(status := Reported) else j }

  /** An attachment lands when the backend says so, and may land unheard. */
  predicate Lands(s: State, reaches: bool, reply: AttachReply) {
    s.landed || reply == Landed || (reply == NoReply && reaches)
  }

  predicate Settles(reply: AttachReply) { reply == Landed || reply == RefusedForGood }

  /** A report leaves; a journal, if there is one, is what it is sent from. */
  function Send(s: State, r: Report): State {
    if s.journal.Some? then s.(sent := s.sent + [r]) else s.(direct := s.direct + [r])
  }

  function SendComplete(s: State, r: Report, reaches: bool): (s': State)
    ensures s' == s.(job := s'.job, sent := s'.sent, direct := s'.direct)
  {
    Send(s, r).(job := if reaches then Complete(s.job, s.runner, r).0 else s.job)
  }

  predicate Accepted(s: State, r: Report, reaches: bool, delivered: bool) {
    reaches && delivered && Complete(s.job, s.runner, r).1
  }

  /** The frozen payload where there is one, under the caller's status and text. */
  function Observed(journal: Option<Journal>, r: Report): Report {
    if journal.Some? && journal.value.frozen.Some? then r.(payload := journal.value.frozen.value.payload) else r
  }

  // finish updates a journal only where there is one.

  function Freeze(journal: Option<Journal>, r: Report): Option<Journal> {
    match journal case Some(j) => Some(j.(frozen := Some(r))) case None => None
  }

  function MarkReported(journal: Option<Journal>): Option<Journal> {
    match journal case Some(j) => Some(j.(status := Reported)) case None => None
  }

  /** The note about any refusal reads as settled; only some refusals settle. */
  function Noted(journal: Option<Journal>, reply: AttachReply): Option<Journal> {
    match journal
    case Some(j) =>
      Some(if reply == NoReply then j else if Settles(reply) then j.(attached := true, status := Reported) else j.(attached := true))
    case None => None
  }

  /** The next segment of finish.  A call may fail to reach the backend, and its
      reply may be lost. */
  function AdvanceFinish(s: State, reaches: bool, delivered: bool, reply: AttachReply): State {
    match s.fin
    case NotFinishing => s
    case ToFreeze(r) => s.(journal := Freeze(s.journal, r), fin := ToComplete(r))
    case ToComplete(r) => SendComplete(s, r, reaches).(fin := Answered(r, Accepted(s, r, reaches, delivered)))
    case Answered(r, ok) =>
      if ok then s.(journal := MarkReported(s.journal), fin := NotFinishing, active := false)
      else if reaches && s.job.status == Lost then s.(fin := ToAttach(r))
      else s.(fin := NotFinishing, active := false)
    case ToAttach(r) =>
      Send(s, Observed(s.journal, r)).(landed := Lands(s, reaches, reply), fin := AttachAnswered(reply))
    case AttachAnswered(r) =>
      s.(journal := Noted(s.journal, r), fin := NotFinishing, active := false)
  }

  /** The next segment of a reconciling procedure, which has a journal. */
  function AdvanceReconcile(s: State, reaches: bool, delivered: bool, reply: AttachReply): State {
    if s.journal.None? then s.(rec := NotReconciling)
    else
      var j := s.journal.value;
      match s.rec
      case NotReconciling => s
      case Reading(r) =>
        var j' := if j.frozen.Some? then j else j.(frozen := Some(r));
        s.(journal := Some(j'),
           rec := if reaches then ToReport(s.job.status, j'.frozen.value.(status := r.status)) else NotReconciling)
      case ToReport(row, r) =>
        if row == Lost then s.(rec := ReportAttach(r))
        else if Terminal(row) then s.(journal := Some(Mark(j)), rec := NotReconciling)
        else SendComplete(s, r, reaches).(rec := ReportAnswered(Accepted(s, r, reaches, delivered)))
      case ReportAnswered(ok) => s.(journal := Some(if ok then Mark(j) else j), rec := NotReconciling)
      case ReportAttach(r) => Send(s, r).(landed := Lands(s, reaches, reply), rec := ReportAttachAnswered(reply))
      case ReportAttachAnswered(r) =>
        s.(journal := Some(if Settles(r) then Mark(j.(attached := true)) else j), rec := NotReconciling)
  }

  /** No process of the job may be running. */
  predicate Quiet(j: Journal) { (j.status == Spawned || j.status == Working) ==> !j.launched }

  predicate Busy(s: State) { s.active || s.rec != NotReconciling }

  /** reconcileOne for a journal outside this supervisor's own executions. */
  function ReconcileOne(s: State, payload: Payload): State {
    if Busy(s) || s.journal.None? then s
    else
      var j := s.journal.value;
      if (j.status == Spawned || j.status == Working) && j.launched
      then s.(journal := Some(j.(status := Reaped)), rec := Reading(Report(payload, Failed, NO_ERROR)))
      else if j.status == Exited && j.frozen.Some? then s.(rec := Reading(j.frozen.value))
      else s
  }

  /** reconcileAttention for a backend row: only a lost row is acted on, never
      while a process of the job may be running, and the indeterminate outcome is
      frozen before anything is sent. */
  function AttendTo(s: State, payload: Payload): State {
    if Busy(s) || s.job.status != Lost then s
    else
      var r := Report(payload, Lost, NO_EVIDENCE);
      match s.journal
      case None => s.(journal := Some(Journal(Exited, false, Some(r), false)), rec := Reading(r))
      case Some(j) =>
        if j.frozen.None? && !Quiet(j) then s
        else if j.frozen.None? then s.(journal := Some(j.(status := Exited, frozen := Some(r))), rec := Reading(r))
        else if !j.attached then s.(rec := ReportAttach(j.frozen.value))
        else s
  }

  /** This supervisor runs the job and has not frozen an outcome.  It finishes a
      launched job only after its exit is journaled. */
  predicate Executes(s: State) { s.active && s.fin == NotFinishing && s.journal.Some? && s.journal.value.frozen.None? }

  function Apply(s: State, step: Step): State {
    match step
    case Tick(ms) => s.(clock := s.clock + ms)
    case CancelStep => s.(job := Cancel(s.job))
    case ClaimStep(runner, until) => s.(job := Claim(s.job, runner, until))
    case HeartbeatStep(runner, until) => s.(job := Heartbeat(s.job, runner, until))
    case SweepStep => s.(job := Sweep(s.job, s.clock))
    case OtherReport(runner, r) => s.(job := Complete(s.job, runner, r).0)
    case OtherInput => s.(job := s.job.(inputs := if s.job.inputs == 0 then 1 else s.job.inputs))
    case Crash => s.(fin := NotFinishing, rec := NotReconciling, active := false)
    case Spawn =>
      if s.run == NotRun && s.journal.None?
      then s.(journal := Some(Journal(Spawned, false, None, false)), run := WithJournal, active := true) else s
    case Launch =>
      if Executes(s) && s.journal.value.status == Spawned
      then s.(journal := Some(s.journal.value.(launched := true))) else s
    case Progress(status) =>
      if Executes(s) && ((status == Working && s.journal.value.launched) || status == Exited)
      then s.(journal := Some(s.journal.value.(status := status))) else s
    case Finish(r) =>
      if Executes(s) && (s.journal.value.status == Exited || !s.journal.value.launched) && r.status != Lost
      then s.(fin := ToFreeze(r)) else s
    case Abandon(r, active) =>
      if s.run == NotRun && s.journal.None? && r.status != Lost
      then s.(run := WithoutJournal(r), fin := ToFreeze(r), active := active) else s
    case FinishOn(reaches, delivered, reply) => AdvanceFinish(s, reaches, delivered, reply)
    case Reconcile(payload) => ReconcileOne(s, payload)
    case Attend(payload) => AttendTo(s, payload)
    case ReconcileOn(reaches, delivered, reply) => AdvanceReconcile(s, reaches, delivered, reply)
  }

  function Exec(s: State, steps: seq<Step>): State {
    if steps == [] then s else Apply(Exec(s, steps[..|steps| - 1]), steps[|steps| - 1])
  }

  // ------------------------------------------------------- what holds on any run

  /** A terminal row has its one notification; an unfinished row at most an input
      someone else gave that name, and no result yet. */
  predicate Notified(j: Job) {
    j.inputs <= 1 && (if Terminal(j.status) then j.inputs == 1 else j.result.None? && j.error == NO_ERROR)
  }

  /** What the two procedures know at their stages. */
  predicate Knows(s: State) {
    && (match s.fin
        case Answered(_, ok) => ok ==> Terminal(s.job.status)
        case ToAttach(_) => s.job.status == Lost
        case AttachAnswered(_) => s.job.status == Lost
        case _ => true)
    && (match s.rec
        case ToReport(row, _) => Terminal(row) ==> s.job.status == row
        case ReportAnswered(ok) => ok ==> Terminal(s.job.status)
        case ReportAttach(_) => s.job.status == Lost
        case ReportAttachAnswered(_) => s.job.status == Lost
        case _ => true)
  }

  predicate Inv(s: State) {
    Notified(s.job) && Knows(s) && (s.journal.Some? && s.journal.value.status == Reported ==> Terminal(s.job.status))
  }

  /** A terminal row is final: its status, its result and its one notification. */
  predicate JobForward(a: Job, b: Job) {
    Terminal(a.status) ==> b.status == a.status && b.result == a.result && b.error == a.error && b.inputs == a.inputs
  }

  /** Completing is accepted only into or identically to a terminal row. */
  lemma CompleteForward(j: Job, runner: int, r: Report)
    requires Notified(j)
    ensures var (j', ok) := Complete(j, runner, r);
            && Notified(j') && JobForward(j, j')
            && (ok ==> Terminal(j'.status) && j'.status == r.status && j'.result == Some(r.payload) && j'.error == r.error)
  {
  }

  lemma BackendKeeps(s: State, job: Job)
    requires Inv(s) && Notified(job) && JobForward(s.job, job)
    ensures Inv(s.(job := job))
  {
  }

  lemma SendKeeps(s: State, r: Report, reaches: bool, delivered: bool)
    requires Inv(s)
    ensures var s' := SendComplete(s, r, reaches);
            && Inv(s') && JobForward(s.job, s'.job)
            && (Accepted(s, r, reaches, delivered) ==> Terminal(s'.job.status))
  {
    hide Complete;
    CompleteForward(s.job, s.runner, r);
  }

  lemma FinishKeeps(s: State, reaches: bool, delivered: bool, reply: AttachReply)
    requires Inv(s)
    ensures Inv(AdvanceFinish(s, reaches, delivered, reply))
    ensures JobForward(s.job, AdvanceFinish(s, reaches, delivered, reply).job)
  {
    hide SendComplete, Accepted;
    if s.fin.ToComplete? { SendKeeps(s, s.fin.report, reaches, delivered); }
  }

  lemma ReconcileKeeps(s: State, reaches: bool, delivered: bool, reply: AttachReply)
    requires Inv(s)
    ensures Inv(AdvanceReconcile(s, reaches, delivered, reply))
    ensures JobForward(s.job, AdvanceReconcile(s, reaches, delivered, reply).job)
  {
    hide SendComplete, Accepted;
    if s.rec.ToReport? { SendKeeps(s, s.rec.report, reaches, delivered); }
  }

  lemma StepKeeps(s: State, step: Step)
    requires Inv(s)
    ensures Inv(Apply(s, step)) && JobForward(s.job, Apply(s, step).job)
  {
    hide AdvanceFinish, AdvanceReconcile;
    match step {
      case CancelStep => BackendKeeps(s, Cancel(s.job));
      case ClaimStep(runner, until) => BackendKeeps(s, Claim(s.job, runner, until));
      case HeartbeatStep(runner, until) => BackendKeeps(s, Heartbeat(s.job, runner, until));
      case SweepStep => BackendKeeps(s, Sweep(s.job, s.clock));
      case OtherReport(runner, r) =>
        CompleteForward(s.job, runner, r);
        BackendKeeps(s, Complete(s.job, runner, r).0);
      case FinishOn(reaches, delivered, reply) => FinishKeeps(s, reaches, delivered, reply);
      case ReconcileOn(reaches, delivered, reply) => ReconcileKeeps(s, reaches, delivered, reply);
      case _ =>
    }
  }

  lemma {:induction false} RunKeeps(s: State, steps: seq<Step>)
    requires Inv(s)
    ensures Inv(Exec(s, steps)) && JobForward(s.job, Exec(s, steps).job)
  {
    hide Inv, Apply;
    if steps == [] { return; }
    var n := |steps| - 1;
    RunKeeps(s, steps[..n]);
    StepKeeps(Exec(s, steps[..n]), steps[n]);
  }

  // ---------------------------------------------------- one outcome for one job

  /** What is frozen at each stage of finish, or, without a journal, that its
      report is the run's own. */
  predicate FinishAgrees(s: State) {
    match s.fin
    case NotFinishing => true
    case ToFreeze(r) => if s.journal.Some? then s.journal.value.frozen.None? && Quiet(s.journal.value) else s.run == WithoutJournal(r)
    case AttachAnswered(_) => s.journal.Some? ==> s.journal.value.frozen.Some?
    case _ => if s.journal.Some? then s.journal.value.frozen == Some(s.fin.report) else s.run == WithoutJournal(s.fin.report)
  }

  predicate ReconcileAgrees(s: State) {
    && (s.rec != NotReconciling ==> s.journal.Some? && s.fin == NotFinishing && !s.active)
    && match s.rec
       case NotReconciling => true
       case Reading(r) => (s.journal.value.frozen.Some? ==> s.journal.value.frozen == Some(r)) && Quiet(s.journal.value)
       case ToReport(_, r) => s.journal.value.frozen == Some(r)
       case ReportAnswered(_) => s.journal.value.frozen.Some?
       case ReportAttach(r) => s.journal.value.frozen == Some(r)
       case ReportAttachAnswered(_) => s.journal.value.frozen.Some?
  }

  /** How the job was taken up fits what there is.  A job taken up without a journal
      gets one only as lost, with the indeterminate outcome. */
  predicate RunAgrees(s: State) {
    match s.run
    case NotRun => s.fin == NotFinishing && !s.active && s.direct == []
    case WithJournal => s.journal.Some? && s.direct == [] && (s.fin != NotFinishing ==> s.active)
    case WithoutJournal(_) =>
      s.journal.Some? ==>
        s.fin == NotFinishing && !s.active && s.job.status == Lost
        && s.journal.value.frozen.Some? && s.journal.value.frozen.value.status == Lost
  }

  predicate IsFrozen(journal: Option<Journal>, r: Report) { journal.Some? && journal.value.frozen == Some(r) }

  ghost predicate SentAgrees(s: State) {
    && (forall k :: 0 <= k < |s.sent| ==> IsFrozen(s.journal, s.sent[k]))
    && (forall k :: 0 <= k < |s.direct| ==> s.run.WithoutJournal? && s.direct[k] == s.run.report)
  }

  ghost predicate Once(s: State) {
    && FinishAgrees(s) && ReconcileAgrees(s) && RunAgrees(s) && SentAgrees(s)
    && (s.journal.Some? && s.journal.value.frozen.Some? ==> Quiet(s.journal.value))
  }

  /** A frozen outcome is final, and so is what was sent. */
  ghost predicate Forward(s: State, s': State) {
    && JobForward(s.job, s'.job)
    && (s.journal.Some? ==> s'.journal.Some?)
    && (s.journal.Some? && s.journal.value.frozen.Some? ==> s'.journal.value.frozen == s.journal.value.frozen)
    && s.sent <= s'.sent && s.direct <= s'.direct
  }

  /** The attention pass takes up a job whose outcome is being reported without a
      journal: the report of a job that never started is not one of the active
      executions. */
  predicate Overtakes(s: State, step: Step) {
    step.Attend? && s.fin != NotFinishing && !Busy(s) && s.job.status == Lost
  }

  lemma SendOnce(s: State, r: Report, reaches: bool)
    requires Inv(s) && Once(s)
    requires if s.journal.Some? then s.journal.value.frozen == Some(r) else s.run == WithoutJournal(r)
    ensures Once(SendComplete(s, r, reaches)) && Forward(s, SendComplete(s, r, reaches))
  {
    hide Complete;
    CompleteForward(s.job, s.runner, r);
  }

  lemma AttachOnce(s: State, landed: bool, fin: Finishing)
    requires Inv(s) && Once(s) && s.fin.ToAttach? && fin.AttachAnswered?
    ensures var s' := Send(s, Observed(s.journal, s.fin.report)).(landed := landed, fin := fin); Once(s') && Forward(s, s')
  {
    assert Observed(s.journal, s.fin.report) == s.fin.report;
    if s.journal.Some? { return; }
  }

  /** Segments that send nothing. */
  lemma SilentOnce(s: State, reaches: bool, delivered: bool, reply: AttachReply)
    requires Inv(s) && Once(s) && !s.fin.ToComplete? && !s.fin.ToAttach?
    ensures Once(AdvanceFinish(s, reaches, delivered, reply)) && Forward(s, AdvanceFinish(s, reaches, delivered, reply))
  {
    hide SendComplete, Accepted, Send;
    match s.fin {
      case ToFreeze(_) => if s.journal.Some? { return; }
      case Answered(_, ok) => if s.journal.Some? { return; }
      case AttachAnswered(_) => if s.journal.Some? { return; }
      case NotFinishing =>
    }
  }

  lemma FinishOnce(s: State, reaches: bool, delivered: bool, reply: AttachReply)
    requires Inv(s) && Once(s)
    ensures Once(AdvanceFinish(s, reaches, delivered, reply)) && Forward(s, AdvanceFinish(s, reaches, delivered, reply))
  {
    if s.fin.ToComplete? {
      hide SendComplete, Accepted;
      SendOnce(s, s.fin.report, reaches);
    } else if s.fin.ToAttach? {
      hide Once, Forward, Send;
      AttachOnce(s, Lands(s, reaches, reply), AttachAnswered(reply));
    } else {
      hide Once, Forward;
      SilentOnce(s, reaches, delivered, reply);
    }
  }

  lemma ReconcileOnce(s: State, reaches: bool, delivered: bool, reply: AttachReply)
    requires Inv(s) && Once(s)
    ensures Once(AdvanceReconcile(s, reaches, delivered, reply)) && Forward(s, AdvanceReconcile(s, reaches, delivered, reply))
  {
    hide SendComplete, Accepted;
    if s.rec.ToReport? { SendOnce(s, s.rec.report, reaches); }
  }

  lemma BackendOnce(s: State, job: Job)
    requires Once(s) && JobForward(s.job, job)
    ensures Once(s.(job := job)) && Forward(s, s.(job := job))
  {
  }

  /** Every step but an overtaking one keeps the job's one outcome. */
  lemma StepOnce(s: State, step: Step)
    requires Inv(s) && Once(s) && !Overtakes(s, step)
    ensures Once(Apply(s, step)) && Forward(s, Apply(s, step))
  {
    hide AdvanceFinish, AdvanceReconcile, Complete, ReconcileOne, AttendTo;
    match step {
      case CancelStep => BackendOnce(s, Cancel(s.job));
      case ClaimStep(runner, until) => BackendOnce(s, Claim(s.job, runner, until));
      case HeartbeatStep(runner, until) => BackendOnce(s, Heartbeat(s.job, runner, until));
      case SweepStep => BackendOnce(s, Sweep(s.job, s.clock));
      case OtherReport(runner, r) =>
        CompleteForward(s.job, runner, r);
        BackendOnce(s, Complete(s.job, runner, r).0);
      case FinishOn(reaches, delivered, reply) => FinishOnce(s, reaches, delivered, reply);
      case ReconcileOn(reaches, delivered, reply) => ReconcileOnce(s, reaches, delivered, reply);
      case Reconcile(payload) => TakenUpOnce(s, payload);
      case Attend(payload) => AttendedOnce(s, payload);
      case _ =>
    }
  }

  lemma TakenUpOnce(s: State, payload: Payload)
    requires Once(s)
    ensures Once(ReconcileOne(s, payload)) && Forward(s, ReconcileOne(s, payload))
  {
  }

  lemma AttendedOnce(s: State, payload: Payload)
    requires Once(s) && !Overtakes(s, Attend(payload))
    ensures Once(AttendTo(s, payload)) && Forward(s, AttendTo(s, payload))
  {
  }

  /** The attention pass overtakes no report of a job that never started. */
  ghost predicate Apart(s: State, steps: seq<Step>) {
    steps == [] || (var n := |steps| - 1; Apart(s, steps[..n]) && !Overtakes(Exec(s, steps[..n]), steps[n]))
  }

  lemma {:induction false} RunOnce(s: State, steps: seq<Step>)
    requires Inv(s) && Once(s) && Apart(s, steps)
    ensures Once(Exec(s, steps)) && Forward(s, Exec(s, steps))
  {
    hide Inv, Apply, Once, Overtakes;
    if steps == [] { return; }
    var n := |steps| - 1;
    RunOnce(s, steps[..n]);
    RunKeeps(s, steps[..n]);
    StepOnce(Exec(s, steps[..n]), steps[n]);
    assert s.sent <= Exec(s, steps[..n]).sent <= Exec(s, steps).sent;
  }

  /** Over every run with crashes and lost replies: the journal is reported only
      while the backend row is terminal, and a terminal row has exactly one
      `job:<id>` input.  While the attention pass overtakes no report, everything
      sent from the journal is the frozen outcome, payload, status and error text;
      everything sent without one is the one report of the run; and after that a
      journal's outcome is only ever the indeterminate one of a lost row. */
  lemma OutcomeDelivered(runner: int, steps: seq<Step>)
    ensures var s := Exec(Initial(runner), steps);
            && (s.journal.Some? && s.journal.value.status == Reported ==> Terminal(s.job.status))
            && (Terminal(s.job.status) ==> s.job.inputs == 1)
            && s.job.inputs <= 1
    ensures var s := Exec(Initial(runner), steps);
            Apart(Initial(runner), steps) ==>
              && (forall k :: 0 <= k < |s.sent| ==> IsFrozen(s.journal, s.sent[k]))
              && (forall k :: 0 <= k < |s.direct| ==> s.run.WithoutJournal? && s.direct[k] == s.run.report)
              && (s.direct != [] && s.journal.Some? ==>
                    s.job.status == Lost && s.journal.value.frozen.Some? && s.journal.value.frozen.value.status == Lost)
  {
    RunKeeps(Initial(runner), steps);
    if Apart(Initial(runner), steps) { RunOnce(Initial(runner), steps); }
  }

  lemma {:induction false} ExecConcat(s: State, a: seq<Step>, b: seq<Step>)
    ensures Exec(s, a + b) == Exec(Exec(s, a), b)
  {
    if b == [] {
      assert a + b == a;
      return;
    }
    assert (a + b)[..|a + b| - 1] == a + b[..|b| - 1];
    ExecConcat(s, a, b[..|b| - 1]);
  }

  lemma {:induction false} ApartConcat(s: State, a: seq<Step>, b: seq<Step>)
    requires Apart(s, a + b)
    ensures Apart(s, a) && Apart(Exec(s, a), b)
  {
    if b == [] {
      assert a + b == a;
      return;
    }
    var m := |b| - 1;
    assert (a + b)[..|a + b| - 1] == a + b[..m];
    ApartConcat(s, a, b[..m]);
    ExecConcat(s, a, b[..m]);
  }

  /** A verdict never changes: whatever happens after a row became terminal, its
      status, result and notification stay.  While no report is overtaken, so does
      a frozen outcome. */
  lemma VerdictFinal(runner: int, a: seq<Step>, b: seq<Step>)
    ensures JobForward(Exec(Initial(runner), a).job, Exec(Initial(runner), a + b).job)
    ensures Apart(Initial(runner), a + b) ==> Forward(Exec(Initial(runner), a), Exec(Initial(runner), a + b))
  {
    hide Once, Forward, Inv;
    assert Inv(Initial(runner)) && Once(Initial(runner)) by { InitialOnce(runner); }
    RunKeeps(Initial(runner), a);
    RunKeeps(Exec(Initial(runner), a), b);
    ExecConcat(Initial(runner), a, b);
    if Apart(Initial(runner), a + b) {
      ApartConcat(Initial(runner), a, b);
      RunOnce(Initial(runner), a);
      RunOnce(Exec(Initial(runner), a), b);
    }
  }

  lemma InitialOnce(runner: int)
    ensures Inv(Initial(runner)) && Once(Initial(runner))
  {
  }

  /** An undisturbed finish delivers, with or without a journal: the claimed job
      becomes what was reported, and a journal says so. */
  lemma FinishDelivers(s: State, r: Report)
    requires Inv(s) && s.fin == ToFreeze(r)
    requires s.job.status == Running && s.job.claimedBy == Some(s.runner)
    requires r.status == Done || r.status == Failed || r.status == Cancelled
    ensures var s1 := AdvanceFinish(s, true, true, NoReply);
            var s2 := AdvanceFinish(s1, true, true, NoReply);
            var s3 := AdvanceFinish(s2, true, true, NoReply);
            && s3.job.status == r.status && s3.job.result == Some(r.payload) && s3.job.error == r.error && s3.job.inputs == 1
            && (s.journal.Some? ==> s3.journal.Some? && s3.journal.value.status == Reported && s3.journal.value.frozen == Some(r))
            && s3.fin == NotFinishing && !s3.active
  {
    var s1 := AdvanceFinish(s, true, true, NoReply);
    assert s1.fin == ToComplete(r);
    var s2 := AdvanceFinish(s1, true, true, NoReply);
    assert s2.fin == Answered(r, true);
  }

  // ------------------------------------------------------ an overtaken report

  /** The report of a job that never started, about to freeze its outcome, keeps
      what the attention pass froze in a new journal exactly when that pass did not
      overtake it. */
  lemma OvertakenIsOverwritten(s: State, payload: Payload, reaches: bool, delivered: bool, reply: AttachReply)
    requires Once(s) && s.fin.ToFreeze? && s.journal.None? && s.fin.report.status != Lost
    ensures var s1 := AttendTo(s, payload);
            var s2 := AdvanceFinish(s1, reaches, delivered, reply);
            (s1.journal.Some? ==> s2.journal == s1.journal) <==> !Overtakes(s, Attend(payload))
  {
  }

  /** A claim that expires while its never-started report is under way; the
      attention pass attaches an indeterminate outcome first. */
  function Overtaking(): seq<Step> {
    [ClaimStep(4, 10), Abandon(Report(8, Cancelled, 5), false), Tick(11), SweepStep, Attend(3),
     ReconcileOn(true, true, NoReply), ReconcileOn(true, true, NoReply), ReconcileOn(true, true, Landed),
     FinishOn(true, true, NoReply)]
  }

  /** What was sent is then no longer what is frozen. */
  lemma OvertakingDiverges()
    ensures var s := Exec(Initial(4), Overtaking());
            && s.landed && s.sent == [Report(3, Lost, NO_EVIDENCE)]
            && s.journal == Some(Journal(Exited, false, Some(Report(8, Cancelled, 5)), false))
  {
    var run, r, none := Overtaking(), Report(8, Cancelled, 5), Report(3, Lost, NO_EVIDENCE);
    var s0 := Initial(4);
    var s1 := s0.(job := Job(Running, Some(4), None, NO_ERROR, 10, 0));
    var s2 := s1.(run := WithoutJournal(r), fin := ToFreeze(r));
    var s4 := s2.(clock := 11, job := Job(Lost, Some(4), Some(CLAIM_EXPIRED), CLAIM_EXPIRED, 10, 1));
    var s5 := s4.(journal := Some(Journal(Exited, false, Some(none), false)), rec := Reading(none));
    var s7 := s5.(rec := ReportAttach(none));
    var s8 := s7.(sent := [none], landed := true, rec := ReportAttachAnswered(Landed));
    var s9 := s8.(journal := Some(Journal(Exited, false, Some(r), false)), fin := ToComplete(r));
    assert Apply(s0, run[0]) == s1;
    assert Apply(s1, run[1]) == s2;
    assert Apply(Apply(s2, run[2]), run[3]) == s4;
    assert Apply(s4, run[4]) == s5;
    assert Apply(Apply(s5, run[5]), run[6]) == s7;
    assert Apply(s7, run[7]) == s8;
    assert Apply(s8, run[8]) == s9;
    hide Apply;
    Unroll3(s0, run);
    assert Apply(Apply(Apply(s0, run[0]), run[1]), run[2]) == Apply(s2, run[2]);
    Unroll3(Apply(s2, run[2]), run[3..]);
    assert run[3..][3..] == run[6..];
    Unroll3(Apply(s5, run[5]), run[6..]);
    assert run[6..][3..] == [];
    ExecFromIsExec(s0, run);
  }

  // ------------------------------------------------------ a note read as settled

  /** After the runner's attachment is answered, its journal reads as settled
      without being settled exactly when the backend refused in passing: a route
      that is missing, or any other refusal that is not for good. */
  lemma ReadsSettledIff(s: State, r: AttachReply, reaches: bool, delivered: bool, reply: AttachReply)
    requires s.fin == AttachAnswered(r) && s.journal.Some? && !s.journal.value.attached
    ensures var s' := AdvanceFinish(s, reaches, delivered, reply);
            && s'.journal.Some? && s'.fin == NotFinishing && !s'.active
            && (s'.journal.value.attached && !Settles(r) <==> r == RouteMissing || r == Transient)
            && (!Settles(r) ==> s'.journal.value.status == s.journal.value.status)
  {
  }

  /** The attention pass then has nothing to do for the job; but a journal that is
      exited is reported again by the next reconciliation, which sends the frozen
      outcome and can still settle it. */
  lemma ReconcileRetries(s: State, payload: Payload)
    requires !Busy(s) && s.job.status == Lost && s.journal.Some?
    requires s.journal.value.attached && s.journal.value.status == Exited && s.journal.value.frozen.Some?
    ensures AttendTo(s, payload) == s
    ensures var r := s.journal.value.frozen.value;
            var s1 := ReconcileOne(s, payload);
            var s2 := AdvanceReconcile(s1, true, true, NoReply);
            var s3 := AdvanceReconcile(s2, true, true, NoReply);
            var s4 := AdvanceReconcile(s3, true, true, Landed);
            var s5 := AdvanceReconcile(s4, true, true, NoReply);
            && s1.rec == Reading(r) && s4.landed && s4.sent == s.sent + [r]
            && s5.journal.Some? && s5.journal.value.status == Reported
  {
    var r := s.journal.value.frozen.value;
    var s1 := ReconcileOne(s, payload);
    var s2 := AdvanceReconcile(s1, true, true, NoReply);
    assert s2.rec == ToReport(Lost, r);
    var s3 := AdvanceReconcile(s2, true, true, NoReply);
    assert s3.rec == ReportAttach(r);
  }

  /** Without an exit journaled, as after a launch that never got a process, no
      pass reports again: neither acts on the journal. */
  lemma UnlaunchedIsLeft(s: State, payload: Payload)
    requires !Busy(s) && s.journal.Some?
    requires s.journal.value.attached && s.journal.value.frozen.Some?
    requires s.journal.value.status == Spawned && !s.journal.value.launched
    ensures ReconcileOne(s, payload) == s && AttendTo(s, payload) == s
  {
  }

  /** A job is run, finished and frozen; its claim expires before the report. */
  function Refusal(): seq<Step> {
    [ClaimStep(4, 10), Spawn, Launch, Progress(Exited), Finish(Report(8, Done, NO_ERROR)), FinishOn(true, true, NoReply),
     Tick(11), SweepStep, FinishOn(true, true, NoReply), FinishOn(true, true, NoReply),
     FinishOn(true, true, Transient), FinishOn(true, true, NoReply)]
  }

  function ExecFrom(s: State, steps: seq<Step>): State
    decreases |steps|
  {
    if steps == [] then s else ExecFrom(Apply(s, steps[0]), steps[1..])
  }

  lemma {:induction false} ExecFromIsExec(s: State, steps: seq<Step>)
    ensures ExecFrom(s, steps) == Exec(s, steps)
    decreases |steps|
  {
    if steps == [] { return; }
    ExecFromIsExec(Apply(s, steps[0]), steps[1..]);
    assert steps == [steps[0]] + steps[1..] && [steps[0]][..0] == [];
    ExecConcat(s, [steps[0]], steps[1..]);
    assert Exec(s, []) == s;
  }

  lemma Unroll3(s: State, run: seq<Step>)
    requires |run| >= 3
    ensures ExecFrom(s, run) == ExecFrom(Apply(Apply(Apply(s, run[0]), run[1]), run[2]), run[3..])
  {
    hide Apply;
    assert run[1..][1..] == run[2..] && run[2..][1..] == run[3..];
    var s1 := Apply(s, run[0]);
    var s2 := Apply(s1, run[1]);
    assert ExecFrom(s, run) == ExecFrom(s1, run[1..]);
    assert ExecFrom(s1, run[1..]) == ExecFrom(s2, run[2..]);
    assert ExecFrom(s2, run[2..]) == ExecFrom(Apply(s2, run[2]), run[3..]);
  }

  /** A transient refusal leaves a journal that is not reported, reads as settled,
      and has nothing attached. */
  lemma RefusalReadsSettled()
    ensures var s := Exec(Initial(4), Refusal());
            && s.job.status == Lost && s.journal == Some(Journal(Exited, true, Some(Report(8, Done, NO_ERROR)), true))
            && s.fin == NotFinishing && !s.active && !s.landed
  {
    var run, r := Refusal(), Report(8, Done, NO_ERROR);
    var s0 := Initial(4);
    var s3 := s0.(job := Job(Running, Some(4), None, NO_ERROR, 10, 0), journal := Some(Journal(Spawned, true, None, false)),
                  run := WithJournal, active := true);
    var s6 := s3.(journal := Some(Journal(Exited, true, Some(r), false)), fin := ToComplete(r));
    var s9 := s6.(clock := 11, job := Job(Lost, Some(4), Some(CLAIM_EXPIRED), CLAIM_EXPIRED, 10, 1), sent := [r], fin := Answered(r, false));
    var s12 := s9.(sent := [r, r], fin := NotFinishing, active := false, journal := Some(Journal(Exited, true, Some(r), true)));
    assert Apply(Apply(Apply(s0, run[0]), run[1]), run[2]) == s3;
    assert Apply(Apply(Apply(s3, run[3]), run[4]), run[5]) == s6;
    assert Apply(Apply(Apply(s6, run[6]), run[7]), run[8]) == s9;
    assert Apply(Apply(Apply(s9, run[9]), run[10]), run[11]) == s12;
    Unroll12(s0, run);
  }

  lemma Unroll12(s: State, run: seq<Step>)
    requires |run| == 12
    ensures var s3 := Apply(Apply(Apply(s, run[0]), run[1]), run[2]);
            var s6 := Apply(Apply(Apply(s3, run[3]), run[4]), run[5]);
            var s9 := Apply(Apply(Apply(s6, run[6]), run[7]), run[8]);
            Exec(s, run) == Apply(Apply(Apply(s9, run[9]), run[10]), run[11])
  {
    hide Apply;
    var s3 := Apply(Apply(Apply(s, run[0]), run[1]), run[2]);
    var s6 := Apply(Apply(Apply(s3, run[3]), run[4]), run[5]);
    var s9 := Apply(Apply(Apply(s6, run[6]), run[7]), run[8]);
    Unroll3(s, run);
    Unroll3(s3, run[3..]);
    assert run[3..][3..] == run[6..];
    Unroll3(s6, run[6..]);
    assert run[6..][3..] == run[9..];
    Unroll3(s9, run[9..]);
    assert run[9..][3..] == [];
    ExecFromIsExec(s, run);
  }

  // --------------------------------------------------------------- what is answered

  /** A sweep loses exactly the claims that ran out, and says why. */
  lemma SweepLoses(j: Job, now: int)
    ensures if (j.status == Running || j.status == CancelRequested) && now > j.expires
            then && Sweep(j, now).status == Lost && Sweep(j, now).result == Some(CLAIM_EXPIRED) && Sweep(j, now).inputs >= 1
                 && Sweep(j, now).claimedBy == j.claimedBy
            else Sweep(j, now) == j
  {
  }

  /** A claimant that keeps its claim alive does not lose it before the time it asked
      for; nobody else can keep it alive. */
  lemma HeartbeatKeeps(j: Job, runner: int, until: int, now: int)
    requires j.claimedBy == Some(runner) && !Terminal(j.status) && now <= until
    ensures Sweep(Heartbeat(j, runner, until), now).status == j.status
    ensures forall other :: other != runner ==> Heartbeat(j, other, until) == j
  {
  }

  /** A queued job that is cancelled ends, with its notification, before anyone claims
      it; a running one is asked to stop and stays its claimant's to report. */
  lemma CancelAnswers(j: Job, runner: int, until: int, r: Report)
    ensures j.status == Queued ==>
              Cancel(j).status == Cancelled && Cancel(j).inputs >= 1 && Claim(Cancel(j), runner, until) == Cancel(j)
    ensures j.status == Running ==>
              && Cancel(j).status == CancelRequested && Complete(Cancel(j), runner, r).1 == Complete(j, runner, r).1
              && forall now :: Sweep(Cancel(j), now).status == Lost <==> Sweep(j, now).status == Lost
    ensures j.status != Queued && j.status != Running ==> Cancel(j) == j
  {
  }

  /** A claim holds up to the time it was made for: until then no sweep takes it, and
      from then on one does; no one else claims the job, keeps it alive or reports it. */
  lemma ClaimAnswers(j: Job, runner: int, until: int, other: int, later: int, r: Report)
    requires j.status == Queued
    ensures var c := Claim(j, runner, until);
            && c.status == Running && Claim(c, other, later) == c
            && (forall now :: Sweep(c, now) == c <==> now <= until)
            && (Complete(c, other, r).1 <==> other == runner && r.status in {Done, Failed, Cancelled})
            && (Heartbeat(c, other, later).expires == if other == runner then later else until)
  {
  }

  /** A report is accepted exactly when it is one a runner may make and either the job
      is unfinished and the reporter's own, or it is finished exactly so. */
  lemma CompleteAnswers(j: Job, runner: int, r: Report)
    ensures Complete(j, runner, r).1 <==>
            && r.status in {Done, Failed, Cancelled}
            && (if Terminal(j.status) then j.status == r.status && j.result == Some(r.payload) && j.error == r.error
                else j.claimedBy == Some(runner))
    ensures !Complete(j, runner, r).1 || Terminal(j.status) ==> Complete(j, runner, r).0 == j
  {
  }

  ghost predicate ClaimStays(a: Job, b: Job) {
    (a.status != Queued ==> b.status != Queued && b.claimedBy == a.claimedBy)
  }

  lemma ClaimStaysStep(s: State, step: Step)
    ensures ClaimStays(s.job, Apply(s, step).job)
  {
    hide ReconcileOne, AttendTo;
    match step {
      case FinishOn(reaches, delivered, reply) => FinishClaim(s, reaches, delivered, reply);
      case ReconcileOn(reaches, delivered, reply) => ReconcileClaim(s, reaches, delivered, reply);
      case Reconcile(payload) => TakenJob(s, payload);
      case Attend(payload) => TakenJob(s, payload);
      case _ =>
    }
  }

  lemma FinishClaim(s: State, reaches: bool, delivered: bool, reply: AttachReply)
    ensures ClaimStays(s.job, AdvanceFinish(s, reaches, delivered, reply).job)
  {
  }

  lemma ReconcileClaim(s: State, reaches: bool, delivered: bool, reply: AttachReply)
    ensures ClaimStays(s.job, AdvanceReconcile(s, reaches, delivered, reply).job)
  {
  }

  lemma TakenJob(s: State, payload: Payload)
    ensures ReconcileOne(s, payload).job == s.job && AttendTo(s, payload).job == s.job
  {
  }

  /** A job is claimed at most once: it never returns to the queue, and its claimant
      never changes. */
  lemma {:induction false} ClaimedOnce(s: State, steps: seq<Step>)
    ensures ClaimStays(s.job, Exec(s, steps).job)
  {
    hide Apply;
    if steps == [] { return; }
    ClaimedOnce(s, steps[..|steps| - 1]);
    ClaimStaysStep(Exec(s, steps[..|steps| - 1]), steps[|steps| - 1]);
  }

  /** A lost job without a journal, attended to and undisturbed, ends with the
      indeterminate outcome attached and its journal reported. */
  lemma AttendDelivers(s: State, payload: Payload)
    requires !Busy(s) && s.job.status == Lost && s.journal.None?
    ensures var r := Report(payload, Lost, NO_EVIDENCE);
            var s1 := AttendTo(s, payload);
            var s2 := AdvanceReconcile(s1, true, true, NoReply);
            var s3 := AdvanceReconcile(s2, true, true, NoReply);
            var s4 := AdvanceReconcile(s3, true, true, Landed);
            var s5 := AdvanceReconcile(s4, true, true, NoReply);
            && s1.journal.Some? && s1.journal.value.frozen == Some(r)
            && s5.landed && s5.sent == s.sent + [r] && s5.journal == Some(Journal(Reported, false, Some(r), true))
  {
    var r := Report(payload, Lost, NO_EVIDENCE);
    var s1 := AttendTo(s, payload);
    var s2 := AdvanceReconcile(s1, true, true, NoReply);
    assert s2.rec == ToReport(Lost, r);
    var s3 := AdvanceReconcile(s2, true, true, NoReply);
    assert s3.rec == ReportAttach(r);
  }

  /** A crashed run whose process may be alive is reaped and reported failed, if the
      claim still stands and nothing disturbs it: with the outcome its journal froze,
      or with this one, frozen first. */
  lemma ReapDelivers(s: State, payload: Payload)
    requires !Busy(s) && s.journal.Some? && (s.journal.value.status == Spawned || s.journal.value.status == Working)
    requires s.journal.value.launched
    requires s.job.status == Running && s.job.claimedBy == Some(s.runner)
    ensures var frozen := s.journal.value.frozen;
            var r := if frozen.Some? then frozen.value else Report(payload, Failed, NO_ERROR);
            var s1 := ReconcileOne(s, payload);
            var s2 := AdvanceReconcile(s1, true, true, NoReply);
            var s3 := AdvanceReconcile(s2, true, true, NoReply);
            var s4 := AdvanceReconcile(s3, true, true, NoReply);
            && s1.journal == Some(s.journal.value.(status := Reaped))
            && s4.job.status == Failed && s4.job.result == Some(r.payload) && s4.job.error == r.error && s4.job.inputs >= 1
            && s4.journal == Some(s.journal.value.(status := Reported, frozen := Some(r))) && s4.rec == NotReconciling
  {
    var r := if s.journal.value.frozen.Some? then s.journal.value.frozen.value else Report(payload, Failed, NO_ERROR);
    var s1 := ReconcileOne(s, payload);
    var s2 := AdvanceReconcile(s1, true, true, NoReply);
    assert s2.rec == ToReport(Running, r.(status := Failed));
    var s3 := AdvanceReconcile(s2, true, true, NoReply);
    assert s3.rec == ReportAnswered(true);
  }

  /** A report that finds its job lost is attached instead, with the payload its
      journal froze; the journal is reported exactly when the answer settles it. */
  lemma LateReportAttaches(s: State, r: Report, reply: AttachReply)
    requires s.fin == Answered(r, false) && s.job.status == Lost && s.journal.Some?
    ensures var s1 := AdvanceFinish(s, true, true, NoReply);
            var s2 := AdvanceFinish(s1, true, true, reply);
            var s3 := AdvanceFinish(s2, true, true, NoReply);
            var frozen := s.journal.value.frozen;
            && s3.sent == s.sent + [Report(if frozen.Some? then frozen.value.payload else r.payload, r.status, r.error)]
            && s3.job == s.job && s3.journal.Some? && s3.journal.value.frozen == frozen && s3.fin == NotFinishing && !s3.active
            && (s3.journal.value.attached <==> s.journal.value.attached || reply != NoReply)
            && s3.journal.value.status == (if reply == Landed || reply == RefusedForGood then Reported else s.journal.value.status)
            && (reply == Landed ==> s3.landed)
  {
    var s1 := AdvanceFinish(s, true, true, NoReply);
    assert s1.fin == ToAttach(r);
  }

  /** An exited journal whose job ended otherwise is marked as reported, and nothing is
      sent. */
  lemma EndedIsMarked(s: State, payload: Payload)
    requires !Busy(s) && s.journal.Some? && s.journal.value.status == Exited && s.journal.value.frozen.Some?
    requires Terminal(s.job.status) && s.job.status != Lost
    ensures var s1 := ReconcileOne(s, payload);
            var s2 := AdvanceReconcile(s1, true, true, NoReply);
            var s3 := AdvanceReconcile(s2, true, true, NoReply);
            s3 == s.(journal := Some(s.journal.value.(status := Reported)))
  {
    var s1 := ReconcileOne(s, payload);
    var s2 := AdvanceReconcile(s1, true, true, NoReply);
    assert s2.rec == ToReport(s.job.status, s.journal.value.frozen.value);
  }
}
