/** Which way the status fields can move: exactly what each call accepts, and what no run ever takes back. */
module Progress {
  import opened Entities
  import opened EvidenceGate
  import opened CoreSpec
  import opened Graphs
  import opened Numbering
  import opened Invariant

  predicate ProgramForward(x: ProgramStatus, y: ProgramStatus) {
    y == x || x == ProgramCreated || x == ProgramRunning
  }

  predicate LifeForward(x: ContinuationLifecycle, y: ContinuationLifecycle) {
    y == x || (x != LifeTerminal && x != LifeAbandoned)
  }

  /** CREATED, DISPATCHED, RUNNING in this order, each possibly skipped, then one outcome for good. */
  predicate ExecutionForward(x: ExecutionStatus, y: ExecutionStatus) {
    || y == x
    || (x == ExecCreated && (y == ExecDispatched || y == ExecRunning))
    || (x == ExecDispatched && y == ExecRunning)
    || (x in {ExecCreated, ExecDispatched, ExecRunning} && y in {ExecSucceeded, ExecFailed, ExecCancelled})
  }

  predicate PhaseForward(x: PhaseStatus, y: PhaseStatus) {
    || y == x
    || (x == PhaseCreated && y == PhaseRunning)
    || (x in {PhaseCreated, PhaseRunning} && y in {PhaseCompleted, PhaseFailed, PhaseCancelled})
  }

  predicate RequestForward(x: RequestStatus, y: RequestStatus) {
    y == x || (x !in {RequestCompleted, RequestFailed, RequestCancelled} && y in {RequestRunning, RequestCompleted})
  }

  /** What the five status calls accept. */
  lemma AcceptedMoves(c: Core, id: Id)
    ensures forall s ::
        Accepted(c, SetProgramStatus(id, s)) <==> id in c.programs && ProgramForward(c.programs[id].status, s)
    ensures forall l :: Accepted(c, SetContinuationLifecycle(id, l)) <==>
              id in c.continuations && LifeForward(c.continuations[id].lifecycle, l)
    ensures forall s :: Accepted(c, SetAttemptExecution(id, s)) <==>
              id in c.attempts && ExecutionForward(c.attempts[id].executionStatus, s)
    ensures forall ok :: Accepted(c, CompleteAttempt(id, ok)) <==>
              id in c.attempts
              && ExecutionForward(c.attempts[id].executionStatus, if ok then ExecSucceeded else ExecFailed)
    ensures forall s :: Accepted(c, SetPhaseStatus(id, s)) <==>
              && id in c.phases && PhaseForward(c.phases[id].status, s)
              && (s == PhaseCompleted ==>
                    c.phases[id].attemptId in c.attempts
                    && c.attempts[c.phases[id].attemptId].authorityStatus != Superseded)
  {
  }

  // ---------- one call ----------

  ghost predicate ProgramsForward(x: map<Id, Program>, y: map<Id, Program>) {
    forall p :: p in x ==> p in y && ProgramForward(x[p].status, y[p].status)
  }

  ghost predicate LivesForward(x: map<Id, Continuation>, y: map<Id, Continuation>) {
    forall k :: k in x ==> k in y && LifeForward(x[k].lifecycle, y[k].lifecycle)
  }

  ghost predicate AttemptsForward(x: map<Id, Attempt>, y: map<Id, Attempt>) {
    forall a :: a in x ==> a in y && ExecutionForward(x[a].executionStatus, y[a].executionStatus)
  }

  ghost predicate PhasesForward(x: map<Id, Phase>, y: map<Id, Phase>) {
    forall p :: p in x ==> p in y && PhaseForward(x[p].status, y[p].status)
  }

  ghost predicate RequestsForward(x: map<Id, LogicalRequest>, y: map<Id, LogicalRequest>) {
    forall r :: r in x ==> r in y && RequestForward(x[r].status, y[r].status)
  }

  /** Every status field moved forward, if at all. */
  ghost predicate Forward(c: Core, d: Core) {
    && ProgramsForward(c.programs, d.programs) && LivesForward(c.continuations, d.continuations)
    && AttemptsForward(c.attempts, d.attempts) && PhasesForward(c.phases, d.phases)
    && RequestsForward(c.requests, d.requests)
  }

  lemma StaysForward(c: Core)
    ensures Forward(c, c)
  {
  }

  lemma NewProgramForward(c: Core, p: Id)
    requires p !in c.programs
    ensures Forward(c, AfterCreateProgram(c, p))
  {
  }

  lemma ProgramMovesForward(c: Core, p: Id, s: ProgramStatus)
    requires ProgramStatusFaults(c, p, s) == {}
    ensures Forward(c, AfterSetProgramStatus(c, p, s))
  {
  }

  lemma ContinuationsMoveForward(c: Core, cs: map<Id, Continuation>)
    requires LivesForward(c.continuations, cs)
    ensures Forward(c, WithContinuations(c, cs))
  {
    hide Refreshed;
  }

  lemma NewRequestForward(c: Core, id: Id, k: Id)
    requires id !in c.requests
    ensures Forward(c, AfterCreateRequest(c, id, k))
  {
  }

  lemma NewSessionForward(c: Core, id: Id, p: Id)
    ensures Forward(c, AfterCreateSession(c, id, p))
  {
    hide Forward;
    SameIsForward(c, AfterCreateSession(c, id, p));
  }

  lemma StructureForward(c: Core, op: Op)
    requires StructureOp(op) && StructureFaults(c, op) == {}
    ensures Forward(c, StructureEffect(c, op))
  {
    hide Forward, Refreshed, HasCycle, ParentFaults, SessionGraph, WithContinuations, AfterCreateProgram,
        AfterSetProgramStatus, AfterCreateSession, AfterCreateRequest, ProgramStatusFaults;
    match op
    case CreateProgram(id) => NewProgramForward(c, id);
    case SetProgramStatus(p, s) => ProgramMovesForward(c, p, s);
    case CreateSession(id, p) => NewSessionForward(c, id, p);
    case CreateContinuation(id, session, parents, life) =>
      ContinuationsMoveForward(c, c.continuations[id := Continuation(id, session, parents, life)]);
    case SetContinuationLifecycle(k, life) =>
      ContinuationsMoveForward(c, c.continuations[k := c.continuations[k].(lifecycle := life)]);
    case ResumeAfterWait(w, child) =>
      ContinuationsMoveForward(c, c.continuations
        [child := Continuation(child, c.continuations[w].sessionId, {w}, LifeActive)]
        [w := c.continuations[w].(lifecycle := LifeTerminal)]);
    case CreateRequest(id, k) => NewRequestForward(c, id, k);
  }

  /** The maps that hold a status. */
  ghost predicate SameStatuses(c: Core, d: Core) {
    && d.programs == c.programs && d.continuations == c.continuations && d.attempts == c.attempts
    && d.phases == c.phases && d.requests == c.requests
  }

  lemma SameIsForward(c: Core, d: Core)
    requires SameStatuses(c, d)
    ensures Forward(c, d)
  {
  }

  lemma StartForward(c: Core, id: Id, r: Id)
    requires id !in c.attempts && r in c.requests && !TerminalRequest(c.requests[r].status)
    ensures Forward(c, AfterStartAttempt(c, id, r))
  {
    hide Next, AttemptNumbers;
  }

  lemma ExecutionMovesForward(c: Core, a: Id, s: ExecutionStatus)
    requires ExecutionFaults(c, a, s) == {}
    ensures Forward(c, AfterSetExecution(c, a, s))
  {
  }

  lemma PhaseMovesForward(c: Core, p: Id, s: PhaseStatus)
    requires PhaseFaults(c, p, s) == {}
    ensures Forward(c, AfterSetPhaseStatus(c, p, s))
  {
  }

  lemma NewPhaseForward(c: Core, id: Id, a: Id, kind: PhaseType)
    requires id !in c.phases
    ensures Forward(c, AfterCreatePhase(c, id, a, kind))
  {
    hide Next, PhaseNumbers;
  }

  lemma OutputForward(c: Core, id: Id, a: Id, terminal: bool, ev: set<Id>)
    ensures Forward(c, AfterCreateOutput(c, id, a, terminal, ev))
  {
  }

  lemma FinalizationForward(c: Core, r: Id, o: Id, now: real)
    requires FinalizeFaults(c, r, o, now) == {} && c.requests[r].status != RequestCompleted
    ensures Forward(c, AfterFinalize(c, r, o))
  {
    hide Sufficient, Offered;
  }

  lemma WorkForward(c: Core, op: Op)
    requires WorkOp(op) && WorkFaults(c, op) == {}
    ensures Forward(c, WorkEffect(c, op))
  {
    hide Forward, Sufficient, Offered, Next, AttemptNumbers, PhaseNumbers, AfterStartAttempt, AfterSetExecution,
        AfterCreatePhase, AfterSetPhaseStatus, AfterCreateOutput, AfterFinalize, ExecutionFaults, PhaseFaults;
    StaysForward(c);
    match op
    case StartAttempt(id, r) => StartForward(c, id, r);
    case SetAttemptExecution(a, s) => ExecutionMovesForward(c, a, s);
    case CompleteAttempt(a, ok) => ExecutionMovesForward(c, a, SettledExecution(ok));
    case CreatePhase(id, a, kind, _) => NewPhaseForward(c, id, a, kind);
    case SetPhaseStatus(p, s) => PhaseMovesForward(c, p, s);
    case CompletePhase(p) => PhaseMovesForward(c, p, PhaseCompleted);
    case CreateOutput(id, a, terminal, ev) => OutputForward(c, id, a, terminal, ev);
    case FinalizeRequest(r, o, now) =>
      if !Idle(c, op) {
        FinalizationForward(c, r, o, now);
      }
  }

  lemma StateForward(c: Core, op: Op)
    requires StateOp(op) && StateFaults(c, op) == {}
    ensures Forward(c, StateEffect(c, op))
  {
    hide CreateStateFaults, Refreshed, ResolveOrigin;
  }

  lemma CommitForward(c: Core, b: Id)
    requires b in c.bindings
    ensures Forward(c, AfterCommit(c, b))
  {
    hide Forward, Displace;
    SameIsForward(c, AfterCommit(c, b));
  }

  lemma ActivationForward(c: Core, id: Id, subject: Id, location: string)
    ensures Forward(c, AfterActivate(c, id, subject, location))
  {
    hide Forward, NewBinding;
    SameIsForward(c, AfterActivate(c, id, subject, location));
  }

  lemma ProposalForward(c: Core, b: Binding)
    ensures Forward(c, AfterPropose(c, b))
  {
    hide Forward;
    SameIsForward(c, AfterPropose(c, b));
  }

  lemma BeginningForward(c: Core, b: Id)
    requires b in c.bindings
    ensures Forward(c, AfterBegin(c, b))
  {
    hide Forward;
    SameIsForward(c, AfterBegin(c, b));
  }

  lemma EvidenceForward(c: Core, e: Evidence)
    ensures Forward(c, AfterRecordEvidence(c, e))
  {
    hide Forward;
    SameIsForward(c, AfterRecordEvidence(c, e));
  }

  lemma EventForward(c: Core, e: SemanticEvent)
    ensures Forward(c, AfterRecordEvent(c, e))
  {
    hide Forward;
    SameIsForward(c, AfterRecordEvent(c, e));
  }

  lemma RecordForward(c: Core, op: Op)
    requires RecordOp(op) && RecordFaults(c, op) == {}
    ensures Forward(c, RecordEffect(c, op))
  {
    hide Forward, NewBinding, EvidenceFaults, EventFaults, AfterCommit, AfterActivate, AfterPropose, AfterBegin,
        AfterRecordEvidence, AfterRecordEvent, Sufficient, Offered, Displaced, FreshFaults;
    StaysForward(c);
    match op
    case ProposeBinding(id, subject, location) => ProposalForward(c, NewBinding(c, id, subject, location, Proposed));
    case ActivateInitialBinding(id, subject, location) => ActivationForward(c, id, subject, location);
    case BeginMigration(b) => BeginningForward(c, b);
    case CommitMigration(b, _, _) => CommitForward(c, b);
    case RecordEvidence(e) => EvidenceForward(c, e);
    case RecordEvent(e) => EventForward(c, e);
  }

  lemma StepForward(c: Core, op: Op)
    ensures Forward(c, Step(c, op))
  {
    hide Forward, StructureFaults, WorkFaults, StateFaults, RecordFaults, StructureEffect, WorkEffect, StateEffect,
        RecordEffect;
    StaysForward(c);
    if Accepted(c, op) {
      if StructureOp(op) { StructureForward(c, op); }
      else if WorkOp(op) { WorkForward(c, op); }
      else if StateOp(op) { StateForward(c, op); }
      else { RecordForward(c, op); }
    }
  }

  // ---------- whole runs ----------

  lemma ForwardOn(c: Core, d: Core, e: Core)
    requires Forward(c, d) && Forward(d, e)
    ensures Forward(c, e)
  {
  }

  /** From any core and over any calls, rejected ones included, no status field ever moves back. */
  lemma {:induction false} RunsMoveForward(c: Core, ops: seq<Op>)
    ensures Forward(c, Run(c, ops))
  {
    hide Forward, Step;
    if ops == [] {
      StaysForward(c);
    } else {
      var before := Run(c, ops[..|ops| - 1]);
      RunsMoveForward(c, ops[..|ops| - 1]);
      StepForward(before, ops[|ops| - 1]);
      ForwardOn(c, before, Run(c, ops));
    }
  }
}
