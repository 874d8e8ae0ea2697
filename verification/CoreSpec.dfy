/**
 The continuity core as a value, and each public operation as a set of possible errors (empty
 when the operation is accepted) together with its effect on an accepted call.
 */
module CoreSpec {
  import opened Entities
  import opened EvidenceGate
  import opened Graphs
  import opened Numbering

  datatype Core = Core(
    programs: map<Id, Program>,
    sessions: map<Id, Session>,
    continuations: map<Id, Continuation>,
    requests: map<Id, LogicalRequest>,
    attempts: map<Id, Attempt>,
    phases: map<Id, Phase>,
    states: map<Id, ReusableState>,
    replicas: map<Id, StateReplica>,
    bindings: map<Id, Binding>,
    evidence: map<Id, Evidence>,
    outputs: map<Id, Output>,
    events: map<Id, SemanticEvent>,
    eventOrder: seq<Id>,
    currentBinding: map<Id, Id>,
    currentEpoch: map<Id, int>,
    lastAllocated: map<Id, int>)

  const EmptyCore := Core(map[], map[], map[], map[], map[], map[], map[], map[], map[], map[], map[], map[], [],
      map[], map[], map[])

  /** The 25 replayable operations. `now` is the time passed by the caller, or its clock reading. */
  datatype Op =
    | CreateProgram(id: Id)
    | SetProgramStatus(programId: Id, programStatus: ProgramStatus)
    | CreateSession(id: Id, programId: Id)
    | CreateContinuation(id: Id, sessionId: Id, parentIds: set<Id>, lifecycle: ContinuationLifecycle)
    | SetContinuationLifecycle(continuationId: Id, lifecycle: ContinuationLifecycle)
    | ResumeAfterWait(waitingId: Id, childId: Id)
    | CreateRequest(id: Id, continuationId: Id)
    | StartAttempt(id: Id, requestId: Id)
    | SetAttemptExecution(attemptId: Id, execution: ExecutionStatus)
    | CompleteAttempt(attemptId: Id, succeeded: bool)
    | CreatePhase(id: Id, attemptId: Id, phaseType: PhaseType, ordinal: Option<int>)
    | SetPhaseStatus(phaseId: Id, phaseStatus: PhaseStatus)
    | CompletePhase(phaseId: Id)
    | CreateOutput(id: Id, attemptId: Id, terminal: bool, evidenceIds: set<Id>)
    | FinalizeRequest(requestId: Id, outputId: Id, now: real)
    | CreateState(id: Id, originType: OriginType, originId: Id, semanticType: string, representation: string,
        derivedFrom: set<Id>)
    | SetStateValidity(stateId: Id, validity: StateValidity)
    | AddReplica(id: Id, stateId: Id, locationId: string, replicaStatus: ReplicaStatus)
    | SetReplicaStatus(replicaId: Id, replicaStatus: ReplicaStatus)
    | ProposeBinding(id: Id, subjectId: Id, locationId: string)
    | ActivateInitialBinding(id: Id, subjectId: Id, locationId: string)
    | BeginMigration(bindingId: Id)
    | CommitMigration(bindingId: Id, offered: seq<Id>, now: real)
    | RecordEvidence(item: Evidence)
    | RecordEvent(event: SemanticEvent)

  // ---------- identity ----------

  predicate Taken(c: Core, id: Id) {
    || id in c.programs || id in c.sessions || id in c.continuations || id in c.requests
    || id in c.attempts || id in c.phases || id in c.states || id in c.replicas
    || id in c.bindings || id in c.evidence || id in c.outputs || id in c.events
  }

  // ---------- graphs ----------

  function Parents(cs: map<Id, Continuation>): Graph<Id> {
    map i | i in cs :: cs[i].parentIds
  }

  function SessionGraph(cs: map<Id, Continuation>, session: Id): Graph<Id> {
    map i | i in cs && cs[i].sessionId == session :: cs[i].parentIds
  }

  function Provenance(ss: map<Id, ReusableState>): Graph<Id> {
    map i | i in ss :: ss[i].derivedFrom
  }

  /** Reflexive ancestry over parent links. */
  ghost predicate Ancestor(cs: map<Id, Continuation>, ancestor: Id, descendant: Id) {
    ancestor == descendant || Reaches(Parents(cs), descendant, ancestor)
  }

  /** Some continuation in the given lifecycle descends from `origin`. */
  ghost predicate LiveDescendant(cs: map<Id, Continuation>, origin: Id, life: ContinuationLifecycle) {
    exists d :: d in cs && cs[d].lifecycle == life && Ancestor(cs, origin, d)
  }

  /** ACTIVE over WAITING over SPECULATIVE over TERMINAL, over all descendants of the origin. */
  ghost function DerivedLifecycle(cs: map<Id, Continuation>, origin: Id): StateLifecycle {
    if LiveDescendant(cs, origin, LifeActive) then Active
    else if LiveDescendant(cs, origin, LifeWaiting) then Waiting
    else if LiveDescendant(cs, origin, LifeSpeculative) then Speculative
    else Terminal
  }

  ghost function Refreshed(cs: map<Id, Continuation>, ss: map<Id, ReusableState>): map<Id, ReusableState> {
    map i | i in ss :: ss[i].(lifecycle := DerivedLifecycle(cs, ss[i].originContinuationId))
  }

  // ---------- numbering ----------

  function AttemptNumbers(attempts: map<Id, Attempt>): Numbered {
    map a | a in attempts :: (attempts[a].requestId, attempts[a].generation)
  }

  function PhaseNumbers(phases: map<Id, Phase>): Numbered {
    map p | p in phases :: (phases[p].attemptId, phases[p].ordinal)
  }

  /** One past the largest number handed out so far, starting from 1. */
  ghost function Next(m: Numbered, owner: Id): int {
    Largest(m, owner) + 1
  }

  // ---------- state machines of the status fields ----------

  predicate TerminalProgram(s: ProgramStatus) { s in {ProgramCompleted, ProgramFailed, ProgramCancelled} }

  predicate TerminalLife(l: ContinuationLifecycle) { l in {LifeTerminal, LifeAbandoned} }

  predicate TerminalRequest(s: RequestStatus) { s in {RequestCompleted, RequestFailed, RequestCancelled} }

  predicate TerminalExecution(s: ExecutionStatus) { s in {ExecSucceeded, ExecFailed, ExecCancelled} }

  predicate TerminalPhase(s: PhaseStatus) { s in {PhaseCompleted, PhaseFailed, PhaseCancelled} }

  function ExecutionRank(s: ExecutionStatus): nat {
    if s == ExecCreated then 0 else if s == ExecDispatched then 1 else 2
  }

  predicate ExecutionMoves(from: ExecutionStatus, to: ExecutionStatus) {
    if TerminalExecution(from) then to == from else TerminalExecution(to) || ExecutionRank(from) <= ExecutionRank(to)
  }

  predicate PhaseMoves(from: PhaseStatus, to: PhaseStatus) {
    if TerminalPhase(from) then to == from else !(from == PhaseRunning && to == PhaseCreated)
  }

  function SettledExecution(succeeded: bool): ExecutionStatus { if succeeded then ExecSucceeded else ExecFailed }

  // ---------- provenance of a State ----------

  datatype Origin = Origin(continuationId: Id, requestId: Option<Id>, attemptId: Option<Id>, phaseId: Option<Id>)

  function ResolveOrigin(continuations: map<Id, Continuation>, requests: map<Id, LogicalRequest>,
                         attempts: map<Id, Attempt>, phases: map<Id, Phase>, originType: OriginType,
                             originId: Id): Result<Origin> {
    match originType
    case FromContinuation =>
      if originId !in continuations then Err(KeyError) else Ok(Origin(originId, None, None, None))
    case FromRequest =>
      if originId !in requests then Err(KeyError)
      else if requests[originId].status != RequestCompleted || requests[originId].committedAttemptId.None? then
          Err(SemanticViolation)
      else Ok(Origin(requests[originId].continuationId, Some(originId), requests[originId].committedAttemptId, None))
    case FromAttempt =>
      if originId !in attempts then Err(KeyError)
      else if attempts[originId].authorityStatus == Superseded then Err(SemanticViolation)
      else AttemptOrigin(requests, attempts, originId, None)
    case FromPhase =>
      if originId !in phases then Err(KeyError)
      else if phases[originId].status != PhaseCompleted then Err(SemanticViolation)
      else if phases[originId].attemptId !in attempts then Err(KeyError)
      else if attempts[phases[originId].attemptId].authorityStatus == Superseded then Err(SemanticViolation)
      else AttemptOrigin(requests, attempts, phases[originId].attemptId, Some(originId))
    case UnsupportedOrigin(_) => Err(SemanticViolation)
  }

  function AttemptOrigin(requests: map<Id, LogicalRequest>, attempts: map<Id, Attempt>, a: Id,
      phase: Option<Id>): Result<Origin>
    requires a in attempts
  {
    var r := attempts[a].requestId;
    if r !in requests then Err(KeyError) else Ok(Origin(requests[r].continuationId, Some(r), Some(a), phase))
  }

  /** Both were produced by phases of one attempt, the dependency not strictly earlier. */
  predicate PhaseTooLate(phases: map<Id, Phase>, phase: Option<Id>, attempt: Option<Id>, dep: ReusableState) {
    && Truthy(phase) && Truthy(dep.producerPhaseId) && dep.producerAttemptId == attempt
    && phase.value in phases && dep.producerPhaseId.value in phases
    && phases[phase.value].ordinal <= phases[dep.producerPhaseId.value].ordinal
  }

  ghost function DependencyFaults(c: Core, o: Origin, d: Id): set<Error> {
    if d !in c.states then {KeyError}
    else if !Ancestor(c.continuations, c.states[d].originContinuationId, o.continuationId) then {SemanticViolation}
    else if PhaseTooLate(c.phases, o.phaseId, o.attemptId, c.states[d]) then {SemanticViolation}
    else {}
  }

  ghost function AnyDependencyFaults(c: Core, o: Origin, derivedFrom: set<Id>): set<Error> {
    set d, e | d in derivedFrom && e in DependencyFaults(c, o, d) :: e
  }

  function NewState(o: Origin, op: Op): ReusableState
    requires op.CreateState?
  {
    ReusableState(op.id, op.originType, op.originId, o.continuationId, o.requestId, o.attemptId,
                  op.semanticType, op.representation, Terminal, StateValid, op.derivedFrom, o.phaseId)
  }

  ghost function ParentFaults(c: Core, session: Id, p: Id): set<Error> {
    if p !in c.continuations then {KeyError}
    else if c.continuations[p].sessionId != session then {SemanticViolation}
    else {}
  }

  // ---------- bindings ----------

  function EpochOf(epochs: map<Id, int>, subject: Id, default: int): int {
    if subject in epochs then epochs[subject] else default
  }

  function NewBinding(c: Core, id: Id, subject: Id, location: string, status: BindingStatus): Binding {
    var base := EpochOf(c.currentEpoch, subject, 0);
    Binding(id, subject, location, base, EpochOf(c.lastAllocated, subject, base) + 1, status)
  }

  function MigrationScope(b: Binding): Scope {
    {("binding", b.id), ("epoch", Decimal(b.epoch))}
  }

  // ---------- evidence records ----------

  ghost function SupportScope(evidence: map<Id, Evidence>, supports: set<Id>): Scope {
    set s, x | s in supports && s in evidence && x in evidence[s].scope :: x
  }

  /** The provenance rules a new Evidence record has to meet. */
  ghost predicate Supported(evidence: map<Id, Evidence>, e: Evidence) {
    && (if e.authority == Derived then e.derivedFrom != {} && Truthy(e.derivationRule)
        else e.derivedFrom == {} && !Truthy(e.derivationRule))
    && e.derivedFrom <= evidence.Keys
    && (e.derivedFrom != {} ==> e.scope <= SupportScope(evidence, e.derivedFrom))
    && (e.status == EvidenceValid ==> forall s :: s in e.derivedFrom ==> evidence[s].status == EvidenceValid)
  }

  // ---------- errors and effects, operation by operation ----------

  ghost function FreshFaults(c: Core, id: Id): set<Error> {
    if Taken(c, id) then {SemanticViolation} else {}
  }

  /** A fresh identifier under an existing owner. */
  ghost function UnderFaults(c: Core, id: Id, ownerExists: bool): set<Error> {
    if Taken(c, id) then {SemanticViolation} else if !ownerExists then {KeyError} else {}
  }

  ghost function KnownFaults(known: bool): set<Error> {
    if known then {} else {KeyError}
  }

  ghost function AfterCreateProgram(c: Core, id: Id): Core {
    c.(programs := c.programs[id := Program(id, ProgramCreated)])
  }

  ghost function ProgramStatusFaults(c: Core, p: Id, s: ProgramStatus): set<Error> {
    if p !in c.programs then {KeyError}
    else if TerminalProgram(c.programs[p].status) && s != c.programs[p].status then {InvalidTransition}
    else {}
  }

  ghost function AfterSetProgramStatus(c: Core, p: Id, s: ProgramStatus): Core
    requires p in c.programs
  {
    c.(programs := c.programs[p := c.programs[p].(status := s)])
  }

  ghost function AfterCreateSession(c: Core, id: Id, p: Id): Core {
    c.(sessions := c.sessions[id := Session(id, p)])
  }

  ghost function ParentageFaults(c: Core, id: Id, session: Id, parents: set<Id>): set<Error> {
    if Taken(c, id) then {SemanticViolation}
    else if session !in c.sessions then {KeyError}
    else set p, e | p in parents && e in ParentFaults(c, session, p) :: e
  }

  ghost function ContinuationFaults(c: Core, id: Id, session: Id, parents: set<Id>,
      life: ContinuationLifecycle): set<Error>
  {
    var refused := ParentageFaults(c, id, session, parents);
    if refused != {} then refused
    else if HasCycle(SessionGraph(c.continuations[id := Continuation(id, session, parents, life)], session)) then
        {SemanticViolation}
    else {}
  }

  /** New continuations, and every cached State lifecycle recomputed over them. */
  ghost function WithContinuations(c: Core, cs: map<Id, Continuation>): Core {
    c.(continuations := cs, states := Refreshed(cs, c.states))
  }

  ghost function AfterCreateContinuation(c: Core, id: Id, session: Id, parents: set<Id>,
      life: ContinuationLifecycle): Core
  {
    WithContinuations(c, c.continuations[id := Continuation(id, session, parents, life)])
  }

  ghost function LifecycleFaults(c: Core, k: Id, life: ContinuationLifecycle): set<Error> {
    if k !in c.continuations then {KeyError}
    else if TerminalLife(c.continuations[k].lifecycle) && life != c.continuations[k].lifecycle then {InvalidTransition}
    else {}
  }

  ghost function AfterSetLifecycle(c: Core, k: Id, life: ContinuationLifecycle): Core
    requires k in c.continuations
  {
    WithContinuations(c, c.continuations[k := c.continuations[k].(lifecycle := life)])
  }

  ghost function ResumeFaults(c: Core, w: Id, child: Id): set<Error> {
    if w !in c.continuations then {KeyError}
    else if c.continuations[w].lifecycle != LifeWaiting then {InvalidTransition}
    else ContinuationFaults(c, child, c.continuations[w].sessionId, {w}, LifeActive)
  }

  ghost function AfterResume(c: Core, w: Id, child: Id): Core
    requires w in c.continuations
  {
    WithContinuations(c, c.continuations
      [child := Continuation(child, c.continuations[w].sessionId, {w}, LifeActive)]
      [w := c.continuations[w].(lifecycle := LifeTerminal)])
  }

  ghost function AfterCreateRequest(c: Core, id: Id, k: Id): Core {
    c.(requests := c.requests[id := LogicalRequest(id, k, RequestReady, None, None, None)])
  }

  ghost function StartFaults(c: Core, id: Id, r: Id): set<Error> {
    if Taken(c, id) then {SemanticViolation}
    else if r !in c.requests then {KeyError}
    else if TerminalRequest(c.requests[r].status) then {InvalidTransition}
    else if !Truthy(c.requests[r].currentAttemptId) then {}
    else if c.requests[r].currentAttemptId.value !in c.attempts then {KeyError}
    else if c.attempts[c.requests[r].currentAttemptId.value].authorityStatus != Current then {SemanticViolation}
    else {}
  }

  /** The attempts after the current one, if its identifier is truthy, lost its authority. */
  ghost function Fence(attempts: map<Id, Attempt>, current: Option<Id>): map<Id, Attempt> {
    if Truthy(current) && current.value in attempts
    then attempts[current.value := attempts[current.value].(authorityStatus := Superseded)]
    else attempts
  }

  ghost function AfterStartAttempt(c: Core, id: Id, r: Id): Core
    requires r in c.requests
  {
    var attempt := Attempt(id, r, Next(AttemptNumbers(c.attempts), r), ExecCreated, Current);
    c.(attempts := Fence(c.attempts, c.requests[r].currentAttemptId)[id := attempt],
       requests := c.requests[r := c.requests[r].(status := RequestRunning, currentAttemptId := Some(id))])
  }

  ghost function ExecutionFaults(c: Core, a: Id, s: ExecutionStatus): set<Error> {
    if a !in c.attempts then {KeyError}
    else if !ExecutionMoves(c.attempts[a].executionStatus, s) then {InvalidTransition}
    else {}
  }

  ghost function AfterSetExecution(c: Core, a: Id, s: ExecutionStatus): Core
    requires a in c.attempts
  {
    c.(attempts := c.attempts[a := c.attempts[a].(executionStatus := s)])
  }

  ghost function CreatePhaseFaults(c: Core, id: Id, a: Id, ordinal: Option<int>): set<Error> {
    if Taken(c, id) then {SemanticViolation}
    else if a !in c.attempts then {KeyError}
    else if ordinal.Some? && ordinal.value != Next(PhaseNumbers(c.phases), a) then {SemanticViolation}
    else {}
  }

  ghost function AfterCreatePhase(c: Core, id: Id, a: Id, kind: PhaseType): Core {
    c.(phases := c.phases[id := Phase(id, a, Next(PhaseNumbers(c.phases), a), kind, PhaseCreated)])
  }

  ghost function PhaseFaults(c: Core, p: Id, s: PhaseStatus): set<Error> {
    if p !in c.phases then {KeyError}
    else if TerminalPhase(c.phases[p].status) && s != c.phases[p].status then {InvalidTransition}
    else if s == PhaseCompleted && c.phases[p].attemptId !in c.attempts then {KeyError}
    else if s == PhaseCompleted && c.attempts[c.phases[p].attemptId].authorityStatus == Superseded then
        {SemanticViolation}
    else if !PhaseMoves(c.phases[p].status, s) then {InvalidTransition}
    else {}
  }

  ghost function AfterSetPhaseStatus(c: Core, p: Id, s: PhaseStatus): Core
    requires p in c.phases
  {
    c.(phases := c.phases[p := c.phases[p].(status := s)])
  }

  ghost function OutputFaults(c: Core, id: Id, a: Id, ev: set<Id>): set<Error> {
    if Taken(c, id) then {SemanticViolation}
    else if a !in c.attempts then {KeyError}
    else if !(ev <= c.evidence.Keys) then {SemanticViolation}
    else {}
  }

  ghost function AfterCreateOutput(c: Core, id: Id, a: Id, terminal: bool, ev: set<Id>): Core {
    c.(outputs := c.outputs[id := Output(id, a, terminal, ev)])
  }

  ghost function FinalizeFaults(c: Core, r: Id, o: Id, now: real): set<Error> {
    if r !in c.requests || o !in c.outputs || c.outputs[o].attemptId !in c.attempts then {KeyError} else
      var request, output := c.requests[r], c.outputs[o];
      var attempt := c.attempts[output.attemptId];
      if request.status == RequestCompleted then
        if request.authoritativeOutputId == Some(o) then {} else {InvalidTransition}
      else if TerminalRequest(request.status) then {InvalidTransition}
      else if request.currentAttemptId != Some(output.attemptId) || attempt.authorityStatus != Current then
          {SemanticViolation}
      else if attempt.executionStatus != ExecSucceeded || !output.terminal then {SemanticViolation}
      else if !Sufficient(Offered(c.evidence, output.evidenceIds), Finalize, now, FinalizeScope(attempt), None) then
          {InsufficientEvidence}
      else {}
  }

  function FinalizeScope(a: Attempt): Scope {
    {("attempt", a.id)}
  }

  ghost function AfterFinalize(c: Core, r: Id, o: Id): Core
    requires r in c.requests && o in c.outputs && c.outputs[o].attemptId in c.attempts
  {
    var a := c.outputs[o].attemptId;
    c.(attempts := c.attempts[a := c.attempts[a].(authorityStatus := Committed)],
       requests := c.requests[r := c.requests[r].(status := RequestCompleted, currentAttemptId := None,
                                                 committedAttemptId := Some(a), authoritativeOutputId := Some(o))])
  }

  ghost function OriginOf(c: Core, op: Op): Result<Origin>
    requires op.CreateState?
  {
    ResolveOrigin(c.continuations, c.requests, c.attempts, c.phases, op.originType, op.originId)
  }

  ghost function DerivationFaults(c: Core, id: Id, origin: Result<Origin>, derivedFrom: set<Id>): (faults: set<Error>)
    ensures faults == {} ==> origin.Ok?
  {
    if Taken(c, id) then {SemanticViolation}
    else if origin.Err? then {origin.error}
    else AnyDependencyFaults(c, origin.value, derivedFrom)
  }

  ghost function CreateStateFaults(c: Core, op: Op): set<Error>
    requires op.CreateState?
  {
    var refused := DerivationFaults(c, op.id, OriginOf(c, op), op.derivedFrom);
    if refused != {} then refused
    else if HasCycle(Provenance(c.states[op.id := NewState(OriginOf(c, op).value, op)])) then {SemanticViolation}
    else {}
  }

  ghost function AfterCreateState(c: Core, op: Op): Core
    requires op.CreateState? && OriginOf(c, op).Ok?
  {
    c.(states := Refreshed(c.continuations, c.states[op.id := NewState(OriginOf(c, op).value, op)]))
  }

  ghost function ValidityFaults(c: Core, s: Id, v: StateValidity): set<Error> {
    if s !in c.states then {KeyError}
    else if c.states[s].validity == StateInvalid && v != StateInvalid then {InvalidTransition}
    else {}
  }

  ghost function AfterSetValidity(c: Core, s: Id, v: StateValidity): Core
    requires s in c.states
  {
    c.(states := c.states[s := c.states[s].(validity := v)])
  }

  ghost function AfterAddReplica(c: Core, id: Id, s: Id, location: string, status: ReplicaStatus): Core {
    c.(replicas := c.replicas[id := StateReplica(id, s, location, status, None, None)])
  }

  ghost function AfterSetReplicaStatus(c: Core, r: Id, status: ReplicaStatus): Core
    requires r in c.replicas
  {
    c.(replicas := c.replicas[r := c.replicas[r].(status := status)])
  }

  ghost function AfterPropose(c: Core, b: Binding): Core {
    c.(bindings := c.bindings[b.id := b], lastAllocated := c.lastAllocated[b.subjectId := b.epoch])
  }

  ghost function ActivateFaults(c: Core, id: Id, subject: Id): set<Error> {
    if subject in c.currentBinding then {InvalidTransition} else FreshFaults(c, id)
  }

  ghost function AfterActivate(c: Core, id: Id, subject: Id, location: string): Core {
    var b := NewBinding(c, id, subject, location, BindingActive);
    AfterPropose(c, b).(currentBinding := c.currentBinding[subject := id],
        currentEpoch := c.currentEpoch[subject := b.epoch])
  }

  ghost function BeginFaults(c: Core, b: Id): set<Error> {
    if b !in c.bindings then {KeyError} else if c.bindings[b].status != Proposed then {InvalidTransition} else {}
  }

  ghost function AfterBegin(c: Core, b: Id): Core
    requires b in c.bindings
  {
    c.(bindings := c.bindings[b := c.bindings[b].(status := Migrating)])
  }

  /** The binding a commit supersedes: the current one, unless its identifier is the empty string. */
  function Displaced(c: Core, subject: Id): Option<Id> {
    if subject in c.currentBinding && c.currentBinding[subject] != "" then Some(c.currentBinding[subject]) else None
  }

  ghost function CommitFaults(c: Core, b: Id, ev: seq<Id>, now: real): set<Error> {
    if b !in c.bindings then {KeyError} else
      var binding := c.bindings[b];
      if binding.baseEpoch != EpochOf(c.currentEpoch, binding.subjectId, 0) then {SemanticViolation}
      else if binding.status != Proposed && binding.status != Migrating then {InvalidTransition}
      else if !Sufficient(Offered(c.evidence, IdSet(ev)), CommitMigrationAction, now, MigrationScope(binding),
          None) then {InsufficientEvidence}
      else if Displaced(c, binding.subjectId).Some? && Displaced(c, binding.subjectId).value !in c.bindings then
          {KeyError}
      else {}
  }

  ghost function Displace(bindings: map<Id, Binding>, displaced: Option<Id>): map<Id, Binding> {
    if displaced.Some? && displaced.value in bindings
    then bindings[displaced.value := bindings[displaced.value].(status := BindingSuperseded)]
    else bindings
  }

  ghost function AfterCommit(c: Core, b: Id): Core
    requires b in c.bindings
  {
    var binding := c.bindings[b];
    c.(bindings := Displace(c.bindings, Displaced(c, binding.subjectId))[b := binding.(status := BindingActive)],
       currentBinding := c.currentBinding[binding.subjectId := b],
       currentEpoch := c.currentEpoch[binding.subjectId := binding.epoch])
  }

  ghost function EvidenceFaults(c: Core, e: Evidence): set<Error> {
    if e.id in c.evidence then (if c.evidence[e.id] == e then {} else {SemanticViolation})
    else if !Supported(c.evidence, e) || Taken(c, e.id) then {SemanticViolation}
    else {}
  }

  ghost function AfterRecordEvidence(c: Core, e: Evidence): Core {
    c.(evidence := c.evidence[e.id := e])
  }

  ghost function EventFaults(c: Core, e: SemanticEvent): set<Error> {
    if e.id in c.events then (if c.events[e.id] == e then {} else {SemanticViolation})
    else if Taken(c, e.id) then {SemanticViolation}
    else {}
  }

  ghost function AfterRecordEvent(c: Core, e: SemanticEvent): Core {
    c.(events := c.events[e.id := e], eventOrder := c.eventOrder + [e.id])
  }

  // ---------- steps and runs ----------

  /** Programs, sessions, continuations and requests. */
  predicate StructureOp(op: Op) {
    || op.CreateProgram? || op.SetProgramStatus? || op.CreateSession? || op.CreateContinuation?
    || op.SetContinuationLifecycle? || op.ResumeAfterWait? || op.CreateRequest?
  }

  /** Attempts, phases and outputs. */
  predicate WorkOp(op: Op) {
    || op.StartAttempt? || op.SetAttemptExecution? || op.CompleteAttempt? || op.CreatePhase?
    || op.SetPhaseStatus? || op.CompletePhase? || op.CreateOutput? || op.FinalizeRequest?
  }

  /** Reusable States and their replicas. */
  predicate StateOp(op: Op) {
    || op.CreateState? || op.SetStateValidity? || op.AddReplica? || op.SetReplicaStatus?
  }

  /** Bindings, evidence and events. */
  predicate RecordOp(op: Op) {
    || op.ProposeBinding? || op.ActivateInitialBinding? || op.BeginMigration? || op.CommitMigration?
    || op.RecordEvidence? || op.RecordEvent?
  }

  ghost function StructureFaults(c: Core, op: Op): set<Error>
    requires StructureOp(op)
  {
    match op
    case CreateProgram(id) => FreshFaults(c, id)
    case SetProgramStatus(p, s) => ProgramStatusFaults(c, p, s)
    case CreateSession(id, p) => UnderFaults(c, id, p in c.programs)
    case CreateContinuation(id, session, parents, life) => ContinuationFaults(c, id, session, parents, life)
    case SetContinuationLifecycle(k, life) => LifecycleFaults(c, k, life)
    case ResumeAfterWait(w, child) => ResumeFaults(c, w, child)
    case CreateRequest(id, k) => UnderFaults(c, id, k in c.continuations)
  }

  ghost function WorkFaults(c: Core, op: Op): set<Error>
    requires WorkOp(op)
  {
    match op
    case StartAttempt(id, r) => StartFaults(c, id, r)
    case SetAttemptExecution(a, s) => ExecutionFaults(c, a, s)
    case CompleteAttempt(a, ok) => ExecutionFaults(c, a, SettledExecution(ok))
    case CreatePhase(id, a, _, ordinal) => CreatePhaseFaults(c, id, a, ordinal)
    case SetPhaseStatus(p, s) => PhaseFaults(c, p, s)
    case CompletePhase(p) => PhaseFaults(c, p, PhaseCompleted)
    case CreateOutput(id, a, _, ev) => OutputFaults(c, id, a, ev)
    case FinalizeRequest(r, o, now) => FinalizeFaults(c, r, o, now)
  }

  ghost function StateFaults(c: Core, op: Op): set<Error>
    requires StateOp(op)
  {
    match op
    case CreateState(_, _, _, _, _, _) => CreateStateFaults(c, op)
    case SetStateValidity(s, v) => ValidityFaults(c, s, v)
    case AddReplica(id, s, _, _) => UnderFaults(c, id, s in c.states)
    case SetReplicaStatus(r, _) => KnownFaults(r in c.replicas)
  }

  ghost function RecordFaults(c: Core, op: Op): set<Error>
    requires RecordOp(op)
  {
    match op
    case ProposeBinding(id, _, _) => FreshFaults(c, id)
    case ActivateInitialBinding(id, subject, _) => ActivateFaults(c, id, subject)
    case BeginMigration(b) => BeginFaults(c, b)
    case CommitMigration(b, ev, now) => CommitFaults(c, b, ev, now)
    case RecordEvidence(e) => EvidenceFaults(c, e)
    case RecordEvent(e) => EventFaults(c, e)
  }

  /** Every error the operation can raise in this state; none when it is accepted. */
  ghost function Faults(c: Core, op: Op): set<Error> {
    if StructureOp(op) then StructureFaults(c, op)
    else if WorkOp(op) then WorkFaults(c, op)
    else if StateOp(op) then StateFaults(c, op)
    else RecordFaults(c, op)
  }

  ghost predicate Accepted(c: Core, op: Op) {
    Faults(c, op) == {}
  }

  /** An exact repetition, accepted without any change. */
  predicate Idle(c: Core, op: Op) {
    || (op.FinalizeRequest? && op.requestId in c.requests && c.requests[op.requestId].status == RequestCompleted)
    || (op.RecordEvidence? && op.item.id in c.evidence)
    || (op.RecordEvent? && op.event.id in c.events)
  }

  ghost function StructureEffect(c: Core, op: Op): Core
    requires StructureOp(op) && StructureFaults(c, op) == {}
  {
    match op
    case CreateProgram(id) => AfterCreateProgram(c, id)
    case SetProgramStatus(p, s) => AfterSetProgramStatus(c, p, s)
    case CreateSession(id, p) => AfterCreateSession(c, id, p)
    case CreateContinuation(id, session, parents, life) => AfterCreateContinuation(c, id, session, parents, life)
    case SetContinuationLifecycle(k, life) => AfterSetLifecycle(c, k, life)
    case ResumeAfterWait(w, child) => AfterResume(c, w, child)
    case CreateRequest(id, k) => AfterCreateRequest(c, id, k)
  }

  ghost function WorkEffect(c: Core, op: Op): Core
    requires WorkOp(op) && WorkFaults(c, op) == {}
  {
    match op
    case StartAttempt(id, r) => AfterStartAttempt(c, id, r)
    case SetAttemptExecution(a, s) => AfterSetExecution(c, a, s)
    case CompleteAttempt(a, ok) => AfterSetExecution(c, a, SettledExecution(ok))
    case CreatePhase(id, a, kind, _) => AfterCreatePhase(c, id, a, kind)
    case SetPhaseStatus(p, s) => AfterSetPhaseStatus(c, p, s)
    case CompletePhase(p) => AfterSetPhaseStatus(c, p, PhaseCompleted)
    case CreateOutput(id, a, terminal, ev) => AfterCreateOutput(c, id, a, terminal, ev)
    case FinalizeRequest(r, o, _) => if Idle(c, op) then c else AfterFinalize(c, r, o)
  }

  ghost function StateEffect(c: Core, op: Op): Core
    requires StateOp(op) && StateFaults(c, op) == {}
  {
    match op
    case CreateState(_, _, _, _, _, _) => AfterCreateState(c, op)
    case SetStateValidity(s, v) => AfterSetValidity(c, s, v)
    case AddReplica(id, s, location, status) => AfterAddReplica(c, id, s, location, status)
    case SetReplicaStatus(r, status) => AfterSetReplicaStatus(c, r, status)
  }

  ghost function RecordEffect(c: Core, op: Op): Core
    requires RecordOp(op) && RecordFaults(c, op) == {}
  {
    match op
    case ProposeBinding(id, subject, location) => AfterPropose(c, NewBinding(c, id, subject, location, Proposed))
    case ActivateInitialBinding(id, subject, location) => AfterActivate(c, id, subject, location)
    case BeginMigration(b) => AfterBegin(c, b)
    case CommitMigration(b, _, _) => AfterCommit(c, b)
    case RecordEvidence(e) => if Idle(c, op) then c else AfterRecordEvidence(c, e)
    case RecordEvent(e) => if Idle(c, op) then c else AfterRecordEvent(c, e)
  }

  ghost function Effect(c: Core, op: Op): Core
    requires Accepted(c, op)
  {
    if StructureOp(op) then StructureEffect(c, op)
    else if WorkOp(op) then WorkEffect(c, op)
    else if StateOp(op) then StateEffect(c, op)
    else RecordEffect(c, op)
  }

  /** One call: its effect when accepted, no change when rejected. */
  ghost function Step(c: Core, op: Op): Core {
    if Accepted(c, op) then Effect(c, op) else c
  }

  /** A whole run; rejected calls change nothing and the caller carries on. */
  ghost function Run(c: Core, ops: seq<Op>): Core {
    if ops == [] then c else Step(Run(c, ops[..|ops| - 1]), ops[|ops| - 1])
  }

  lemma {:induction false} RunConcat(c: Core, p: seq<Op>, q: seq<Op>)
    ensures Run(c, p + q) == Run(Run(c, p), q)
    decreases |q|
  {
    if q == [] {
      assert p + q == p;
    } else {
      var q' := q[..|q| - 1];
      RunConcat(c, p, q');
      assert (p + q)[..|p + q| - 1] == p + q';
    }
  }

  /** How a method's result answers to the errors its operation can raise. */
  ghost predicate Answers<T>(r: Result<T>, faults: set<Error>) {
    if r.Ok? then faults == {} else r.error in faults
  }
}
