/** The entities of the continuity core: enumerations and immutable records. */
module Entities {

  type Id = string

  datatype Option<+T> = None | Some(value: T)

  /** What an operation can raise. */
  datatype Error = KeyError | InvalidTransition | SemanticViolation | InsufficientEvidence | ValueError

  datatype Result<+T> = Ok(value: T) | Err(error: Error)

  /** The truth value of an optional string: absent and empty are both false. */
  predicate Truthy(o: Option<string>) {
    o.Some? && o.value != ""
  }

  /** The decimal text of an integer. */
  function Decimal(n: int): string
    decreases if n < 0 then 1 - n else n
  {
    if n < 0 then "-" + Decimal(-n)
    else if n < 10 then ["0123456789"[n]]
    else Decimal(n / 10) + ["0123456789"[n % 10]]
  }

  datatype ProgramStatus = ProgramCreated | ProgramRunning | ProgramCompleted | ProgramFailed | ProgramCancelled

  datatype ContinuationLifecycle =
    | LifeCreated | LifeActive | LifeWaiting | LifeSpeculative | LifeJoining | LifeTerminal | LifeAbandoned

  datatype RequestStatus =
    | RequestCreated | RequestReady | RequestRunning | RequestCompleted | RequestFailed | RequestCancelled

  datatype ExecutionStatus = ExecCreated | ExecDispatched | ExecRunning | ExecSucceeded | ExecFailed | ExecCancelled

  datatype AttemptAuthority = NoAuthority | Current | Committed | Superseded

  datatype PhaseType = Prefill | Decode | StatePull | StateTransfer | OtherPhase

  datatype PhaseStatus = PhaseCreated | PhaseRunning | PhaseCompleted | PhaseFailed | PhaseCancelled

  datatype StateLifecycle = Active | Waiting | Speculative | Terminal

  datatype StateValidity = StateValid | StateInvalid

  datatype ReplicaStatus =
    | Materializing | ReplicaValid | ReplicaStale | Transferring | Evicting | ReplicaLost | ReplicaInvalid

  datatype BindingStatus = Proposed | BindingActive | Migrating | BindingSuperseded | Released | BindingInvalid

  datatype EvidenceAuthority = Estimated | Derived | ExactObservation | Authoritative

  datatype EvidenceStatus = EvidenceValid | EvidenceStale | EvidenceUnknown | EvidenceFailed | Ambiguous

  datatype ReconcileOutcome = Matched | Wait | AmbiguousOutcome

  datatype SemanticEvent =
    SemanticEvent(id: Id, kind: string, subjectType: string, subjectId: string, payload: set<(string, string)>)

  datatype Program = Program(id: Id, status: ProgramStatus)

  datatype Session = Session(id: Id, programId: Id)

  datatype Continuation =
    Continuation(id: Id, sessionId: Id, parentIds: set<Id>, lifecycle: ContinuationLifecycle)

  datatype LogicalRequest = LogicalRequest(
    id: Id, continuationId: Id, status: RequestStatus,
    currentAttemptId: Option<Id>, committedAttemptId: Option<Id>, authoritativeOutputId: Option<Id>)

  datatype Attempt = Attempt(
    id: Id, requestId: Id, generation: int, executionStatus: ExecutionStatus, authorityStatus: AttemptAuthority)

  datatype Phase = Phase(id: Id, attemptId: Id, ordinal: int, phaseType: PhaseType, status: PhaseStatus)

  /** The declared origin of a State; any other name is refused when the State is created. */
  datatype OriginName = FromContinuation | FromRequest | FromAttempt | FromPhase | UnsupportedOrigin(name: string)

  type OriginType = o: OriginName |
    o.UnsupportedOrigin? ==> o.name !in {"continuation", "request", "attempt", "phase"}
    witness FromContinuation

  datatype ExecutionContext = ExecutionContext(
    programId: Id, sessionId: Id, continuationId: Id, requestId: Id, attemptId: Id, phaseId: Option<Id>)

  datatype ReusableState = ReusableState(
    id: Id, originType: OriginType, originId: Id, originContinuationId: Id,
    originRequestId: Option<Id>, producerAttemptId: Option<Id>,
    semanticType: string, representation: string,
    lifecycle: StateLifecycle, validity: StateValidity,
    derivedFrom: set<Id>, producerPhaseId: Option<Id>)

  datatype StateReplica = StateReplica(
    id: Id, stateId: Id, locationId: string, status: ReplicaStatus,
    bindingId: Option<Id>, bindingEpoch: Option<int>)

  datatype Binding = Binding(
    id: Id, subjectId: Id, locationId: string, baseEpoch: int, epoch: int, status: BindingStatus)

  datatype EvidenceRecord = EvidenceRecord(
    id: Id, claim: string, source: string, authority: EvidenceAuthority, status: EvidenceStatus,
    observedAt: real, scope: set<(string, string)>, validUntil: Option<real>, confidence: Option<real>,
    derivedFrom: set<Id>, derivationRule: Option<string>,
    claimKey: Option<string>, claimValue: Option<string>)

  /** The constructor check: key and value come together, and neither is empty. */
  predicate ClaimPaired(e: EvidenceRecord) {
    && e.claimKey.Some? == e.claimValue.Some?
    && (e.claimKey.Some? ==> Truthy(e.claimKey) && Truthy(e.claimValue))
  }

  type Evidence = e: EvidenceRecord | ClaimPaired(e)
    witness EvidenceRecord("", "", "", Estimated, EvidenceValid, 0.0, {}, None, None, {}, None, None, None)

  datatype Output = Output(id: Id, attemptId: Id, terminal: bool, evidenceIds: set<Id>)
}
