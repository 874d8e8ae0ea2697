/**
 The values a snapshot is made of: each enumeration member and each record of the core as the
 encoder sees it, field by field. Every image is storable.
 */
module Images {
  import opened Entities
  import C = Codec

  type Value = C.Value

  // ---------- scalars and collections ----------

  function Text(s: string): Value { C.Text(s) }

  function Int(i: int): Value { C.Int(i) }

  function OptionalText(o: Option<string>): Value { if o.Some? then C.Text(o.value) else C.Null }

  function OptionalInt(o: Option<int>): Value { if o.Some? then C.Int(o.value) else C.Null }

  function OptionalFloat(o: Option<real>): Value { if o.Some? then C.Float(o.value) else C.Null }

  function IdsValue(s: set<string>): Value { C.FrozenSet(set x | x in s :: C.Text(x)) }

  function LabelsValue(s: set<(string, string)>): Value {
    C.FrozenSet(set x | x in s :: C.Tuple([C.Text(x.0), C.Text(x.1)]))
  }

  lemma LabelsStorable(s: set<(string, string)>)
    ensures C.Storable(LabelsValue(s)) && C.Hashable(LabelsValue(s))
  {
    forall v | v in LabelsValue(s).items ensures C.Storable(v) && C.Hashable(v) {
      var x :| x in s && v == C.Tuple([C.Text(x.0), C.Text(x.1)]);
    }
  }

  // ---------- enumerations ----------

  function OriginTypeValue(o: OriginType): Value {
    match o
    case FromContinuation => C.Text("continuation")
    case FromRequest => C.Text("request")
    case FromAttempt => C.Text("attempt")
    case FromPhase => C.Text("phase")
    case UnsupportedOrigin(name) => C.Text(name)
  }

  function ProgramStatusValue(x: ProgramStatus): (v: Value)
    ensures C.Storable(v) && C.Hashable(v)
  {
    match x
    case ProgramCreated => C.Member(C.ProgramStatusType, "CREATED")
    case ProgramRunning => C.Member(C.ProgramStatusType, "RUNNING")
    case ProgramCompleted => C.Member(C.ProgramStatusType, "COMPLETED")
    case ProgramFailed => C.Member(C.ProgramStatusType, "FAILED")
    case ProgramCancelled => C.Member(C.ProgramStatusType, "CANCELLED")
  }

  function ContinuationLifecycleValue(x: ContinuationLifecycle): (v: Value)
    ensures C.Storable(v) && C.Hashable(v)
  {
    match x
    case LifeCreated => C.Member(C.ContinuationLifecycleType, "CREATED")
    case LifeActive => C.Member(C.ContinuationLifecycleType, "ACTIVE")
    case LifeWaiting => C.Member(C.ContinuationLifecycleType, "WAITING")
    case LifeSpeculative => C.Member(C.ContinuationLifecycleType, "SPECULATIVE")
    case LifeJoining => C.Member(C.ContinuationLifecycleType, "JOINING")
    case LifeTerminal => C.Member(C.ContinuationLifecycleType, "TERMINAL")
    case LifeAbandoned => C.Member(C.ContinuationLifecycleType, "ABANDONED")
  }

  function RequestStatusValue(x: RequestStatus): (v: Value)
    ensures C.Storable(v) && C.Hashable(v)
  {
    match x
    case RequestCreated => C.Member(C.RequestStatusType, "CREATED")
    case RequestReady => C.Member(C.RequestStatusType, "READY")
    case RequestRunning => C.Member(C.RequestStatusType, "RUNNING")
    case RequestCompleted => C.Member(C.RequestStatusType, "COMPLETED")
    case RequestFailed => C.Member(C.RequestStatusType, "FAILED")
    case RequestCancelled => C.Member(C.RequestStatusType, "CANCELLED")
  }

  function ExecutionStatusValue(x: ExecutionStatus): (v: Value)
    ensures C.Storable(v) && C.Hashable(v)
  {
    match x
    case ExecCreated => C.Member(C.ExecutionStatusType, "CREATED")
    case ExecDispatched => C.Member(C.ExecutionStatusType, "DISPATCHED")
    case ExecRunning => C.Member(C.ExecutionStatusType, "RUNNING")
    case ExecSucceeded => C.Member(C.ExecutionStatusType, "SUCCEEDED")
    case ExecFailed => C.Member(C.ExecutionStatusType, "FAILED")
    case ExecCancelled => C.Member(C.ExecutionStatusType, "CANCELLED")
  }

  function AttemptAuthorityValue(x: AttemptAuthority): (v: Value)
    ensures C.Storable(v) && C.Hashable(v)
  {
    match x
    case NoAuthority => C.Member(C.AttemptAuthorityType, "NONE")
    case Current => C.Member(C.AttemptAuthorityType, "CURRENT")
    case Committed => C.Member(C.AttemptAuthorityType, "COMMITTED")
    case Superseded => C.Member(C.AttemptAuthorityType, "SUPERSEDED")
  }

  function PhaseTypeValue(x: PhaseType): (v: Value)
    ensures C.Storable(v) && C.Hashable(v)
  {
    match x
    case Prefill => C.Member(C.PhaseTypeType, "PREFILL")
    case Decode => C.Member(C.PhaseTypeType, "DECODE")
    case StatePull => C.Member(C.PhaseTypeType, "STATE_PULL")
    case StateTransfer => C.Member(C.PhaseTypeType, "STATE_TRANSFER")
    case OtherPhase => C.Member(C.PhaseTypeType, "OTHER")
  }

  function PhaseStatusValue(x: PhaseStatus): (v: Value)
    ensures C.Storable(v) && C.Hashable(v)
  {
    match x
    case PhaseCreated => C.Member(C.PhaseStatusType, "CREATED")
    case PhaseRunning => C.Member(C.PhaseStatusType, "RUNNING")
    case PhaseCompleted => C.Member(C.PhaseStatusType, "COMPLETED")
    case PhaseFailed => C.Member(C.PhaseStatusType, "FAILED")
    case PhaseCancelled => C.Member(C.PhaseStatusType, "CANCELLED")
  }

  function StateLifecycleValue(x: StateLifecycle): (v: Value)
    ensures C.Storable(v) && C.Hashable(v)
  {
    match x
    case Active => C.Member(C.StateLifecycleType, "ACTIVE")
    case Waiting => C.Member(C.StateLifecycleType, "WAITING")
    case Speculative => C.Member(C.StateLifecycleType, "SPECULATIVE")
    case Terminal => C.Member(C.StateLifecycleType, "TERMINAL")
  }

  function StateValidityValue(x: StateValidity): (v: Value)
    ensures C.Storable(v) && C.Hashable(v)
  {
    match x
    case StateValid => C.Member(C.StateValidityType, "VALID")
    case StateInvalid => C.Member(C.StateValidityType, "INVALID")
  }

  function ReplicaStatusValue(x: ReplicaStatus): (v: Value)
    ensures C.Storable(v) && C.Hashable(v)
  {
    match x
    case Materializing => C.Member(C.ReplicaStatusType, "MATERIALIZING")
    case ReplicaValid => C.Member(C.ReplicaStatusType, "VALID")
    case ReplicaStale => C.Member(C.ReplicaStatusType, "STALE")
    case Transferring => C.Member(C.ReplicaStatusType, "TRANSFERRING")
    case Evicting => C.Member(C.ReplicaStatusType, "EVICTING")
    case ReplicaLost => C.Member(C.ReplicaStatusType, "LOST")
    case ReplicaInvalid => C.Member(C.ReplicaStatusType, "INVALID")
  }

  function BindingStatusValue(x: BindingStatus): (v: Value)
    ensures C.Storable(v) && C.Hashable(v)
  {
    match x
    case Proposed => C.Member(C.BindingStatusType, "PROPOSED")
    case BindingActive => C.Member(C.BindingStatusType, "ACTIVE")
    case Migrating => C.Member(C.BindingStatusType, "MIGRATING")
    case BindingSuperseded => C.Member(C.BindingStatusType, "SUPERSEDED")
    case Released => C.Member(C.BindingStatusType, "RELEASED")
    case BindingInvalid => C.Member(C.BindingStatusType, "INVALID")
  }

  function EvidenceAuthorityValue(x: EvidenceAuthority): (v: Value)
    ensures C.Storable(v) && C.Hashable(v)
  {
    match x
    case Estimated => C.Member(C.EvidenceAuthorityType, "ESTIMATED")
    case Derived => C.Member(C.EvidenceAuthorityType, "DERIVED")
    case ExactObservation => C.Member(C.EvidenceAuthorityType, "EXACT_OBSERVATION")
    case Authoritative => C.Member(C.EvidenceAuthorityType, "AUTHORITATIVE")
  }

  function EvidenceStatusValue(x: EvidenceStatus): (v: Value)
    ensures C.Storable(v) && C.Hashable(v)
  {
    match x
    case EvidenceValid => C.Member(C.EvidenceStatusType, "VALID")
    case EvidenceStale => C.Member(C.EvidenceStatusType, "STALE")
    case EvidenceUnknown => C.Member(C.EvidenceStatusType, "UNKNOWN")
    case EvidenceFailed => C.Member(C.EvidenceStatusType, "FAILED")
    case Ambiguous => C.Member(C.EvidenceStatusType, "AMBIGUOUS")
  }

  // ---------- records ----------

  /** The record of class `c` whose fields have the given values, in the order the class declares them. */
  function Record(c: C.Class, values: seq<Value>): Value
    requires |values| == |C.Names(c)|
  {
    C.Data(c, C.Fields(C.Names(c), values))
  }

  lemma RecordStorable(c: C.Class, values: seq<Value>)
    requires |values| == |C.Names(c)| && C.ConstructorAccepts(c, C.Fields(C.Names(c), values))
    requires forall x :: x in values ==> C.Storable(x)
    ensures C.Storable(Record(c, values))
  {
    hide C.Names, C.ConstructorAccepts;
    FieldsComeFrom(C.Names(c), values);
  }

  lemma {:induction false} FieldsComeFrom(names: seq<string>, values: seq<Value>)
    requires |names| == |values|
    ensures forall n :: n in C.Fields(names, values) ==> C.Fields(names, values)[n] in values
  {
    if names != [] {
      var last := |names| - 1;
      FieldsComeFrom(names[..last], values[..last]);
      assert values == values[..last] + [values[last]];
    }
  }

  /** A class declares each field once. */
  lemma NamesDiffer(c: C.Class, i: nat, j: nat)
    requires i < j < |C.Names(c)|
    ensures C.Names(c)[i] != C.Names(c)[j]
  {
  }

  function ProgramRow(e: Program): (r: seq<Value>)
    ensures |r| == |C.Names(C.ProgramClass)|
  {
    [Text(e.id), ProgramStatusValue(e.status)]
  }

  function ProgramValue(e: Program): Value {
    Record(C.ProgramClass, ProgramRow(e))
  }

  lemma ProgramStorable(e: Program)
    ensures C.Storable(ProgramValue(e))
  {
    RecordStorable(C.ProgramClass, ProgramRow(e));
  }

  function SessionRow(e: Session): (r: seq<Value>)
    ensures |r| == |C.Names(C.SessionClass)|
  {
    [Text(e.id), Text(e.programId)]
  }

  function SessionValue(e: Session): Value {
    Record(C.SessionClass, SessionRow(e))
  }

  lemma SessionStorable(e: Session)
    ensures C.Storable(SessionValue(e))
  {
    RecordStorable(C.SessionClass, SessionRow(e));
  }

  function ContinuationRow(e: Continuation): (r: seq<Value>)
    ensures |r| == |C.Names(C.ContinuationClass)|
  {
    [Text(e.id), Text(e.sessionId), IdsValue(e.parentIds), ContinuationLifecycleValue(e.lifecycle)]
  }

  function ContinuationValue(e: Continuation): Value {
    Record(C.ContinuationClass, ContinuationRow(e))
  }

  lemma ContinuationStorable(e: Continuation)
    ensures C.Storable(ContinuationValue(e))
  {
    RecordStorable(C.ContinuationClass, ContinuationRow(e));
  }

  function LogicalRequestRow(e: LogicalRequest): (r: seq<Value>)
    ensures |r| == |C.Names(C.LogicalRequestClass)|
  {
    [Text(e.id), Text(e.continuationId), RequestStatusValue(e.status), OptionalText(e.currentAttemptId),
     OptionalText(e.committedAttemptId), OptionalText(e.authoritativeOutputId)]
  }

  function LogicalRequestValue(e: LogicalRequest): Value {
    Record(C.LogicalRequestClass, LogicalRequestRow(e))
  }

  lemma LogicalRequestStorable(e: LogicalRequest)
    ensures C.Storable(LogicalRequestValue(e))
  {
    RecordStorable(C.LogicalRequestClass, LogicalRequestRow(e));
  }

  function AttemptRow(e: Attempt): (r: seq<Value>)
    ensures |r| == |C.Names(C.AttemptClass)|
  {
    [Text(e.id), Text(e.requestId), Int(e.generation), ExecutionStatusValue(e.executionStatus),
     AttemptAuthorityValue(e.authorityStatus)]
  }

  function AttemptValue(e: Attempt): Value {
    Record(C.AttemptClass, AttemptRow(e))
  }

  lemma AttemptStorable(e: Attempt)
    ensures C.Storable(AttemptValue(e))
  {
    RecordStorable(C.AttemptClass, AttemptRow(e));
  }

  function PhaseRow(e: Phase): (r: seq<Value>)
    ensures |r| == |C.Names(C.PhaseClass)|
  {
    [Text(e.id), Text(e.attemptId), Int(e.ordinal), PhaseTypeValue(e.phaseType), PhaseStatusValue(e.status)]
  }

  function PhaseValue(e: Phase): Value {
    Record(C.PhaseClass, PhaseRow(e))
  }

  lemma PhaseStorable(e: Phase)
    ensures C.Storable(PhaseValue(e))
  {
    RecordStorable(C.PhaseClass, PhaseRow(e));
  }

  function ReusableStateRow(e: ReusableState): (r: seq<Value>)
    ensures |r| == |C.Names(C.ReusableStateClass)|
  {
    [Text(e.id), OriginTypeValue(e.originType), Text(e.originId), Text(e.originContinuationId),
     OptionalText(e.originRequestId), OptionalText(e.producerAttemptId), Text(e.semanticType), Text(e.representation),
     StateLifecycleValue(e.lifecycle), StateValidityValue(e.validity), IdsValue(e.derivedFrom),
     OptionalText(e.producerPhaseId)]
  }

  function ReusableStateValue(e: ReusableState): Value {
    Record(C.ReusableStateClass, ReusableStateRow(e))
  }

  lemma ReusableStateStorable(e: ReusableState)
    ensures C.Storable(ReusableStateValue(e))
  {
    ReusableStateRowStorable(e);
    hide ReusableStateRow, C.Storable, C.Names, Record;
    RecordStorable(C.ReusableStateClass, ReusableStateRow(e));
  }

  lemma ReusableStateRowStorable(e: ReusableState)
    ensures forall x :: x in ReusableStateRow(e) ==> C.Storable(x)
  {
  }

  function StateReplicaRow(e: StateReplica): (r: seq<Value>)
    ensures |r| == |C.Names(C.StateReplicaClass)|
  {
    [Text(e.id), Text(e.stateId), Text(e.locationId), ReplicaStatusValue(e.status), OptionalText(e.bindingId),
     OptionalInt(e.bindingEpoch)]
  }

  function StateReplicaValue(e: StateReplica): Value {
    Record(C.StateReplicaClass, StateReplicaRow(e))
  }

  lemma StateReplicaStorable(e: StateReplica)
    ensures C.Storable(StateReplicaValue(e))
  {
    RecordStorable(C.StateReplicaClass, StateReplicaRow(e));
  }

  function BindingRow(e: Binding): (r: seq<Value>)
    ensures |r| == |C.Names(C.BindingClass)|
  {
    [Text(e.id), Text(e.subjectId), Text(e.locationId), Int(e.baseEpoch), Int(e.epoch), BindingStatusValue(e.status)]
  }

  function BindingValue(e: Binding): Value {
    Record(C.BindingClass, BindingRow(e))
  }

  lemma BindingStorable(e: Binding)
    ensures C.Storable(BindingValue(e))
  {
    RecordStorable(C.BindingClass, BindingRow(e));
  }

  function EvidenceRow(e: Evidence): (r: seq<Value>)
    ensures |r| == |C.Names(C.EvidenceClass)|
  {
    [Text(e.id), Text(e.claim), Text(e.source), EvidenceAuthorityValue(e.authority), EvidenceStatusValue(e.status),
     C.Float(e.observedAt), LabelsValue(e.scope), OptionalFloat(e.validUntil), OptionalFloat(e.confidence),
     IdsValue(e.derivedFrom), OptionalText(e.derivationRule), OptionalText(e.claimKey), OptionalText(e.claimValue)]
  }

  function EvidenceValue(e: Evidence): Value {
    Record(C.EvidenceClass, EvidenceRow(e))
  }

  lemma EvidenceStorable(e: Evidence)
    ensures C.Storable(EvidenceValue(e))
  {
    ClaimAccepted(e);
    EvidenceRowStorable(e);
    hide EvidenceRow, C.Storable, C.ConstructorAccepts, C.Names, Record;
    RecordStorable(C.EvidenceClass, EvidenceRow(e));
  }

  lemma EvidenceRowStorable(e: Evidence)
    ensures forall x :: x in EvidenceRow(e) ==> C.Storable(x)
  {
    LabelsStorable(e.scope);
    hide LabelsValue;
  }

  lemma ClaimAccepted(e: Evidence)
    ensures C.ConstructorAccepts(C.EvidenceClass, C.Fields(C.Names(C.EvidenceClass), EvidenceRow(e)))
  {
    var names, row := C.Names(C.EvidenceClass), EvidenceRow(e);
    NamesDiffer(C.EvidenceClass, 11, 12);
    C.FieldAt(names, row, 11);
    C.FieldAt(names, row, 12);
    assert names[11] == "claim_key" && names[12] == "claim_value";
    assert row[11] == OptionalText(e.claimKey) && row[12] == OptionalText(e.claimValue);
    hide C.Fields, C.Names, EvidenceRow;
  }

  function OutputRow(e: Output): (r: seq<Value>)
    ensures |r| == |C.Names(C.OutputClass)|
  {
    [Text(e.id), Text(e.attemptId), C.Bool(e.terminal), IdsValue(e.evidenceIds)]
  }

  function OutputValue(e: Output): Value {
    Record(C.OutputClass, OutputRow(e))
  }

  lemma OutputStorable(e: Output)
    ensures C.Storable(OutputValue(e))
  {
    RecordStorable(C.OutputClass, OutputRow(e));
  }

  function SemanticEventRow(e: SemanticEvent): (r: seq<Value>)
    ensures |r| == |C.Names(C.SemanticEventClass)|
  {
    [Text(e.id), Text(e.kind), Text(e.subjectType), Text(e.subjectId), LabelsValue(e.payload)]
  }

  function SemanticEventValue(e: SemanticEvent): Value {
    Record(C.SemanticEventClass, SemanticEventRow(e))
  }

  lemma SemanticEventStorable(e: SemanticEvent)
    ensures C.Storable(SemanticEventValue(e))
  {
    LabelsStorable(e.payload);
    RecordStorable(C.SemanticEventClass, SemanticEventRow(e));
  }
}
