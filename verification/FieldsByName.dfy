/** The records of a document, field by field under the names a reader of the document sees. */
module FieldsByName {
  import opened Entities
  import opened Images
  import C = Codec

  /** A record holds each value under its name. */
  lemma RecordAt(c: C.Class, values: seq<Value>, i: nat)
    requires i < |values| == |C.Names(c)|
    ensures Record(c, values).cls == c && C.Names(c)[i] in Record(c, values).fields
    ensures Record(c, values).fields[C.Names(c)[i]] == values[i]
  {
    forall j | i < j < |C.Names(c)| ensures C.Names(c)[j] != C.Names(c)[i] {
      NamesDiffer(c, i, j);
    }
    C.FieldAt(C.Names(c), values, i);
  }

  ghost predicate Holds(v: Value, c: C.Class, name: string, x: Value) {
    v.Data? && v.cls == c && name in v.fields && v.fields[name] == x
  }

  lemma RowAt(c: C.Class, values: seq<Value>, i: nat, name: string, x: Value)
    requires i < |values| == |C.Names(c)| && C.Names(c)[i] == name && values[i] == x
    ensures Holds(Record(c, values), c, name, x)
  {
    RecordAt(c, values, i);
    hide C.Names;
  }

  lemma ProgramByName(e: Program)
    ensures var v, c := ProgramValue(e), C.ProgramClass;
            && Holds(v, c, "id", Text(e.id))
            && Holds(v, c, "status", ProgramStatusValue(e.status))
  {
    hide C.Fields, Record, Holds;
    var c, row := C.ProgramClass, ProgramRow(e);
    RowAt(c, row, 0, "id", Text(e.id));
    RowAt(c, row, 1, "status", ProgramStatusValue(e.status));
  }

  lemma SessionByName(e: Session)
    ensures var v, c := SessionValue(e), C.SessionClass;
            && Holds(v, c, "id", Text(e.id))
            && Holds(v, c, "program_id", Text(e.programId))
  {
    hide C.Fields, Record, Holds;
    var c, row := C.SessionClass, SessionRow(e);
    RowAt(c, row, 0, "id", Text(e.id));
    RowAt(c, row, 1, "program_id", Text(e.programId));
  }

  lemma ContinuationByName(e: Continuation)
    ensures var v, c := ContinuationValue(e), C.ContinuationClass;
            && Holds(v, c, "id", Text(e.id))
            && Holds(v, c, "session_id", Text(e.sessionId))
            && Holds(v, c, "parent_ids", IdsValue(e.parentIds))
            && Holds(v, c, "lifecycle", ContinuationLifecycleValue(e.lifecycle))
  {
    hide C.Fields, Record, Holds;
    var c, row := C.ContinuationClass, ContinuationRow(e);
    RowAt(c, row, 0, "id", Text(e.id));
    RowAt(c, row, 1, "session_id", Text(e.sessionId));
    RowAt(c, row, 2, "parent_ids", IdsValue(e.parentIds));
    RowAt(c, row, 3, "lifecycle", ContinuationLifecycleValue(e.lifecycle));
  }

  lemma LogicalRequestByName(e: LogicalRequest)
    ensures var v, c := LogicalRequestValue(e), C.LogicalRequestClass;
            && Holds(v, c, "id", Text(e.id))
            && Holds(v, c, "continuation_id", Text(e.continuationId))
            && Holds(v, c, "status", RequestStatusValue(e.status))
            && Holds(v, c, "current_attempt_id", OptionalText(e.currentAttemptId))
            && Holds(v, c, "committed_attempt_id", OptionalText(e.committedAttemptId))
            && Holds(v, c, "authoritative_output_id", OptionalText(e.authoritativeOutputId))
  {
    hide C.Fields, Record, Holds;
    var c, row := C.LogicalRequestClass, LogicalRequestRow(e);
    RowAt(c, row, 0, "id", Text(e.id));
    RowAt(c, row, 1, "continuation_id", Text(e.continuationId));
    RowAt(c, row, 2, "status", RequestStatusValue(e.status));
    RowAt(c, row, 3, "current_attempt_id", OptionalText(e.currentAttemptId));
    RowAt(c, row, 4, "committed_attempt_id", OptionalText(e.committedAttemptId));
    RowAt(c, row, 5, "authoritative_output_id", OptionalText(e.authoritativeOutputId));
  }

  lemma AttemptByName(e: Attempt)
    ensures var v, c := AttemptValue(e), C.AttemptClass;
            && Holds(v, c, "id", Text(e.id))
            && Holds(v, c, "request_id", Text(e.requestId))
            && Holds(v, c, "generation", Int(e.generation))
            && Holds(v, c, "execution_status", ExecutionStatusValue(e.executionStatus))
            && Holds(v, c, "authority_status", AttemptAuthorityValue(e.authorityStatus))
  {
    hide C.Fields, Record, Holds;
    var c, row := C.AttemptClass, AttemptRow(e);
    RowAt(c, row, 0, "id", Text(e.id));
    RowAt(c, row, 1, "request_id", Text(e.requestId));
    RowAt(c, row, 2, "generation", Int(e.generation));
    RowAt(c, row, 3, "execution_status", ExecutionStatusValue(e.executionStatus));
    RowAt(c, row, 4, "authority_status", AttemptAuthorityValue(e.authorityStatus));
  }

  lemma PhaseByName(e: Phase)
    ensures var v, c := PhaseValue(e), C.PhaseClass;
            && Holds(v, c, "id", Text(e.id))
            && Holds(v, c, "attempt_id", Text(e.attemptId))
            && Holds(v, c, "ordinal", Int(e.ordinal))
            && Holds(v, c, "phase_type", PhaseTypeValue(e.phaseType))
            && Holds(v, c, "status", PhaseStatusValue(e.status))
  {
    hide C.Fields, Record, Holds;
    var c, row := C.PhaseClass, PhaseRow(e);
    RowAt(c, row, 0, "id", Text(e.id));
    RowAt(c, row, 1, "attempt_id", Text(e.attemptId));
    RowAt(c, row, 2, "ordinal", Int(e.ordinal));
    RowAt(c, row, 3, "phase_type", PhaseTypeValue(e.phaseType));
    RowAt(c, row, 4, "status", PhaseStatusValue(e.status));
  }

  lemma ReusableStateFirstByName(e: ReusableState)
    ensures var v, c := ReusableStateValue(e), C.ReusableStateClass;
            && Holds(v, c, "id", Text(e.id))
            && Holds(v, c, "origin_type", OriginTypeValue(e.originType))
            && Holds(v, c, "origin_id", Text(e.originId))
            && Holds(v, c, "origin_continuation_id", Text(e.originContinuationId))
  {
    hide C.Fields, Record, Holds;
    var c, row := C.ReusableStateClass, ReusableStateRow(e);
    RowAt(c, row, 0, "id", Text(e.id));
    RowAt(c, row, 1, "origin_type", OriginTypeValue(e.originType));
    RowAt(c, row, 2, "origin_id", Text(e.originId));
    RowAt(c, row, 3, "origin_continuation_id", Text(e.originContinuationId));
  }

  lemma ReusableStateMiddleByName(e: ReusableState)
    ensures var v, c := ReusableStateValue(e), C.ReusableStateClass;
            && Holds(v, c, "origin_request_id", OptionalText(e.originRequestId))
            && Holds(v, c, "producer_attempt_id", OptionalText(e.producerAttemptId))
            && Holds(v, c, "semantic_type", Text(e.semanticType))
            && Holds(v, c, "representation", Text(e.representation))
  {
    hide C.Fields, Record, Holds;
    var c, row := C.ReusableStateClass, ReusableStateRow(e);
    RowAt(c, row, 4, "origin_request_id", OptionalText(e.originRequestId));
    RowAt(c, row, 5, "producer_attempt_id", OptionalText(e.producerAttemptId));
    RowAt(c, row, 6, "semantic_type", Text(e.semanticType));
    RowAt(c, row, 7, "representation", Text(e.representation));
  }

  lemma StateReplicaByName(e: StateReplica)
    ensures var v, c := StateReplicaValue(e), C.StateReplicaClass;
            && Holds(v, c, "id", Text(e.id))
            && Holds(v, c, "state_id", Text(e.stateId))
            && Holds(v, c, "location_id", Text(e.locationId))
            && Holds(v, c, "status", ReplicaStatusValue(e.status))
            && Holds(v, c, "binding_id", OptionalText(e.bindingId))
            && Holds(v, c, "binding_epoch", OptionalInt(e.bindingEpoch))
  {
    hide C.Fields, Record, Holds;
    var c, row := C.StateReplicaClass, StateReplicaRow(e);
    RowAt(c, row, 0, "id", Text(e.id));
    RowAt(c, row, 1, "state_id", Text(e.stateId));
    RowAt(c, row, 2, "location_id", Text(e.locationId));
    RowAt(c, row, 3, "status", ReplicaStatusValue(e.status));
    RowAt(c, row, 4, "binding_id", OptionalText(e.bindingId));
    RowAt(c, row, 5, "binding_epoch", OptionalInt(e.bindingEpoch));
  }

  lemma BindingByName(e: Binding)
    ensures var v, c := BindingValue(e), C.BindingClass;
            && Holds(v, c, "id", Text(e.id))
            && Holds(v, c, "subject_id", Text(e.subjectId))
            && Holds(v, c, "location_id", Text(e.locationId))
            && Holds(v, c, "base_epoch", Int(e.baseEpoch))
            && Holds(v, c, "epoch", Int(e.epoch))
            && Holds(v, c, "status", BindingStatusValue(e.status))
  {
    hide C.Fields, Record, Holds;
    var c, row := C.BindingClass, BindingRow(e);
    RowAt(c, row, 0, "id", Text(e.id));
    RowAt(c, row, 1, "subject_id", Text(e.subjectId));
    RowAt(c, row, 2, "location_id", Text(e.locationId));
    RowAt(c, row, 3, "base_epoch", Int(e.baseEpoch));
    RowAt(c, row, 4, "epoch", Int(e.epoch));
    RowAt(c, row, 5, "status", BindingStatusValue(e.status));
  }

  lemma EvidenceFirstByName(e: Evidence)
    ensures var v, c := EvidenceValue(e), C.EvidenceClass;
            && Holds(v, c, "id", Text(e.id))
            && Holds(v, c, "claim", Text(e.claim))
            && Holds(v, c, "source", Text(e.source))
            && Holds(v, c, "authority", EvidenceAuthorityValue(e.authority))
  {
    hide C.Fields, Record, Holds;
    var c, row := C.EvidenceClass, EvidenceRow(e);
    RowAt(c, row, 0, "id", Text(e.id));
    RowAt(c, row, 1, "claim", Text(e.claim));
    RowAt(c, row, 2, "source", Text(e.source));
    RowAt(c, row, 3, "authority", EvidenceAuthorityValue(e.authority));
  }

  lemma EvidenceMiddleByName(e: Evidence)
    ensures var v, c := EvidenceValue(e), C.EvidenceClass;
            && Holds(v, c, "status", EvidenceStatusValue(e.status))
            && Holds(v, c, "observed_at", C.Float(e.observedAt))
            && Holds(v, c, "scope", LabelsValue(e.scope))
            && Holds(v, c, "valid_until", OptionalFloat(e.validUntil))
  {
    hide C.Fields, Record, Holds;
    var c, row := C.EvidenceClass, EvidenceRow(e);
    RowAt(c, row, 4, "status", EvidenceStatusValue(e.status));
    RowAt(c, row, 5, "observed_at", C.Float(e.observedAt));
    RowAt(c, row, 6, "scope", LabelsValue(e.scope));
    RowAt(c, row, 7, "valid_until", OptionalFloat(e.validUntil));
  }

  lemma EvidenceLastByName(e: Evidence)
    ensures var v, c := EvidenceValue(e), C.EvidenceClass;
            && Holds(v, c, "confidence", OptionalFloat(e.confidence))
            && Holds(v, c, "derived_from", IdsValue(e.derivedFrom))
            && Holds(v, c, "derivation_rule", OptionalText(e.derivationRule))
            && Holds(v, c, "claim_key", OptionalText(e.claimKey))
            && Holds(v, c, "claim_value", OptionalText(e.claimValue))
  {
    hide C.Fields, Record, Holds;
    var c, row := C.EvidenceClass, EvidenceRow(e);
    RowAt(c, row, 8, "confidence", OptionalFloat(e.confidence));
    RowAt(c, row, 9, "derived_from", IdsValue(e.derivedFrom));
    RowAt(c, row, 10, "derivation_rule", OptionalText(e.derivationRule));
    RowAt(c, row, 11, "claim_key", OptionalText(e.claimKey));
    RowAt(c, row, 12, "claim_value", OptionalText(e.claimValue));
  }

  lemma OutputByName(e: Output)
    ensures var v, c := OutputValue(e), C.OutputClass;
            && Holds(v, c, "id", Text(e.id))
            && Holds(v, c, "attempt_id", Text(e.attemptId))
            && Holds(v, c, "terminal", C.Bool(e.terminal))
            && Holds(v, c, "evidence_ids", IdsValue(e.evidenceIds))
  {
    hide C.Fields, Record, Holds;
    var c, row := C.OutputClass, OutputRow(e);
    RowAt(c, row, 0, "id", Text(e.id));
    RowAt(c, row, 1, "attempt_id", Text(e.attemptId));
    RowAt(c, row, 2, "terminal", C.Bool(e.terminal));
    RowAt(c, row, 3, "evidence_ids", IdsValue(e.evidenceIds));
  }

  lemma SemanticEventByName(e: SemanticEvent)
    ensures var v, c := SemanticEventValue(e), C.SemanticEventClass;
            && Holds(v, c, "id", Text(e.id))
            && Holds(v, c, "kind", Text(e.kind))
            && Holds(v, c, "subject_type", Text(e.subjectType))
            && Holds(v, c, "subject_id", Text(e.subjectId))
            && Holds(v, c, "payload", LabelsValue(e.payload))
  {
    hide C.Fields, Record, Holds;
    var c, row := C.SemanticEventClass, SemanticEventRow(e);
    RowAt(c, row, 0, "id", Text(e.id));
    RowAt(c, row, 1, "kind", Text(e.kind));
    RowAt(c, row, 2, "subject_type", Text(e.subjectType));
    RowAt(c, row, 3, "subject_id", Text(e.subjectId));
    RowAt(c, row, 4, "payload", LabelsValue(e.payload));
  }
}
